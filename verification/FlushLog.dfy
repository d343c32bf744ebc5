/** What one flush of the batch collector does, as a log of events: which requests go out, in which order, and how each
    answer is recorded. The log is a function of the server and of the chunks sent; `TallyOf` is what the
    collector's maps hold after it. */
module FlushLog {
  import opened Basics
  import opened PortApi

  /** An entity waiting to be sent, with the work item it was mapped from. */
  datatype Row = Row(entity: EntityRequest, source: Option<WorkItem>)

  datatype Chunk = Chunk(blueprint: string, rows: seq<Row>)

  datatype Event =
    | Acked(key: string)       // the server stored the entity with this key
    | Permanent(row: Row)      // the server refused the entity for good
    | Retryable(row: Row)      // the entity could not be stored this time
    | Tainted                  // a non-retryable answer was seen

  /** The maps a flush fills: stored keys, items with a retryable failure, items with a permanent one, and whether
      deleting stale entities is still safe. */
  datatype Tally = Tally(acked: set<string>, failed: set<WorkItem>, permanent: set<WorkItem>, clean: bool) {

    function Record(ev: Event): Tally {
      match ev
      case Acked(key) => this.(acked := acked + {key})
      case Permanent(row) =>
        if row.source.None? then this
        else this.(permanent := permanent + {row.source.value}, failed := failed - {row.source.value})
      case Retryable(row) =>
        if row.source.Some? then this.(failed := failed + {row.source.value}, clean := false)
        else this.(clean := false)
      case Tainted => this.(clean := false)
    }
  }

  const EMPTY_TALLY := Tally({}, {}, {}, true)

  function TallyOf(log: seq<Event>): Tally {
    if log == [] then EMPTY_TALLY else TallyOf(log[..|log| - 1]).Record(log[|log| - 1])
  }

  lemma TallySnoc(log: seq<Event>, ev: Event)
    ensures TallyOf(log + [ev]) == TallyOf(log).Record(ev)
  {
    assert (log + [ev])[..|log|] == log;
  }

  // ---- the events of one chunk ----

  function EntitiesOf(rows: seq<Row>): (es: seq<EntityRequest>)
    ensures |es| == |rows| && forall i :: 0 <= i < |rows| ==> es[i] == rows[i].entity
  {
    seq(|rows|, i requires 0 <= i < |rows| => rows[i].entity)
  }

  function Acks(blueprint: string, ids: seq<string>): seq<Event> {
    if ids == [] then []
    else Acks(blueprint, ids[..|ids| - 1]) + [Acked(IdentifierKey(Entity(ids[|ids| - 1], blueprint)))]
  }

  function Permanents(rows: seq<Row>): seq<Event> {
    if rows == [] then [] else Permanents(rows[..|rows| - 1]) + [Permanent(rows[|rows| - 1])]
  }

  /** The identifiers among the errors whose status code is non-retryable, or among the others. */
  function ErrorIds(errors: seq<BulkError>, nonRetryable: bool): set<string> {
    set e | e in errors && IsNonRetryableStatusCode(e.statusCode) == nonRetryable :: e.identifier
  }

  function Named(rows: seq<Row>, ids: set<string>): seq<Row> {
    if rows == [] then []
    else Named(rows[..|rows| - 1], ids)
         + if rows[|rows| - 1].entity.identifier in ids then [rows[|rows| - 1]] else []
  }

  /** A permanent failure for each row the server refused for good, and the taint any such answer leaves. */
  function Refusals(rows: seq<Row>, ids: set<string>): seq<Event> {
    if ids == {} then [] else Permanents(Named(rows, ids)) + [Tainted]
  }

  /** Single upserts, one request a row. */
  function Fallback(server: Server, n: nat, rows: seq<Row>): seq<Event> {
    if rows == [] then []
    else
      var k := |rows| - 1;
      var reply := server.upsert(n + k, rows[k].entity);
      Fallback(server, n, rows[..k]) + [if reply.Some? then Acked(IdentifierKey(reply.value)) else Retryable(rows[k])]
  }

  function ChunkEvents(server: Server, n: nat, chunk: Chunk): (seq<Event>, nat) {
    var entities := EntitiesOf(chunk.rows);
    var n1 := CallsAfterBulk(n, entities);
    var reply := BulkUpsert(server, n, chunk.blueprint, entities);
    if reply.Replied? then
      if reply.errors == [] then (Acks(chunk.blueprint, reply.entities), n1)
      else
        var gone := ErrorIds(reply.errors, true);
        var again := Named(chunk.rows, ErrorIds(reply.errors, false));
        (Acks(chunk.blueprint, reply.entities)
         + Refusals(chunk.rows, gone)
         + Fallback(server, n1, again),
         n1 + |again|)
    else if reply.NonRetryable() then (Permanents(chunk.rows) + [Tainted], n1)
    else (Fallback(server, n1, chunk.rows), n1 + |chunk.rows|)
  }

  /** The log of sending `chunks` one after the other, and the number of requests made when it is done. */
  function LogOf(server: Server, n: nat, chunks: seq<Chunk>): (seq<Event>, nat) {
    if chunks == [] then ([], n)
    else
      var before := LogOf(server, n, chunks[..|chunks| - 1]);
      var last := ChunkEvents(server, before.1, chunks[|chunks| - 1]);
      (before.0 + last.0, last.1)
  }

  // ---- cutting a blueprint's rows into chunks ----

  function SplitRows(blueprint: string, rows: seq<Row>, size: nat): seq<Chunk>
    requires size > 0
  {
    if rows == [] then []
    else if |rows| <= size then [Chunk(blueprint, rows)]
    else [Chunk(blueprint, rows[..size])] + SplitRows(blueprint, rows[size..], size)
  }

  function RowsOf(chunks: seq<Chunk>): seq<Row> {
    if chunks == [] then [] else RowsOf(chunks[..|chunks| - 1]) + chunks[|chunks| - 1].rows
  }

  lemma {:induction false} RowsOfAppend(a: seq<Chunk>, b: seq<Chunk>)
    ensures RowsOf(a + b) == RowsOf(a) + RowsOf(b)
  {
    if b == [] {
      assert a + b == a;
    } else {
      var n := |b| - 1;
      RowsOfAppend(a, b[..n]);
      assert (a + b)[..|a| + n] == a + b[..n] && (a + b)[|a| + n] == b[n];
      assert RowsOf(a) + (RowsOf(b[..n]) + b[n].rows) == RowsOf(a) + RowsOf(b[..n]) + b[n].rows;
    }
  }

  lemma RowsOfFirst(first: Chunk, rest: seq<Chunk>)
    ensures RowsOf([first] + rest) == first.rows + RowsOf(rest)
  {
    RowsOfAppend([first], rest);
    assert [first][..0] == [];
    assert RowsOf([first]) == [] + first.rows == first.rows;
  }

  /** Chunks put together give back the list in order. */
  lemma {:induction false} SplitRowsConcat(blueprint: string, rows: seq<Row>, size: nat)
    requires size > 0
    ensures RowsOf(SplitRows(blueprint, rows, size)) == rows
  {
    if |rows| > size {
      SplitRowsConcat(blueprint, rows[size..], size);
      RowsOfFirst(Chunk(blueprint, rows[..size]), SplitRows(blueprint, rows[size..], size));
      TakeDrop(rows, size);
    } else if rows != [] {
      RowsOfFirst(Chunk(blueprint, rows), []);
      assert [Chunk(blueprint, rows)] + [] == [Chunk(blueprint, rows)] && rows + [] == rows;
    }
  }

  /** No chunk is empty or longer than the size asked for. */
  lemma {:induction false} SplitRowsSizes(blueprint: string, rows: seq<Row>, size: nat)
    requires size > 0
    ensures forall c :: c in SplitRows(blueprint, rows, size) ==> c.blueprint == blueprint && 1 <= |c.rows| <= size
  {
    if |rows| > size {
      SplitRowsSizes(blueprint, rows[size..], size);
    }
  }

  /** Only the last chunk may be shorter than that. */
  lemma {:induction false} SplitRowsFull(blueprint: string, rows: seq<Row>, size: nat)
    requires size > 0
    ensures forall i :: 0 <= i < |SplitRows(blueprint, rows, size)| - 1 ==>
              |SplitRows(blueprint, rows, size)[i].rows| == size
  {
    if |rows| > size {
      var rest := SplitRows(blueprint, rows[size..], size);
      SplitRowsFull(blueprint, rows[size..], size);
      forall i | 0 < i < |rest| ensures |([Chunk(blueprint, rows[..size])] + rest)[i].rows| == size {
        assert ([Chunk(blueprint, rows[..size])] + rest)[i] == rest[i - 1];
      }
    }
  }

  /** Cutting loses, repeats and reorders nothing; every chunk has between one and `size` rows, all but the last that
      many. */
  lemma SplitRowsPartitions(blueprint: string, rows: seq<Row>, size: nat)
    requires size > 0
    ensures RowsOf(SplitRows(blueprint, rows, size)) == rows
    ensures forall c :: c in SplitRows(blueprint, rows, size) ==> c.blueprint == blueprint && 1 <= |c.rows| <= size
    ensures var chunks := SplitRows(blueprint, rows, size);
            forall i :: 0 <= i < |chunks| - 1 ==> |chunks[i].rows| == size
  {
    SplitRowsConcat(blueprint, rows, size);
    SplitRowsSizes(blueprint, rows, size);
    SplitRowsFull(blueprint, rows, size);
  }

  // ---- what the tally means ----

  ghost predicate FailsFor(ev: Event, x: WorkItem) { ev.Retryable? && ev.row.source == Some(x) }

  ghost predicate RefusedFor(ev: Event, x: WorkItem) { ev.Permanent? && ev.row.source == Some(x) }

  /** A retryable failure of `x` that no permanent failure of `x` follows. */
  ghost predicate FailedLast(log: seq<Event>, x: WorkItem) {
    exists i :: 0 <= i < |log| && FailsFor(log[i], x) && forall j :: i < j < |log| ==> !RefusedFor(log[j], x)
  }

  ghost predicate Refuses(log: seq<Event>, x: WorkItem) {
    exists i :: 0 <= i < |log| && RefusedFor(log[i], x)
  }

  lemma {:induction false} AckedMeaning(log: seq<Event>, key: string)
    ensures key in TallyOf(log).acked <==> Acked(key) in log
  {
    if log != [] {
      var k := |log| - 1;
      AckedMeaning(log[..k], key);
      assert log == log[..k] + [log[k]];
    }
  }

  lemma {:induction false} PermanentMeaning(log: seq<Event>, x: WorkItem)
    ensures x in TallyOf(log).permanent <==> Refuses(log, x)
  {
    if log != [] {
      var k := |log| - 1;
      PermanentMeaning(log[..k], x);
      if Refuses(log[..k], x) {
        var i :| 0 <= i < k && RefusedFor(log[..k][i], x);
        assert RefusedFor(log[i], x);
      }
      if Refuses(log, x) && !RefusedFor(log[k], x) {
        var i :| 0 <= i < |log| && RefusedFor(log[i], x);
        assert RefusedFor(log[..k][i], x);
      }
    }
  }

  lemma {:induction false} FailedMeaning(log: seq<Event>, x: WorkItem)
    ensures x in TallyOf(log).failed <==> FailedLast(log, x)
  {
    if log != [] {
      var k := |log| - 1;
      FailedMeaning(log[..k], x);
      FailedLastSnoc(log[..k], log[k], x);
      assert log == log[..k] + [log[k]];
    }
  }

  lemma {:induction false} CleanMeaning(log: seq<Event>)
    ensures TallyOf(log).clean <==> forall ev :: ev in log ==> !ev.Tainted? && !ev.Retryable?
  {
    if log != [] {
      var k := |log| - 1;
      CleanMeaning(log[..k]);
      assert log == log[..k] + [log[k]];
    }
  }

  lemma FailedLastSnoc(rest: seq<Event>, ev: Event, x: WorkItem)
    ensures FailedLast(rest + [ev], x) <==> FailsFor(ev, x) || (FailedLast(rest, x) && !RefusedFor(ev, x))
  {
    var log := rest + [ev];
    var k := |rest|;
    if FailsFor(ev, x) {
      assert FailsFor(log[k], x);
    } else if FailedLast(rest, x) && !RefusedFor(ev, x) {
      var i :| 0 <= i < |rest| && FailsFor(rest[i], x) && forall j :: i < j < |rest| ==> !RefusedFor(rest[j], x);
      assert FailsFor(log[i], x);
      assert forall j :: i < j < |log| ==> !RefusedFor(log[j], x);
    }
    if FailedLast(log, x) && !FailsFor(ev, x) {
      var i :| 0 <= i < |log| && FailsFor(log[i], x) && forall j :: i < j < |log| ==> !RefusedFor(log[j], x);
      assert i < k && FailsFor(rest[i], x) && !RefusedFor(log[k], x);
      assert forall j :: i < j < |rest| ==> !RefusedFor(rest[j], x) by {
        forall j | i < j < |rest| ensures !RefusedFor(rest[j], x) { assert log[j] == rest[j]; }
      }
    }
  }

  /** What the four parts of a tally say about the log. */
  lemma {:induction false} TallyMeaning(log: seq<Event>)
    ensures forall key :: key in TallyOf(log).acked <==> Acked(key) in log
    ensures forall x :: x in TallyOf(log).permanent <==> Refuses(log, x)
    ensures forall x :: x in TallyOf(log).failed <==> FailedLast(log, x)
    ensures TallyOf(log).clean <==> forall ev :: ev in log ==> !ev.Tainted? && !ev.Retryable?
  {
    forall key ensures key in TallyOf(log).acked <==> Acked(key) in log {
      AckedMeaning(log, key);
    }
    forall x ensures x in TallyOf(log).permanent <==> Refuses(log, x) {
      PermanentMeaning(log, x);
    }
    forall x ensures x in TallyOf(log).failed <==> FailedLast(log, x) {
      FailedMeaning(log, x);
    }
    CleanMeaning(log);
  }

  /** Items that end up in both maps: the flush requeues them and then forgets their failure count. */
  function Clashes(t: Tally): set<WorkItem> { t.failed * t.permanent }

  /** An item clashes exactly when a permanent failure of one of its entities comes before the last retryable one and
      no permanent failure comes after that. */
  lemma ClashMeaning(log: seq<Event>, x: WorkItem)
    ensures x in Clashes(TallyOf(log)) <==> exists i, j :: RefusedThenFails(log, x, i, j)
  {
    PermanentMeaning(log, x);
    FailedMeaning(log, x);
    if Refuses(log, x) && FailedLast(log, x) {
      var i :| 0 <= i < |log| && RefusedFor(log[i], x);
      var j :| 0 <= j < |log| && FailsFor(log[j], x) && forall k :: j < k < |log| ==> !RefusedFor(log[k], x);
      assert i < j;
      assert RefusedThenFails(log, x, i, j);
    }
    if i, j :| RefusedThenFails(log, x, i, j) {
      assert Refuses(log, x) && FailedLast(log, x);
    }
  }

  /** The i-th event refuses the item, the j-th later fails it, and none after that refuses it. */
  ghost predicate RefusedThenFails(log: seq<Event>, x: WorkItem, i: int, j: int) {
    && 0 <= i < j < |log| && RefusedFor(log[i], x) && FailsFor(log[j], x)
    && forall k :: j < k < |log| ==> !RefusedFor(log[k], x)
  }

  // ---- every row sent is accounted for ----

  ghost predicate Accounted(log: seq<Event>, row: Row) {
    Acked(RequestKey(row.entity)) in log || Permanent(row) in log || Retryable(row) in log
  }

  ghost predicate KeyFrom(key: string, rows: seq<Row>) {
    exists row :: row in rows && key == RequestKey(row.entity)
  }

  /** An event that sending `rows` can cause; a permanent failure only in a flush that has also been tainted. */
  ghost predicate Explained(ev: Event, rows: seq<Row>, tainted: bool) {
    match ev
    case Acked(key) => KeyFrom(key, rows)
    case Permanent(row) => row in rows && tainted
    case Retryable(row) => row in rows
    case Tainted => true
  }

  ghost predicate Faithful(log: seq<Event>, rows: seq<Row>) {
    && (forall row :: row in rows ==> Accounted(log, row))
    && (forall ev :: ev in log ==> Explained(ev, rows, Tainted in log))
  }

  lemma {:induction false} NamedMembers(rows: seq<Row>, ids: set<string>)
    ensures forall row :: row in Named(rows, ids) <==> row in rows && row.entity.identifier in ids
  {
    if rows != [] {
      NamedMembers(rows[..|rows| - 1], ids);
      assert rows == rows[..|rows| - 1] + [rows[|rows| - 1]];
    }
  }

  lemma {:induction false} NamedNone(rows: seq<Row>)
    ensures Named(rows, {}) == []
  {
    if rows != [] {
      NamedNone(rows[..|rows| - 1]);
    }
  }

  lemma {:induction false} AcksMembers(blueprint: string, ids: seq<string>)
    ensures forall ev :: ev in Acks(blueprint, ids) <==>
              exists id :: id in ids && ev == Acked(IdentifierKey(Entity(id, blueprint)))
  {
    if ids != [] {
      AcksMembers(blueprint, ids[..|ids| - 1]);
      assert ids == ids[..|ids| - 1] + [ids[|ids| - 1]];
    }
  }

  lemma {:induction false} PermanentsMembers(rows: seq<Row>)
    ensures forall ev :: ev in Permanents(rows) <==> ev.Permanent? && ev.row in rows
  {
    if rows != [] {
      PermanentsMembers(rows[..|rows| - 1]);
      assert rows == rows[..|rows| - 1] + [rows[|rows| - 1]];
    }
  }

  lemma {:induction false} FallbackFaithful(server: Server, n: nat, rows: seq<Row>)
    requires Honest(server)
    ensures Faithful(Fallback(server, n, rows), rows)
    ensures Tainted !in Fallback(server, n, rows)
  {
    if rows != [] {
      var k := |rows| - 1;
      FallbackFaithful(server, n, rows[..k]);
      assert rows == rows[..k] + [rows[k]];
      var reply := server.upsert(n + k, rows[k].entity);
      var ev := if reply.Some? then Acked(IdentifierKey(reply.value)) else Retryable(rows[k]);
      assert ev in [ev] && rows[k] in [rows[k]];
      FaithfulAppend(Fallback(server, n, rows[..k]), rows[..k], [ev], [rows[k]]);
    }
  }

  lemma FaithfulAppend(log1: seq<Event>, rows1: seq<Row>, log2: seq<Event>, rows2: seq<Row>)
    requires Faithful(log1, rows1) && Faithful(log2, rows2)
    ensures Faithful(log1 + log2, rows1 + rows2)
  {
    var log, rows := log1 + log2, rows1 + rows2;
    forall ev | ev in log ensures Explained(ev, rows, Tainted in log) {
      if ev in log1 {
        ExplainedWiden(ev, rows1, Tainted in log1, rows, Tainted in log);
      } else {
        ExplainedWiden(ev, rows2, Tainted in log2, rows, Tainted in log);
      }
    }
  }

  lemma ExplainedWiden(ev: Event, rows: seq<Row>, tainted: bool, rows': seq<Row>, tainted': bool)
    requires Explained(ev, rows, tainted)
    requires forall row :: row in rows ==> row in rows'
    requires tainted ==> tainted'
    ensures Explained(ev, rows', tainted')
  {
    if ev.Acked? {
      var row :| row in rows && ev.key == RequestKey(row.entity);
      assert row in rows';
    }
  }

  lemma RowAnswered(rows: seq<Row>, ids: seq<string>, errors: seq<BulkError>, row: Row)
    requires row in rows
    requires forall e :: e in EntitiesOf(rows) ==> NamedIn(e, ids, errors)
    ensures row.entity.identifier in ids
         || row.entity.identifier in ErrorIds(errors, true) || row.entity.identifier in ErrorIds(errors, false)
  {
    var es := EntitiesOf(rows);
    var i :| 0 <= i < |rows| && rows[i] == row;
    assert es[i] in es;
    if row.entity.identifier !in ids {
      var j :| 0 <= j < |errors| && errors[j].identifier == row.entity.identifier;
      assert errors[j] in errors;
    }
  }

  lemma AcksFromRows(blueprint: string, rows: seq<Row>, ids: seq<string>)
    requires forall row :: row in rows ==> row.entity.blueprint == blueprint
    requires forall id :: id in ids ==> exists e: EntityRequest :: e in EntitiesOf(rows) && e.identifier == id
    ensures forall ev :: ev in Acks(blueprint, ids) ==> ev.Acked? && KeyFrom(ev.key, rows)
    ensures forall row :: row in rows && row.entity.identifier in ids ==>
              Acked(RequestKey(row.entity)) in Acks(blueprint, ids)
  {
    AcksMembers(blueprint, ids);
    forall id | id in ids ensures KeyFrom(IdentifierKey(Entity(id, blueprint)), rows) {
      var es := EntitiesOf(rows);
      var e: EntityRequest :| e in es && e.identifier == id;
      var i :| 0 <= i < |es| && es[i] == e;
      assert rows[i] in rows;
    }
  }

  /** An accepted request: what is named among the entities is stored, the rest is refused or tried again. */
  lemma RepliedFaithful(server: Server, n1: nat, chunk: Chunk, ids: seq<string>, errors: seq<BulkError>)
    requires Honest(server)
    requires forall row :: row in chunk.rows ==> row.entity.blueprint == chunk.blueprint
    requires forall e :: e in EntitiesOf(chunk.rows) ==> NamedIn(e, ids, errors)
    requires forall id :: id in ids ==> exists e: EntityRequest :: e in EntitiesOf(chunk.rows) && e.identifier == id
    ensures var gone := ErrorIds(errors, true);
            var again := Named(chunk.rows, ErrorIds(errors, false));
            Faithful(Acks(chunk.blueprint, ids)
                     + Refusals(chunk.rows, gone)
                     + Fallback(server, n1, again), chunk.rows)
  {
    var gone := ErrorIds(errors, true);
    var again := Named(chunk.rows, ErrorIds(errors, false));
    var acks := Acks(chunk.blueprint, ids);
    var refused := Refusals(chunk.rows, gone);
    var retried := Fallback(server, n1, again);
    var log := acks + refused + retried;
    AcksFromRows(chunk.blueprint, chunk.rows, ids);
    NamedMembers(chunk.rows, gone);
    NamedMembers(chunk.rows, ErrorIds(errors, false));
    PermanentsMembers(Named(chunk.rows, gone));
    FallbackFaithful(server, n1, again);
    forall row | row in chunk.rows ensures Accounted(log, row) {
      RowAnswered(chunk.rows, ids, errors, row);
      if row.entity.identifier in ids {
        assert Acked(RequestKey(row.entity)) in acks;
      } else if row.entity.identifier in gone {
        assert Permanent(row) in refused;
      } else {
        assert Accounted(retried, row);
      }
    }
    forall ev | ev in log ensures Explained(ev, chunk.rows, Tainted in log) {
      if ev in acks {
      } else if ev in refused {
        assert Tainted in refused;
      } else {
        ExplainedWiden(ev, again, Tainted in retried, chunk.rows, Tainted in log);
      }
    }
  }

  lemma ChunkFaithful(server: Server, n: nat, chunk: Chunk)
    requires Honest(server)
    requires forall row :: row in chunk.rows ==> row.entity.blueprint == chunk.blueprint
    ensures Faithful(ChunkEvents(server, n, chunk).0, chunk.rows)
  {
    var es := EntitiesOf(chunk.rows);
    var n1 := CallsAfterBulk(n, es);
    var reply := BulkUpsert(server, n, chunk.blueprint, es);
    if reply.Replied? {
      assert es != [] ==> server.bulk(n, chunk.blueprint, es).Response?;
      RepliedFaithful(server, n1, chunk, reply.entities, reply.errors);
      if reply.errors == [] {
        assert ErrorIds(reply.errors, true) == {} && ErrorIds(reply.errors, false) == {};
        NamedNone(chunk.rows);
        assert Acks(chunk.blueprint, reply.entities) + [] + [] == Acks(chunk.blueprint, reply.entities);
      }
    } else if reply.NonRetryable() {
      PermanentsMembers(chunk.rows);
    } else {
      FallbackFaithful(server, n1, chunk.rows);
    }
  }

  ghost predicate RowsMatchBlueprints(chunks: seq<Chunk>) {
    forall c, row :: c in chunks && row in c.rows ==> row.entity.blueprint == c.blueprint
  }

  /** The whole flush, whatever the server does within its contract: each row sent is stored, refused or failed, and
      nothing is recorded that was not sent. */
  lemma {:induction false} FlushFaithful(server: Server, n: nat, chunks: seq<Chunk>)
    requires Honest(server) && RowsMatchBlueprints(chunks)
    ensures Faithful(LogOf(server, n, chunks).0, RowsOf(chunks))
  {
    if chunks != [] {
      var k := |chunks| - 1;
      assert chunks[k] in chunks && forall c :: c in chunks[..k] ==> c in chunks;
      FlushFaithful(server, n, chunks[..k]);
      var before := LogOf(server, n, chunks[..k]);
      ChunkFaithful(server, before.1, chunks[k]);
      FaithfulAppend(before.0, RowsOf(chunks[..k]), ChunkEvents(server, before.1, chunks[k]).0, chunks[k].rows);
    }
  }

  function Sources(rows: seq<Row>): set<WorkItem> {
    set row | row in rows && row.source.Some? :: row.source.value
  }

  /** A faithful log that stays clean has stored every row and failed no item. */
  lemma CleanLogStoresAll(log: seq<Event>, rows: seq<Row>)
    requires Faithful(log, rows) && TallyOf(log).clean
    ensures TallyOf(log).permanent == {} && TallyOf(log).failed == {}
    ensures forall row :: row in rows ==> RequestKey(row.entity) in TallyOf(log).acked
  {
    TallyMeaning(log);
    forall ev | ev in log ensures ev.Acked? {
      if ev.Permanent? { assert Explained(ev, rows, Tainted in log); }
    }
    forall x ensures x !in TallyOf(log).permanent && x !in TallyOf(log).failed {
      assert forall i :: 0 <= i < |log| ==> log[i] in log;
    }
    forall row | row in rows ensures RequestKey(row.entity) in TallyOf(log).acked {
      assert Accounted(log, row);
    }
  }

  /** A faithful log stores only what was sent, and fails only items that were sent. */
  lemma FaithfulTallyBounds(log: seq<Event>, rows: seq<Row>)
    requires Faithful(log, rows)
    ensures forall key :: key in TallyOf(log).acked ==> KeyFrom(key, rows)
    ensures TallyOf(log).failed + TallyOf(log).permanent <= Sources(rows)
  {
    TallyMeaning(log);
    forall key | key in TallyOf(log).acked ensures KeyFrom(key, rows) {
      assert Explained(Acked(key), rows, Tainted in log);
    }
    forall x | x in TallyOf(log).failed + TallyOf(log).permanent ensures x in Sources(rows) {
      if Refuses(log, x) {
        var i :| 0 <= i < |log| && RefusedFor(log[i], x);
        assert Explained(log[i], rows, Tainted in log);
      } else {
        var i :| 0 <= i < |log| && FailsFor(log[i], x);
        assert Explained(log[i], rows, Tainted in log);
      }
    }
  }

  /** An item in neither failure map has had each of its rows stored. */
  lemma SuccessMeansStored(log: seq<Event>, rows: seq<Row>, row: Row)
    requires Faithful(log, rows) && row in rows
    requires row.source.Some? && row.source.value !in TallyOf(log).failed + TallyOf(log).permanent
    ensures RequestKey(row.entity) in TallyOf(log).acked
  {
    TallyMeaning(log);
    assert Accounted(log, row);
    if Permanent(row) in log || Retryable(row) in log {
      UnstoredMeansFailed(log, row);
    }
  }

  /** The success class loses no failure: an item with a row that failed is in one of the two failure maps. */
  lemma {:induction false} UnstoredMeansFailed(log: seq<Event>, row: Row)
    requires row.source.Some? && (Permanent(row) in log || Retryable(row) in log)
    ensures row.source.value in TallyOf(log).failed + TallyOf(log).permanent
  {
    var k := |log| - 1;
    assert log == log[..k] + [log[k]];
    if Permanent(row) in log[..k] || Retryable(row) in log[..k] {
      UnstoredMeansFailed(log[..k], row);
    }
  }

  lemma {:induction false} FallbackFaultFree(server: Server, n: nat, rows: seq<Row>)
    requires FaultFree(server)
    ensures forall ev :: ev in Fallback(server, n, rows) ==> ev.Acked?
  {
    if rows != [] {
      FallbackFaultFree(server, n, rows[..|rows| - 1]);
    }
  }

  lemma {:induction false} FaultFreeFlushIsClean(server: Server, n: nat, chunks: seq<Chunk>)
    requires FaultFree(server)
    ensures forall ev :: ev in LogOf(server, n, chunks).0 ==> ev.Acked?
    ensures TallyOf(LogOf(server, n, chunks).0).clean
  {
    if chunks != [] {
      var k := |chunks| - 1;
      var mid := LogOf(server, n, chunks[..k]).1;
      FaultFreeFlushIsClean(server, n, chunks[..k]);
      var es := EntitiesOf(chunks[k].rows);
      FallbackFaultFree(server, CallsAfterBulk(mid, es), chunks[k].rows);
      var reply := BulkUpsert(server, mid, chunks[k].blueprint, es);
      if reply.Replied? {
        AcksMembers(chunks[k].blueprint, reply.entities);
      }
    }
    TallyMeaning(LogOf(server, n, chunks).0);
  }

  lemma {:induction false} FallbackRefusesNothing(server: Server, n: nat, rows: seq<Row>)
    ensures forall ev :: ev in Fallback(server, n, rows) ==> !ev.Permanent?
  {
    if rows != [] {
      FallbackRefusesNothing(server, n, rows[..|rows| - 1]);
    }
  }

  lemma ChunkRefusesNothing(server: Server, n: nat, chunk: Chunk)
    requires NeverRefuses(server)
    ensures forall ev :: ev in ChunkEvents(server, n, chunk).0 ==> !ev.Permanent?
  {
    var es := EntitiesOf(chunk.rows);
    var reply := BulkUpsert(server, n, chunk.blueprint, es);
    var n1 := CallsAfterBulk(n, es);
    FallbackRefusesNothing(server, n1, chunk.rows);
    if reply.Replied? {
      AcksMembers(chunk.blueprint, reply.entities);
      if reply.errors != [] {
        assert ErrorIds(reply.errors, true) == {};
        FallbackRefusesNothing(server, n1, Named(chunk.rows, ErrorIds(reply.errors, false)));
      }
    }
  }

  /** A server that never refuses for good leaves no item with a permanent failure, however badly it fails otherwise. */
  lemma {:induction false} NoRefusalsNoPermanents(server: Server, n: nat, chunks: seq<Chunk>)
    requires NeverRefuses(server)
    ensures forall ev :: ev in LogOf(server, n, chunks).0 ==> !ev.Permanent?
    ensures TallyOf(LogOf(server, n, chunks).0).permanent == {}
  {
    var log := LogOf(server, n, chunks).0;
    if chunks != [] {
      var k := |chunks| - 1;
      NoRefusalsNoPermanents(server, n, chunks[..k]);
      ChunkRefusesNothing(server, LogOf(server, n, chunks[..k]).1, chunks[k]);
    }
    forall x ensures x !in TallyOf(log).permanent {
      PermanentMeaning(log, x);
    }
  }

  lemma {:induction false} FallbackFailsNothing(server: Server, n: nat, rows: seq<Row>)
    requires UpsertsSucceed(server)
    ensures forall ev :: ev in Fallback(server, n, rows) ==> !ev.Retryable?
  {
    if rows != [] {
      FallbackFailsNothing(server, n, rows[..|rows| - 1]);
    }
  }

  lemma ChunkFailsNothing(server: Server, n: nat, chunk: Chunk)
    requires UpsertsSucceed(server)
    ensures forall ev :: ev in ChunkEvents(server, n, chunk).0 ==> !ev.Retryable?
  {
    var es := EntitiesOf(chunk.rows);
    var reply := BulkUpsert(server, n, chunk.blueprint, es);
    var n1 := CallsAfterBulk(n, es);
    FallbackFailsNothing(server, n1, chunk.rows);
    PermanentsMembers(chunk.rows);
    if reply.Replied? {
      AcksMembers(chunk.blueprint, reply.entities);
      PermanentsMembers(Named(chunk.rows, ErrorIds(reply.errors, true)));
      FallbackFailsNothing(server, n1, Named(chunk.rows, ErrorIds(reply.errors, false)));
    }
  }

  /** A server that never fails a single upsert leaves no item with a retryable failure, however often it refuses. */
  lemma {:induction false} UpsertsLeaveNoFailures(server: Server, n: nat, chunks: seq<Chunk>)
    requires UpsertsSucceed(server)
    ensures forall ev :: ev in LogOf(server, n, chunks).0 ==> !ev.Retryable?
    ensures TallyOf(LogOf(server, n, chunks).0).failed == {}
  {
    var log := LogOf(server, n, chunks).0;
    if chunks != [] {
      var k := |chunks| - 1;
      UpsertsLeaveNoFailures(server, n, chunks[..k]);
      ChunkFailsNothing(server, LogOf(server, n, chunks[..k]).1, chunks[k]);
    }
    forall x ensures x !in TallyOf(log).failed {
      FailedMeaning(log, x);
    }
  }
}
