/** What a flush makes of each answer of the server, without reference to how it gets there: which requests it makes,
    what each answer leaves, and that nothing is recorded that no answer says. */
module FlushAnswers {
  import opened Basics
  import opened PortApi
  import opened FlushLog

  /** The status codes for which trying again is pointless. */
  const REFUSALS: set<int> := {401, 403, 404, 422}

  const ACCEPTANCES: set<int> := {200, 207}

  /** The answer to the m-th request, if that sends the chunk in bulk. */
  function Answer(server: Server, c: Chunk, m: nat): HttpBulk { server.bulk(m, c.blueprint, EntitiesOf(c.rows)) }

  predicate AnsweredWith(server: Server, c: Chunk, m: nat, codes: set<int>) {
    Answer(server, c, m).Response? && Answer(server, c, m).statusCode in codes
  }

  /** The answer names the identifier in an error with such a code. */
  predicate Complains(errors: seq<BulkError>, id: string, refused: bool) {
    exists j :: 0 <= j < |errors| && errors[j].identifier == id && (errors[j].statusCode in REFUSALS <==> refused)
  }

  lemma ComplainsIff(errors: seq<BulkError>, id: string, refused: bool)
    ensures id in ErrorIds(errors, refused) <==> Complains(errors, id, refused)
  {
    if Complains(errors, id, refused) {
      var j :| 0 <= j < |errors| && errors[j].identifier == id && (errors[j].statusCode in REFUSALS <==> refused);
      assert errors[j] in errors;
    }
  }

  // ---- a chunk refused as a whole ----

  /** One request, no single upserts: every row is recorded as refused for good, and the flush is not clean. */
  lemma RefusedChunk(server: Server, n: nat, c: Chunk)
    requires 1 <= |c.rows| <= 20 && AnsweredWith(server, c, n, REFUSALS)
    ensures ChunkEvents(server, n, c).1 == n + 1
    ensures forall row :: row in c.rows ==> Permanent(row) in ChunkEvents(server, n, c).0
    ensures Tainted in ChunkEvents(server, n, c).0
    ensures forall ev :: ev in ChunkEvents(server, n, c).0 ==> !ev.Acked? && !ev.Retryable?
  {
    PermanentsMembers(c.rows);
  }

  lemma OneChunkMore(server: Server, n: nat, chunks: seq<Chunk>, k: nat)
    requires k < |chunks|
    ensures var m := LogOf(server, n, chunks[..k]).1;
            LogOf(server, n, chunks[..k + 1])
            == (LogOf(server, n, chunks[..k]).0 + ChunkEvents(server, m, chunks[k]).0,
                ChunkEvents(server, m, chunks[k]).1)
  {
    assert chunks[..k + 1][..k] == chunks[..k];
  }

  /** The events of a chunk stay in the log of the whole flush. */
  lemma {:induction false} EventsStay(server: Server, n: nat, chunks: seq<Chunk>, k: nat, end: nat, ev: Event)
    requires k < end <= |chunks|
    requires ev in ChunkEvents(server, LogOf(server, n, chunks[..k]).1, chunks[k]).0
    ensures ev in LogOf(server, n, chunks[..end]).0
    decreases end
  {
    hide LogOf, ChunkEvents;
    OneChunkMore(server, n, chunks, end - 1);
    if k < end - 1 {
      EventsStay(server, n, chunks, k, end - 1, ev);
    }
  }

  /** In a whole flush, if a chunk's bulk request is refused for good, it is the only request made for the chunk; the
      flush is not clean, and every source of the chunk's rows has a permanent failure, whatever else is answered. */
  lemma RefusedChunkOfFlush(server: Server, n: nat, chunks: seq<Chunk>, k: nat)
    requires k < |chunks| && 1 <= |chunks[k].rows| <= 20
    requires AnsweredWith(server, chunks[k], LogOf(server, n, chunks[..k]).1, REFUSALS)
    ensures LogOf(server, n, chunks[..k + 1]).1 == LogOf(server, n, chunks[..k]).1 + 1
    ensures var t := TallyOf(LogOf(server, n, chunks).0);
            && !t.clean
            && forall row :: row in chunks[k].rows && row.source.Some? ==> row.source.value in t.permanent
  {
    var m := LogOf(server, n, chunks[..k]).1;
    var log := LogOf(server, n, chunks).0;
    assert chunks[..|chunks|] == chunks;
    OneChunkMore(server, n, chunks, k);
    RefusedChunk(server, m, chunks[k]);
    EventsStay(server, n, chunks, k, |chunks|, Tainted);
    TallyMeaning(log);
    forall row | row in chunks[k].rows && row.source.Some? ensures row.source.value in TallyOf(log).permanent {
      EventsStay(server, n, chunks, k, |chunks|, Permanent(row));
      var i :| 0 <= i < |log| && log[i] == Permanent(row);
      assert RefusedFor(log[i], row.source.value);
    }
  }

  // ---- a chunk that is tried row by row ----

  /** The chunk is too long to be sent in bulk, or its bulk request is neither accepted nor refused for good. */
  predicate BulkFails(server: Server, c: Chunk, n: nat) {
    |c.rows| > 20
    || (c.rows != [] && !AnsweredWith(server, c, n, REFUSALS) && !AnsweredWith(server, c, n, ACCEPTANCES))
  }

  /** What one single upsert leaves. */
  function SingleEvent(server: Server, m: nat, row: Row): Event {
    match server.upsert(m, row.entity)
    case Some(e) => Acked(e.blueprint + ";" + e.identifier)
    case None => Retryable(row)
  }

  lemma {:induction false} FallbackEvents(server: Server, n: nat, rows: seq<Row>)
    ensures |Fallback(server, n, rows)| == |rows|
    ensures forall i :: 0 <= i < |rows| ==> Fallback(server, n, rows)[i] == SingleEvent(server, n + i, rows[i])
  {
    if rows != [] {
      FallbackEvents(server, n, rows[..|rows| - 1]);
    }
  }

  /** Then each row is sent once, in order: one single upsert a row, stored if it succeeds and else to be retried. */
  lemma FailedChunk(server: Server, n: nat, c: Chunk)
    requires BulkFails(server, c, n)
    ensures var first := if |c.rows| > 20 then n else n + 1;
            && ChunkEvents(server, n, c).1 == first + |c.rows|
            && |ChunkEvents(server, n, c).0| == |c.rows|
            && forall i :: 0 <= i < |c.rows| ==>
                 ChunkEvents(server, n, c).0[i] == SingleEvent(server, first + i, c.rows[i])
  {
    FallbackEvents(server, if |c.rows| > 20 then n else n + 1, c.rows);
  }

  // ---- an accepted chunk ----

  /** One of the requests from the n-th to the one before the n'-th sent the row singly, and its answer is recorded. */
  ghost predicate SentSingly(server: Server, n: nat, n': nat, row: Row, events: seq<Event>) {
    exists m: nat :: n <= m < n' && SingleEvent(server, m, row) in events
  }

  lemma AcceptedEvents(server: Server, n: nat, c: Chunk)
    requires 1 <= |c.rows| <= 20 && AnsweredWith(server, c, n, ACCEPTANCES)
    ensures var reply := Answer(server, c, n);
            var again := Named(c.rows, ErrorIds(reply.errors, false));
            ChunkEvents(server, n, c)
            == (Acks(c.blueprint, reply.entities) + Refusals(c.rows, ErrorIds(reply.errors, true))
                + Fallback(server, n + 1, again),
                n + 1 + |again|)
  {
    var reply := Answer(server, c, n);
    if reply.errors == [] {
      assert ErrorIds(reply.errors, true) == {} && ErrorIds(reply.errors, false) == {};
      NamedNone(c.rows);
      assert Acks(c.blueprint, reply.entities) + [] + [] == Acks(c.blueprint, reply.entities);
    }
  }

  lemma RefusalEvents(rows: seq<Row>, errors: seq<BulkError>, row: Row)
    requires row in rows
    ensures var events := Refusals(rows, ErrorIds(errors, true));
            && (Permanent(row) in events <==> Complains(errors, row.entity.identifier, true))
            && (forall id :: Complains(errors, id, true) ==> Tainted in events)
  {
    NamedMembers(rows, ErrorIds(errors, true));
    PermanentsMembers(Named(rows, ErrorIds(errors, true)));
    ComplainsIff(errors, row.entity.identifier, true);
    forall id | Complains(errors, id, true) ensures Tainted in Refusals(rows, ErrorIds(errors, true)) {
      ComplainsIff(errors, id, true);
    }
  }

  lemma RetryEvents(server: Server, n: nat, rows: seq<Row>, errors: seq<BulkError>, row: Row)
    requires row in rows && Complains(errors, row.entity.identifier, false)
    ensures var again := Named(rows, ErrorIds(errors, false));
            SentSingly(server, n, n + |again|, row, Fallback(server, n, again))
  {
    var again := Named(rows, ErrorIds(errors, false));
    NamedMembers(rows, ErrorIds(errors, false));
    ComplainsIff(errors, row.entity.identifier, false);
    FallbackEvents(server, n, again);
    var i :| 0 <= i < |again| && again[i] == row;
    assert SingleEvent(server, n + i, row) == Fallback(server, n, again)[i];
  }

  /** What is recorded of a row with an error: a permanent failure if the code is one for which trying again is
      pointless, and the result of a single upsert if it is another. */
  lemma AcceptedChunk(server: Server, n: nat, c: Chunk, row: Row)
    requires 1 <= |c.rows| <= 20 && AnsweredWith(server, c, n, ACCEPTANCES) && row in c.rows
    ensures var (events, n') := ChunkEvents(server, n, c);
            var reply := Answer(server, c, n);
            && (forall id :: id in reply.entities ==> Acked(c.blueprint + ";" + id) in events)
            && (Permanent(row) in events <==> Complains(reply.errors, row.entity.identifier, true))
            && (forall id :: Complains(reply.errors, id, true) ==> Tainted in events)
            && (Complains(reply.errors, row.entity.identifier, false) ==>
                  SentSingly(server, n + 1, n', row, events))
  {
    hide ChunkEvents, Fallback, Refusals, Named, Acks, Complains;
    var reply := Answer(server, c, n);
    var again := Named(c.rows, ErrorIds(reply.errors, false));
    AcceptedEvents(server, n, c);
    AcksMembers(c.blueprint, reply.entities);
    RefusalEvents(c.rows, reply.errors, row);
    NeverPermanent(server, n + 1, again);
    if Complains(reply.errors, row.entity.identifier, false) {
      RetryEvents(server, n + 1, c.rows, reply.errors, row);
      var m: nat :| n + 1 <= m < n + 1 + |again| && SingleEvent(server, m, row) in Fallback(server, n + 1, again);
      assert SingleEvent(server, m, row) in ChunkEvents(server, n, c).0;
    }
  }

  lemma NeverPermanent(server: Server, n: nat, rows: seq<Row>)
    ensures forall ev :: ev in Fallback(server, n, rows) ==> !ev.Permanent?
  {
    FallbackEvents(server, n, rows);
  }

  // ---- nothing is recorded without an answer that says so ----

  /** The m-th request, made for this chunk, was answered in a way that means the event. */
  ghost predicate Says(server: Server, c: Chunk, m: nat, ev: Event) {
    match ev
    case Acked(key) =>
      || (AnsweredWith(server, c, m, ACCEPTANCES)
          && exists id :: id in Answer(server, c, m).entities && key == c.blueprint + ";" + id)
      || exists row :: row in c.rows && server.upsert(m, row.entity).Some? && ev == SingleEvent(server, m, row)
    case Permanent(row) =>
      && row in c.rows
      && (|| AnsweredWith(server, c, m, REFUSALS)
          || (AnsweredWith(server, c, m, ACCEPTANCES)
              && Complains(Answer(server, c, m).errors, row.entity.identifier, true)))
    case Retryable(row) => row in c.rows && server.upsert(m, row.entity).None?
    case Tainted =>
      || AnsweredWith(server, c, m, REFUSALS)
      || (AnsweredWith(server, c, m, ACCEPTANCES)
          && exists id :: Complains(Answer(server, c, m).errors, id, true))
  }

  ghost predicate SaidBetween(server: Server, c: Chunk, n: nat, n': nat, ev: Event) {
    exists m: nat :: n <= m < n' && Says(server, c, m, ev)
  }

  lemma SinglySaid(server: Server, c: Chunk, n: nat, rows: seq<Row>, ev: Event)
    requires (forall row :: row in rows ==> row in c.rows) && ev in Fallback(server, n, rows)
    ensures SaidBetween(server, c, n, n + |rows|, ev)
  {
    FallbackEvents(server, n, rows);
    var i :| 0 <= i < |rows| && Fallback(server, n, rows)[i] == ev;
    assert rows[i] in c.rows && Says(server, c, n + i, ev);
  }

  lemma RefusalSaid(server: Server, n: nat, c: Chunk, ev: Event)
    requires 1 <= |c.rows| <= 20 && AnsweredWith(server, c, n, ACCEPTANCES)
    requires ev in Refusals(c.rows, ErrorIds(Answer(server, c, n).errors, true))
    ensures Says(server, c, n, ev)
  {
    var errors := Answer(server, c, n).errors;
    var gone := ErrorIds(errors, true);
    NamedMembers(c.rows, gone);
    PermanentsMembers(Named(c.rows, gone));
    var id :| id in gone;
    ComplainsIff(errors, id, true);
    if ev.Permanent? {
      ComplainsIff(errors, ev.row.entity.identifier, true);
    }
  }

  lemma AcceptedSaid(server: Server, n: nat, c: Chunk, ev: Event)
    requires 1 <= |c.rows| <= 20 && AnsweredWith(server, c, n, ACCEPTANCES) && ev in ChunkEvents(server, n, c).0
    ensures SaidBetween(server, c, n, ChunkEvents(server, n, c).1, ev)
  {
    hide ChunkEvents, Refusals, Fallback, Named, Acks, Complains;
    var reply := Answer(server, c, n);
    var again := Named(c.rows, ErrorIds(reply.errors, false));
    AcceptedEvents(server, n, c);
    AcksMembers(c.blueprint, reply.entities);
    if ev in Acks(c.blueprint, reply.entities) {
      assert Says(server, c, n, ev);
    } else if ev in Refusals(c.rows, ErrorIds(reply.errors, true)) {
      RefusalSaid(server, n, c, ev);
    } else {
      NamedMembers(c.rows, ErrorIds(reply.errors, false));
      SinglySaid(server, c, n + 1, again, ev);
      var m: nat :| n + 1 <= m < n + 1 + |again| && Says(server, c, m, ev);
    }
  }

  lemma ChunkSaid(server: Server, n: nat, c: Chunk, ev: Event)
    requires ev in ChunkEvents(server, n, c).0
    ensures SaidBetween(server, c, n, ChunkEvents(server, n, c).1, ev)
  {
    if BulkFails(server, c, n) {
      var first := if |c.rows| > 20 then n else n + 1;
      SinglySaid(server, c, first, c.rows, ev);
      var m: nat :| first <= m < ChunkEvents(server, n, c).1 && Says(server, c, m, ev);
    } else if AnsweredWith(server, c, n, REFUSALS) {
      PermanentsMembers(c.rows);
      assert Says(server, c, n, ev);
    } else {
      AcceptedSaid(server, n, c, ev);
    }
  }

  lemma {:induction false} LogGrows(server: Server, n: nat, chunks: seq<Chunk>)
    ensures n <= LogOf(server, n, chunks).1
  {
    if chunks != [] {
      LogGrows(server, n, chunks[..|chunks| - 1]);
    }
  }

  lemma {:induction false} LogSaid(server: Server, n: nat, chunks: seq<Chunk>, ev: Event)
    requires ev in LogOf(server, n, chunks).0
    ensures exists c :: c in chunks && SaidBetween(server, c, n, LogOf(server, n, chunks).1, ev)
  {
    var k := |chunks| - 1;
    var before := LogOf(server, n, chunks[..k]);
    var n' := LogOf(server, n, chunks).1;
    assert before.1 <= n' && n <= before.1 by { LogGrows(server, n, chunks[..k]); }
    if ev in before.0 {
      LogSaid(server, n, chunks[..k], ev);
      var c :| c in chunks[..k] && SaidBetween(server, c, n, before.1, ev);
      var m: nat :| n <= m < before.1 && Says(server, c, m, ev);
      assert c in chunks && SaidBetween(server, c, n, n', ev);
    } else {
      ChunkSaid(server, before.1, chunks[k], ev);
      var m: nat :| before.1 <= m < n' && Says(server, chunks[k], m, ev);
      assert chunks[k] in chunks && SaidBetween(server, chunks[k], n, n', ev);
    }
  }

  /** Some row of the item got an answer that means this. */
  ghost predicate SaidOf(server: Server, n: nat, chunks: seq<Chunk>, x: WorkItem, refused: bool) {
    exists c, row :: c in chunks && row in c.rows && row.source == Some(x)
      && SaidBetween(server, c, n, LogOf(server, n, chunks).1, if refused then Permanent(row) else Retryable(row))
  }

  /** Each key that a flush counts as stored was granted by an answer to one of its requests, each item with a retryable
      failure had a single upsert fail, and each with a permanent one had an entity refused. */
  lemma TallyIsSaid(server: Server, n: nat, chunks: seq<Chunk>)
    ensures var t := TallyOf(LogOf(server, n, chunks).0);
            && (forall key :: key in t.acked ==>
                  exists c :: c in chunks && SaidBetween(server, c, n, LogOf(server, n, chunks).1, Acked(key)))
            && (forall x :: x in t.failed ==> SaidOf(server, n, chunks, x, false))
            && (forall x :: x in t.permanent ==> SaidOf(server, n, chunks, x, true))
  {
    var log := LogOf(server, n, chunks).0;
    TallyMeaning(log);
    forall key | key in TallyOf(log).acked
      ensures exists c :: c in chunks && SaidBetween(server, c, n, LogOf(server, n, chunks).1, Acked(key))
    {
      LogSaid(server, n, chunks, Acked(key));
    }
    forall x | x in TallyOf(log).failed ensures SaidOf(server, n, chunks, x, false) {
      var i :| 0 <= i < |log| && FailsFor(log[i], x);
      ItemSaid(server, n, chunks, x, log[i], false);
    }
    forall x | x in TallyOf(log).permanent ensures SaidOf(server, n, chunks, x, true) {
      var i :| 0 <= i < |log| && RefusedFor(log[i], x);
      ItemSaid(server, n, chunks, x, log[i], true);
    }
  }

  lemma ItemSaid(server: Server, n: nat, chunks: seq<Chunk>, x: WorkItem, ev: Event, refused: bool)
    requires ev in LogOf(server, n, chunks).0 && if refused then RefusedFor(ev, x) else FailsFor(ev, x)
    ensures SaidOf(server, n, chunks, x, refused)
  {
    LogSaid(server, n, chunks, ev);
    var c :| c in chunks && SaidBetween(server, c, n, LogOf(server, n, chunks).1, ev);
    var m: nat :| n <= m < LogOf(server, n, chunks).1 && Says(server, c, m, ev);
    assert ev.row in c.rows;
  }
}
