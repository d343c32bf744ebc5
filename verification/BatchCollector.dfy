/** The batch collector: entities gathered per blueprint, sent in bulk chunks, with the work items they came from
    finished, put back or given up according to the answers. */
module BatchCollectors {
  import opened Basics
  import opened PortApi
  import opened WorkQueues
  import opened FlushLog

  type Batch = map<string, seq<Row>>

  datatype SyncResult = SyncResult(entities: set<string>, shouldDelete: bool, requeued: nat)

  // ---- chunk sizes ----

  type pos = n: int | n > 0 witness 1

  /** The configured limits, and the encoded size of each entity when it can be encoded. */
  datatype BulkLimits = BulkLimits(maxEntities: int, maxBytes: int, size: EntityRequest -> Option<pos>) {
    function SizeOf(e: EntityRequest): pos { if size(e).Some? then size(e).value else 1024 }
  }

  function TotalBytes(limits: BulkLimits, es: seq<EntityRequest>): nat {
    if es == [] then 0 else TotalBytes(limits, es[..|es| - 1]) + limits.SizeOf(es[|es| - 1])
  }

  lemma {:induction false} TotalBytesAtLeastCount(limits: BulkLimits, es: seq<EntityRequest>)
    ensures TotalBytes(limits, es) >= |es|
  {
    if es != [] {
      TotalBytesAtLeastCount(limits, es[..|es| - 1]);
    }
  }

  /** One and a half times the average of the first ten sizes, rounded up. */
  function Estimate(limits: BulkLimits, es: seq<EntityRequest>): (size: pos)
    requires es != []
  {
    var sample := Min(10, |es|);
    TotalBytesAtLeastCount(limits, es[..sample]);
    (3 * TotalBytes(limits, es[..sample]) + 2 * sample - 1) / (2 * sample)
  }

  function BulkSize(limits: BulkLimits, es: seq<EntityRequest>): pos {
    if es == [] then 1 else Max(1, Min(limits.maxEntities, limits.maxBytes / Estimate(limits, es)))
  }

  method CalculateBulkSize(limits: BulkLimits, es: seq<EntityRequest>) returns (r: pos)
    ensures r == BulkSize(limits, es)
  {
    if |es| == 0 {
      return 1;
    }
    var sampleSize := Min(10, |es|);
    var sample := es[..sampleSize];
    var total: nat := 0;
    for i := 0 to |sample|
      invariant total == TotalBytes(limits, sample[..i])
    {
      assert sample[..i + 1][..i] == sample[..i];
      match limits.size(sample[i])
      case None => total := total + 1024;
      case Some(bytes) => total := total + bytes;
    }
    assert sample[..|sample|] == sample;
    TotalBytesAtLeastCount(limits, sample);
    var estimated: pos := (3 * total + 2 * sampleSize - 1) / (2 * sampleSize);
    return Max(1, Min(limits.maxEntities, limits.maxBytes / estimated));
  }

  lemma OneMoreTimes(k: nat, most: nat)
    ensures (k + 1) * most == k * most + most
  {
  }

  lemma {:induction false} TotalBytesBound(limits: BulkLimits, es: seq<EntityRequest>, most: nat)
    requires forall e :: e in es ==> limits.SizeOf(e) <= most
    ensures TotalBytes(limits, es) <= |es| * most
  {
    if es != [] {
      var k := |es| - 1;
      assert es[k] in es && forall e :: e in es[..k] ==> e in es;
      TotalBytesBound(limits, es[..k], most);
      OneMoreTimes(k, most);
    }
  }

  lemma QuotientBound(count: nat, total: int, each: pos)
    requires count <= total / each
    ensures count * each <= total
  {
    assert count * each <= (total / each) * each;
  }

  lemma QuotientLargest(total: int, each: pos)
    ensures (total / each) * each <= total < (total / each + 1) * each
  {
  }

  lemma TimesMonotone(a: int, b: int, each: pos)
    requires a <= b
    ensures a * each <= b * each
  {
  }

  /** The estimate is the least whole number of bytes that is at least one and a half times the average size of the
      first ten entities; the chunk size is the largest for which that many estimated entities fit both limits, and 1 if
      there is none. */
  lemma BulkSizeIsLargest(limits: BulkLimits, es: seq<EntityRequest>)
    requires es != []
    ensures var sample := es[..Min(10, |es|)];
            && 2 * |sample| * (Estimate(limits, es) - 1) < 3 * TotalBytes(limits, sample)
            && 3 * TotalBytes(limits, sample) <= 2 * |sample| * Estimate(limits, es)
    ensures var size := BulkSize(limits, es);
            && (size == 1 || (size <= limits.maxEntities && size * Estimate(limits, es) <= limits.maxBytes))
            && (size >= limits.maxEntities || (size + 1) * Estimate(limits, es) > limits.maxBytes)
  {
    var each := Estimate(limits, es);
    var fit := limits.maxBytes / each;
    var sample := Min(10, |es|);
    QuotientLargest(3 * TotalBytes(limits, es[..sample]) + 2 * sample - 1, 2 * sample);
    QuotientLargest(limits.maxBytes, each);
    var size := BulkSize(limits, es);
    if size <= fit {
      TimesMonotone(size, fit, each);
    }
    if fit <= size {
      TimesMonotone(fit + 1, size + 1, each);
    }
  }

  /** When no entity is larger than the estimate, each chunk cut from a blueprint's rows fits the byte limit, or holds
      one entity; and no chunk is longer than the entity limit allows. */
  lemma ChunksFit(limits: BulkLimits, blueprint: string, rows: seq<Row>, c: Chunk)
    requires rows != []
    requires forall row :: row in rows ==> limits.SizeOf(row.entity) <= Estimate(limits, EntitiesOf(rows))
    requires c in SplitRows(blueprint, rows, BulkSize(limits, EntitiesOf(rows)))
    ensures TotalBytes(limits, EntitiesOf(c.rows)) <= limits.maxBytes || |c.rows| == 1
    ensures 1 <= |c.rows| <= Max(1, limits.maxEntities)
  {
    var es := EntitiesOf(rows);
    var size := BulkSize(limits, es);
    var most := Estimate(limits, es);
    SplitRowsPartitions(blueprint, rows, size);
    if |c.rows| > 1 {
      QuotientBound(|c.rows|, limits.maxBytes, most);
      RowsOfMembers(SplitRows(blueprint, rows, size), c);
      forall e | e in EntitiesOf(c.rows) ensures limits.SizeOf(e) <= most {
        var i :| 0 <= i < |c.rows| && EntitiesOf(c.rows)[i] == e;
        assert c.rows[i] in rows;
      }
      TotalBytesBound(limits, EntitiesOf(c.rows), most);
    }
  }

  lemma {:induction false} RowsOfMembers(chunks: seq<Chunk>, c: Chunk)
    requires c in chunks
    ensures forall row :: row in c.rows ==> row in RowsOf(chunks)
  {
    var k := |chunks| - 1;
    if c != chunks[k] {
      assert chunks == chunks[..k] + [chunks[k]];
      RowsOfMembers(chunks[..k], c);
    }
  }

  /** With an entity limit of at most 20 the client never turns a chunk away for its length; with a larger one it turns
      away every chunk that is longer than 20. */
  lemma ClientLimit(limits: BulkLimits, server: Server, n: nat, blueprint: string, rows: seq<Row>, c: Chunk)
    requires c in SplitRows(blueprint, rows, BulkSize(limits, EntitiesOf(rows)))
    ensures limits.maxEntities <= MAX_BULK_ENTITIES ==> !BulkUpsert(server, n, blueprint, EntitiesOf(c.rows)).TooMany?
    ensures BulkUpsert(server, n, blueprint, EntitiesOf(c.rows)).TooMany? <==> |c.rows| > MAX_BULK_ENTITIES
  {
    SplitRowsPartitions(blueprint, rows, BulkSize(limits, EntitiesOf(rows)));
  }

  // ---- the batch as a whole ----

  /** Each list is non-empty and holds entities of its own blueprint, as `AddEntity` files them. */
  ghost predicate Filed(batch: Batch) {
    forall bp :: bp in batch ==> batch[bp] != [] && forall row :: row in batch[bp] ==> row.entity.blueprint == bp
  }

  predicate InBatch(batch: Batch, row: Row) {
    row.entity.blueprint in batch && row in batch[row.entity.blueprint]
  }

  function Extended(batch: Batch, row: Row): Batch {
    var bp := row.entity.blueprint;
    batch[bp := (if bp in batch then batch[bp] else []) + [row]]
  }

  function BatchSources(batch: Batch): set<WorkItem> {
    set bp, row | bp in batch && row in batch[bp] && row.source.Some? :: row.source.value
  }

  /** The chunks of a flush that visits the blueprints in the given order. */
  function Chunked(order: seq<string>, batch: Batch, limits: BulkLimits): seq<Chunk>
    requires forall bp :: bp in order ==> bp in batch
  {
    if order == [] then []
    else
      var k := |order| - 1;
      var bp := order[k];
      Chunked(order[..k], batch, limits) + SplitRows(bp, batch[bp], BulkSize(limits, EntitiesOf(batch[bp])))
  }

  /** Whatever the order, a flush sends exactly the rows of the batch, each under its own blueprint. */
  lemma {:induction false} ChunkedRows(order: seq<string>, batch: Batch, limits: BulkLimits)
    requires forall bp :: bp in order ==> bp in batch
    requires Filed(batch)
    ensures RowsMatchBlueprints(Chunked(order, batch, limits))
    ensures forall row ::
              row in RowsOf(Chunked(order, batch, limits)) <==> row.entity.blueprint in order && InBatch(batch, row)
  {
    if order != [] {
      var k := |order| - 1;
      var bp := order[k];
      assert order == order[..k] + [bp];
      ChunkedRows(order[..k], batch, limits);
      var size := BulkSize(limits, EntitiesOf(batch[bp]));
      var last := SplitRows(bp, batch[bp], size);
      SplitRowsPartitions(bp, batch[bp], size);
      RowsOfAppend(Chunked(order[..k], batch, limits), last);
      forall c, row | c in last && row in c.rows ensures row.entity.blueprint == c.blueprint {
        RowsOfMembers(last, c);
      }
    }
  }

  // ---- settling the work items of a flush ----

  /** The failed items that a flush puts back. */
  function Requeued(q: QueueState, failed: set<WorkItem>, allowRequeue: bool): set<WorkItem> {
    if allowRequeue then set x | x in failed && q.NumRequeues(x) < MAX_NUM_REQUEUES else {}
  }

  /** The queue after `items` have been finished and their failure counts dropped. */
  function Completed(q: QueueState, items: set<WorkItem>): QueueState {
    q.(processing := q.processing - items, failures := q.failures - items)
  }

  /** The queue after a flush of `all` with the given failure classes, when nothing was added to it meanwhile. An item
      in both classes is put back, and its failure count dropped right after. */
  function Settled(q: QueueState, all: set<WorkItem>, failed: set<WorkItem>, permanent: set<WorkItem>,
                   allowRequeue: bool)
    : QueueState
  {
    var back := Requeued(q, failed, allowRequeue);
    var done := all + failed + permanent;
    Completed(q, done).(
      failures := map x | x in q.failures.Keys + (back - permanent) && (x in done ==> x in back - permanent)
                    :: if x in back - permanent then q.NumRequeues(x) + 1 else q.failures[x],
      delayed := if q.shuttingDown then q.delayed else q.delayed + back)
  }

  /** Equal up to what finishing an item that is also dirty appends to the queue. */
  ghost predicate SameButQueue(q: QueueState, q': QueueState, touched: set<WorkItem>) {
    && q'.(queue := q.queue) == q
    && (touched !! q.dirty ==> q' == q)
  }

  /** The calls of `Done` one flush makes: for the items that succeeded, for those that failed, for those refused. */
  datatype DoneCalls = DoneCalls(succeeded: seq<WorkItem>, retried: seq<WorkItem>, refused: seq<WorkItem>) {
    ghost function All(): seq<WorkItem> { succeeded + retried + refused }

    ghost predicate For(all: set<WorkItem>, failed: set<WorkItem>, permanent: set<WorkItem>) {
      IsOrderOf(succeeded, all - failed - permanent) && IsOrderOf(retried, failed) && IsOrderOf(refused, permanent)
    }
  }

  /** The calls of one flush are distinct if and only if no item is in both failure maps. */
  lemma DonesDistinctIff(dones: DoneCalls, all: set<WorkItem>, failed: set<WorkItem>, permanent: set<WorkItem>)
    requires dones.For(all, failed, permanent)
    ensures Distinct(dones.All()) <==> failed !! permanent
  {
    var calls := dones.All();
    var n := |dones.succeeded|;
    var m := |dones.retried|;
    if x :| x in failed && x in permanent {
      assert x in dones.retried && x in dones.refused;
      var i :| 0 <= i < m && dones.retried[i] == x;
      var j :| 0 <= j < |dones.refused| && dones.refused[j] == x;
      assert calls[n + i] == x && calls[n + m + j] == x;
    } else {
      forall i, j | 0 <= i < j < |calls| ensures calls[i] != calls[j] {
        DoneCallOf(dones, all, failed, permanent, i);
        DoneCallOf(dones, all, failed, permanent, j);
      }
    }
  }

  /** The loop that makes the k-th call, and so the class of its item. */
  lemma DoneCallOf(dones: DoneCalls, all: set<WorkItem>, failed: set<WorkItem>, permanent: set<WorkItem>, k: nat)
    requires dones.For(all, failed, permanent) && k < |dones.All()|
    ensures var n, m := |dones.succeeded|, |dones.retried|;
            var x := dones.All()[k];
            if k < n then x == dones.succeeded[k] && x in all - failed - permanent
            else if k < n + m then x == dones.retried[k - n] && x in failed
            else x == dones.refused[k - n - m] && x in permanent
  {
    var n, m := |dones.succeeded|, |dones.retried|;
    if k < n {
      assert dones.succeeded[k] in dones.succeeded;
    } else if k < n + m {
      assert dones.retried[k - n] in dones.retried;
    } else {
      assert dones.refused[k - n - m] in dones.refused;
    }
  }

  /** Exactly-once resolution: `Done` reaches every item of the flush, and it does so once each if and only if no item
      has a retryable failure recorded after a permanent one. */
  lemma DoneExactlyOnce(dones: DoneCalls, all: set<WorkItem>, log: seq<Event>)
    requires dones.For(all, TallyOf(log).failed, TallyOf(log).permanent)
    requires TallyOf(log).failed + TallyOf(log).permanent <= all
    ensures forall x :: x in dones.All() <==> x in all
    ensures Distinct(dones.All()) <==> forall x :: !(Refuses(log, x) && FailedLast(log, x))
  {
    var failed, permanent := TallyOf(log).failed, TallyOf(log).permanent;
    DonesDistinctIff(dones, all, failed, permanent);
    forall x ensures x in failed && x in permanent <==> Refuses(log, x) && FailedLast(log, x) {
      PermanentMeaning(log, x);
      FailedMeaning(log, x);
    }
  }

  class BatchCollector {
    var entitiesByBlueprint: Batch
    const maxBatchSize: int
    const timeout: nat
    var lastFlush: nat
    var hasErrors: bool

    constructor (maxBatchSize: int, timeout: nat, now: nat)
      ensures this.maxBatchSize == maxBatchSize && this.timeout == timeout && lastFlush == now
      ensures entitiesByBlueprint == map[] && !hasErrors
    {
      this.maxBatchSize, this.timeout, lastFlush := maxBatchSize, timeout, now;
      entitiesByBlueprint, hasErrors := map[], false;
    }

    method AddEntity(entity: EntityRequest, source: Option<WorkItem>)
      modifies this`entitiesByBlueprint
      ensures entitiesByBlueprint == Extended(old(entitiesByBlueprint), Row(entity, source))
    {
      if entity.blueprint !in entitiesByBlueprint {
        entitiesByBlueprint := entitiesByBlueprint[entity.blueprint := []];
      }
      entitiesByBlueprint :=
        entitiesByBlueprint[entity.blueprint := entitiesByBlueprint[entity.blueprint] + [Row(entity, source)]];
    }

    method MarkError()
      modifies this`hasErrors
      ensures hasErrors
    {
      hasErrors := true;
    }

    method HasPending() returns (r: bool)
      ensures r <==> exists bp :: bp in entitiesByBlueprint && entitiesByBlueprint[bp] != []
    {
      var remaining := entitiesByBlueprint.Keys;
      while remaining != {}
        invariant remaining <= entitiesByBlueprint.Keys
        invariant forall bp :: bp in entitiesByBlueprint.Keys - remaining ==> entitiesByBlueprint[bp] == []
        decreases remaining
      {
        var bp :| bp in remaining;
        if |entitiesByBlueprint[bp]| > 0 {
          return true;
        }
        remaining := remaining - {bp};
      }
      return false;
    }

    method ShouldFlush(now: nat) returns (r: bool)
      requires now >= lastFlush
      ensures r <==> EntityCount(entitiesByBlueprint) >= maxBatchSize || now - lastFlush > timeout
    {
      var total := 0;
      var remaining := entitiesByBlueprint;
      while remaining != map[]
        invariant total + EntityCount(remaining) == EntityCount(entitiesByBlueprint)
        decreases remaining.Keys
      {
        var bp :| bp in remaining;
        EntityCountRemove(remaining, bp);
        total := total + |remaining[bp]|;
        remaining := remaining - {bp};
      }
      return total >= maxBatchSize || now - lastFlush > timeout;
    }

    method FallbackToIndividualUpserts(port: PortClient, rows: seq<Row>, t: Tally, ghost log: seq<Event>)
      returns (t': Tally)
      requires t == TallyOf(log)
      modifies port
      ensures t' == TallyOf(log + Fallback(port.server, old(port.calls), rows))
      ensures port.calls == old(port.calls) + |rows|
    {
      t' := t;
      assert log + [] == log;
      for i := 0 to |rows|
        invariant port.calls == old(port.calls) + i
        invariant t' == TallyOf(log + Fallback(port.server, old(port.calls), rows[..i]))
      {
        ghost var before := log + Fallback(port.server, old(port.calls), rows[..i]);
        var stored := port.CreateEntity(rows[i].entity);
        var ev := if stored.Some? then Acked(IdentifierKey(stored.value)) else Retryable(rows[i]);
        t' := t'.Record(ev);
        TallySnoc(before, ev);
        FallbackSnoc(port.server, old(port.calls), rows, i, ev, log);
      }
      assert rows[..|rows|] == rows;
    }

    /** Records a permanent failure of each of the rows the server refused for good. */
    method TrackRefusals(rows: seq<Row>, ids: set<string>, t: Tally, ghost log: seq<Event>) returns (t': Tally)
      requires t == TallyOf(log)
      ensures t' == TallyOf(log + Refusals(rows, ids))
    {
      t' := t;
      assert log + [] == log;
      if ids == {} {
        return;
      }
      for i := 0 to |rows|
        invariant t' == TallyOf(log + Permanents(Named(rows[..i], ids)))
      {
        NamedSnoc(rows, ids, i, log);
        if rows[i].entity.identifier in ids {
          TallySnoc(log + Permanents(Named(rows[..i], ids)), Permanent(rows[i]));
          t' := t'.Record(Permanent(rows[i]));
        }
      }
      assert rows[..|rows|] == rows;
      TallySnoc(log + Permanents(Named(rows, ids)), Tainted);
      t' := t'.Record(Tainted);
      assert log + Refusals(rows, ids) == log + Permanents(Named(rows, ids)) + [Tainted];
    }

    method TrackRefusedChunk(rows: seq<Row>, t: Tally, ghost log: seq<Event>) returns (t': Tally)
      requires t == TallyOf(log)
      ensures t' == TallyOf(log + (Permanents(rows) + [Tainted]))
    {
      t' := t;
      assert log + [] == log;
      for i := 0 to |rows|
        invariant t' == TallyOf(log + Permanents(rows[..i]))
      {
        ghost var before := log + Permanents(rows[..i]);
        t' := t'.Record(Permanent(rows[i]));
        TallySnoc(before, Permanent(rows[i]));
        assert rows[..i + 1][..i] == rows[..i];
        assert log + Permanents(rows[..i + 1]) == before + [Permanent(rows[i])];
      }
      assert rows[..|rows|] == rows;
      TallySnoc(log + Permanents(rows), Tainted);
      t' := t'.Record(Tainted);
      assert log + (Permanents(rows) + [Tainted]) == log + Permanents(rows) + [Tainted];
    }

    method RecordAcks(blueprint: string, ids: seq<string>, t: Tally, ghost log: seq<Event>) returns (t': Tally)
      requires t == TallyOf(log)
      ensures t' == TallyOf(log + Acks(blueprint, ids))
    {
      t' := t;
      assert log + [] == log;
      for i := 0 to |ids|
        invariant t' == TallyOf(log + Acks(blueprint, ids[..i]))
      {
        ghost var before := log + Acks(blueprint, ids[..i]);
        var ev := Acked(IdentifierKey(Entity(ids[i], blueprint)));
        t' := t'.Record(ev);
        TallySnoc(before, ev);
        assert ids[..i + 1][..i] == ids[..i];
        assert log + Acks(blueprint, ids[..i + 1]) == before + [ev];
      }
      assert ids[..|ids|] == ids;
    }

    /** Records an accepted bulk request: acknowledgements first, then the refused entities, then single upserts. */
    method RecordReply(port: PortClient, chunk: Chunk, ids: seq<string>, errors: seq<BulkError>, t: Tally,
                       ghost log: seq<Event>)
      returns (t': Tally)
      requires t == TallyOf(log) && errors != []
      modifies port
      ensures var again := Named(chunk.rows, ErrorIds(errors, false));
              && t' == TallyOf(log + (Acks(chunk.blueprint, ids)
                                      + Refusals(chunk.rows, ErrorIds(errors, true))
                                      + Fallback(port.server, old(port.calls), again)))
              && port.calls == old(port.calls) + |again|
    {
      var gone, again := ErrorIds(errors, true), Named(chunk.rows, ErrorIds(errors, false));
      ghost var acked, refused := Acks(chunk.blueprint, ids), Refusals(chunk.rows, gone);
      ghost var retried := Fallback(port.server, port.calls, again);
      t' := RecordAcks(chunk.blueprint, ids, t, log);
      t' := TrackRefusals(chunk.rows, gone, t', log + acked);
      t' := FallbackToIndividualUpserts(port, again, t', log + acked + refused);
      ConcatThree(log, acked, refused, retried);
    }

    /** Sends one chunk and records its answers. */
    method SendChunk(port: PortClient, chunk: Chunk, t: Tally, ghost log: seq<Event>) returns (t': Tally)
      requires t == TallyOf(log)
      modifies port
      ensures t' == TallyOf(log + ChunkEvents(port.server, old(port.calls), chunk).0)
      ensures port.calls == ChunkEvents(port.server, old(port.calls), chunk).1
    {
      var reply := port.BulkUpsertEntities(chunk.blueprint, EntitiesOf(chunk.rows));
      if !reply.Replied? {
        if reply.NonRetryable() {
          t' := TrackRefusedChunk(chunk.rows, t, log);
        } else {
          t' := FallbackToIndividualUpserts(port, chunk.rows, t, log);
        }
      } else if |reply.errors| > 0 {
        t' := RecordReply(port, chunk, reply.entities, reply.errors, t, log);
      } else {
        t' := RecordAcks(chunk.blueprint, reply.entities, t, log);
      }
    }

    method CompleteWorkItem(wq: WorkQueue, source: Option<WorkItem>)
      modifies wq
      ensures source.None? ==> wq.st == old(wq.st) && wq.dones == old(wq.dones)
      ensures source.Some? ==> wq.st == old(wq.st).Done(source.value).Forget(source.value)
      ensures source.Some? ==> wq.dones == old(wq.dones) + [source.value]
    {
      if source.None? {
        return;
      }
      wq.Done(source.value);
      wq.Forget(source.value);
    }

    method CompleteSuccessfulWorkItems(wq: WorkQueue, all: set<WorkItem>, failed: set<WorkItem>,
                                       permanent: set<WorkItem>)
      returns (ghost order: seq<WorkItem>)
      modifies wq
      ensures IsOrderOf(order, all - failed - permanent)
      ensures wq.st == CompleteEach(old(wq.st), order) && wq.dones == old(wq.dones) + order
    {
      var remaining := all;
      ghost var done: set<WorkItem> := {};
      order := [];
      while remaining != {}
        invariant remaining <= all && done == all - remaining - failed - permanent && IsOrderOf(order, done)
        invariant wq.st == CompleteEach(old(wq.st), order) && wq.dones == old(wq.dones) + order
        decreases remaining
      {
        var x :| x in remaining;
        remaining := remaining - {x};
        if x in failed || x in permanent {
          continue;
        }
        CompleteWorkItem(wq, Some(x));
        OrderOneMore(order, done, x);
        CompleteEachSnoc(old(wq.st), order, x);
        order, done := order + [x], done + {x};
      }
    }

    method CompletePermanentFailures(wq: WorkQueue, permanent: set<WorkItem>) returns (ghost order: seq<WorkItem>)
      modifies wq
      ensures IsOrderOf(order, permanent)
      ensures wq.st == CompleteEach(old(wq.st), order) && wq.dones == old(wq.dones) + order
    {
      var remaining := permanent;
      ghost var done: set<WorkItem> := {};
      order := [];
      while remaining != {}
        invariant remaining == permanent - done && done <= permanent && IsOrderOf(order, done)
        invariant wq.st == CompleteEach(old(wq.st), order) && wq.dones == old(wq.dones) + order
        decreases remaining
      {
        var x :| x in remaining;
        CompleteWorkItem(wq, Some(x));
        OrderOneMore(order, done, x);
        CompleteEachSnoc(old(wq.st), order, x);
        order, done := order + [x], done + {x};
        remaining := remaining - {x};
      }
      assert done == permanent;
    }

    method RequeueOrGiveUp(wq: WorkQueue, x: WorkItem, allowRequeue: bool) returns (back: bool)
      modifies wq
      ensures back <==> allowRequeue && old(wq.st).NumRequeues(x) < MAX_NUM_REQUEUES
      ensures wq.st == RetryOne(old(wq.st), x, allowRequeue)
      ensures wq.dones == old(wq.dones) + [x]
    {
      if !allowRequeue || wq.st.NumRequeues(x) >= MAX_NUM_REQUEUES {
        CompleteWorkItem(wq, Some(x));
        return false;
      }
      wq.Done(x);
      wq.AddRateLimited(x);
      return true;
    }

    method RequeueFailedWorkItems(wq: WorkQueue, failed: set<WorkItem>, allowRequeue: bool)
      returns (count: nat, ghost order: seq<WorkItem>)
      modifies wq
      ensures IsOrderOf(order, failed)
      ensures (wq.st, count) == RetryEach(old(wq.st), order, allowRequeue) && wq.dones == old(wq.dones) + order
    {
      count, order := 0, [];
      var remaining := failed;
      ghost var done: set<WorkItem> := {};
      while remaining != {}
        invariant remaining == failed - done && done <= failed && IsOrderOf(order, done)
        invariant (wq.st, count) == RetryEach(old(wq.st), order, allowRequeue) && wq.dones == old(wq.dones) + order
        decreases remaining
      {
        var x :| x in remaining;
        remaining := remaining - {x};
        OrderOneMore(order, done, x);
        RetryEachSnoc(old(wq.st), order, x, allowRequeue);
        order, done := order + [x], done + {x};
        var back := RequeueOrGiveUp(wq, x, allowRequeue);
        if back {
          count := count + 1;
        }
      }
      assert done == failed;
    }

    /** Finishes, puts back or gives up each work item of a flush. `dones` lists the calls of `Done` it makes. */
    method SettleWorkItems(wq: WorkQueue, all: set<WorkItem>, t: Tally, allowRequeue: bool)
      returns (requeued: nat, ghost dones: DoneCalls)
      modifies wq
      ensures (wq.st, requeued) == SettleEach(old(wq.st), dones, allowRequeue)
      ensures dones.For(all, t.failed, t.permanent) && wq.dones == old(wq.dones) + dones.All()
      // in whatever orders the three maps were iterated
      ensures SameButQueue(Settled(old(wq.st), all, t.failed, t.permanent, allowRequeue), wq.st,
                           all + t.failed + t.permanent)
      ensures requeued == |Requeued(old(wq.st), t.failed, allowRequeue)|
    {
      ghost var succeeded := CompleteSuccessfulWorkItems(wq, all, t.failed, t.permanent);
      ghost var retried;
      requeued, retried := RequeueFailedWorkItems(wq, t.failed, allowRequeue);
      ghost var refused := CompletePermanentFailures(wq, t.permanent);
      dones := DoneCalls(succeeded, retried, refused);
      assert old(wq.dones) + succeeded + retried + refused == old(wq.dones) + dones.All();
      SettleEachSettles(old(wq.st), dones, all, t.failed, t.permanent, allowRequeue);
    }

    /** Sends the whole batch, blueprint by blueprint, in an order nobody controls; `order` records it. */
    method SendBatch(port: PortClient, limits: BulkLimits) returns (t: Tally, ghost order: seq<string>)
      modifies port
      ensures IsOrderOf(order, entitiesByBlueprint.Keys)
      ensures port.calls == LogOf(port.server, old(port.calls), Chunked(order, entitiesByBlueprint, limits)).1
      ensures t == TallyOf(LogOf(port.server, old(port.calls), Chunked(order, entitiesByBlueprint, limits)).0)
    {
      var batch := entitiesByBlueprint;
      var remaining := batch.Keys;
      ghost var log := [];
      t, order := EMPTY_TALLY, [];
      while remaining != {}
        invariant remaining <= batch.Keys
        invariant IsOrderOf(order, batch.Keys - remaining)
        invariant (log, port.calls) == LogOf(port.server, old(port.calls), Chunked(order, batch, limits))
        invariant t == TallyOf(log)
        decreases remaining
      {
        var blueprint :| blueprint in remaining;
        remaining := remaining - {blueprint};
        ghost var sent := Chunked(order, batch, limits);
        OrderOneMore(order, batch.Keys - remaining - {blueprint}, blueprint);
        assert batch.Keys - remaining == batch.Keys - remaining - {blueprint} + {blueprint};
        order := order + [blueprint];
        assert order[..|order| - 1] + [blueprint] == order;
        t, log := SendBlueprint(port, blueprint, batch[blueprint], limits, t, old(port.calls), sent, log);
      }
      assert batch.Keys - remaining == batch.Keys;
    }

    /** One flush. `forgotten` lists the items that it puts back and whose failure count it then drops. */
    method ProcessBatch(port: PortClient, wq: WorkQueue, limits: BulkLimits, now: nat, allowRequeue: bool)
      returns (r: SyncResult, forgotten: set<WorkItem>, ghost order: seq<string>, ghost dones: DoneCalls)
      modifies this`entitiesByBlueprint, this`lastFlush, port, wq
      ensures IsOrderOf(order, old(entitiesByBlueprint).Keys)
      ensures var log := LogOf(port.server, old(port.calls), Chunked(order, old(entitiesByBlueprint), limits));
              var t := TallyOf(log.0);
              var all := BatchSources(old(entitiesByBlueprint));
              && port.calls == log.1
              && dones.For(all, t.failed, t.permanent)
              && (wq.st, r.requeued) == SettleEach(old(wq.st), dones, allowRequeue)
              && forgotten == Requeued(old(wq.st), t.failed, allowRequeue) * t.permanent
              && r.entities == t.acked && r.shouldDelete == (!hasErrors && t.clean)
      ensures wq.dones == old(wq.dones) + dones.All()
      ensures entitiesByBlueprint == map[] && lastFlush == now
    {
      if entitiesByBlueprint == map[] {
        lastFlush := now;
        r, forgotten, order, dones := SyncResult({}, !hasErrors, 0), {}, [], DoneCalls([], [], []);
        return;
      }
      var all := BatchSources(entitiesByBlueprint);
      var t;
      t, order := SendBatch(port, limits);
      entitiesByBlueprint := map[];
      lastFlush := now;
      forgotten := Requeued(wq.st, t.failed, allowRequeue) * t.permanent;
      var requeued;
      requeued, dones := SettleWorkItems(wq, all, t, allowRequeue);
      r := SyncResult(t.acked, !hasErrors && t.clean, requeued);
    }

    /** Sends one blueprint's rows in chunks, after the chunks in `sent`. */
    method SendBlueprint(port: PortClient, blueprint: string, rows: seq<Row>, limits: BulkLimits, t: Tally,
                         ghost calls: nat, ghost sent: seq<Chunk>, ghost log: seq<Event>)
      returns (t': Tally, ghost log': seq<Event>)
      requires (log, port.calls) == LogOf(port.server, calls, sent) && t == TallyOf(log)
      modifies port
      ensures (log', port.calls)
           == LogOf(port.server, calls, sent + SplitRows(blueprint, rows, BulkSize(limits, EntitiesOf(rows))))
      ensures t' == TallyOf(log')
    {
      t', log' := t, log;
      var size := CalculateBulkSize(limits, EntitiesOf(rows));
      var i := 0;
      ghost var chunks := sent;
      ghost var whole := sent + SplitRows(blueprint, rows, size);
      while i < |rows|
        invariant 0 <= i <= |rows|
        invariant chunks + SplitRows(blueprint, rows[i..], size) == whole
        invariant (log', port.calls) == LogOf(port.server, calls, chunks)
        invariant t' == TallyOf(log')
      {
        var end := Min(i + size, |rows|);
        var chunk := Chunk(blueprint, rows[i..end]);
        SplitRowsStep(chunks, blueprint, rows, size, i);
        ghost var events := ChunkEvents(port.server, port.calls, chunk).0;
        t' := SendChunk(port, chunk, t', log');
        log' := log' + events;
        LogSnoc(port.server, calls, chunks, chunk);
        chunks := chunks + [chunk];
        i := end;
      }
      assert rows[i..] == [] && chunks + [] == chunks;
    }
  }

  lemma SplitRowsStep(chunks: seq<Chunk>, blueprint: string, rows: seq<Row>, size: nat, i: nat)
    requires size > 0 && i < |rows|
    ensures var end := Min(i + size, |rows|);
            chunks + SplitRows(blueprint, rows[i..], size)
            == chunks + [Chunk(blueprint, rows[i..end])] + SplitRows(blueprint, rows[end..], size)
  {
    var end := Min(i + size, |rows|);
    if end == |rows| {
      assert rows[i..end] == rows[i..] && rows[end..] == [];
    } else {
      assert rows[i..][..size] == rows[i..end] && rows[i..][size..] == rows[end..];
    }
  }

  lemma ConcatThree<T>(s: seq<T>, a: seq<T>, b: seq<T>, c: seq<T>)
    ensures s + (a + b + c) == s + a + b + c
  {
  }

  lemma FallbackSnoc(server: Server, n: nat, rows: seq<Row>, i: nat, ev: Event, log: seq<Event>)
    requires i < |rows|
    requires ev == if server.upsert(n + i, rows[i].entity).Some?
                   then Acked(IdentifierKey(server.upsert(n + i, rows[i].entity).value)) else Retryable(rows[i])
    ensures log + Fallback(server, n, rows[..i + 1]) == log + Fallback(server, n, rows[..i]) + [ev]
  {
    assert rows[..i + 1][..i] == rows[..i] && rows[..i + 1][i] == rows[i];
    assert Fallback(server, n, rows[..i + 1]) == Fallback(server, n, rows[..i]) + [ev];
  }

  lemma NamedSnoc(rows: seq<Row>, ids: set<string>, i: nat, log: seq<Event>)
    requires i < |rows|
    ensures rows[i].entity.identifier in ids ==>
              log + Permanents(Named(rows[..i + 1], ids))
              == log + Permanents(Named(rows[..i], ids)) + [Permanent(rows[i])]
    ensures rows[i].entity.identifier !in ids ==> Named(rows[..i + 1], ids) == Named(rows[..i], ids)
  {
    assert rows[..i + 1][..i] == rows[..i] && rows[..i + 1][i] == rows[i];
    var named := Named(rows[..i], ids);
    if rows[i].entity.identifier in ids {
      assert Named(rows[..i + 1], ids) == named + [rows[i]];
      assert (named + [rows[i]])[..|named|] == named;
    } else {
      assert Named(rows[..i + 1], ids) == named;
    }
  }

  lemma LogSnoc(server: Server, n: nat, chunks: seq<Chunk>, chunk: Chunk)
    ensures var before := LogOf(server, n, chunks);
            var last := ChunkEvents(server, before.1, chunk);
            LogOf(server, n, chunks + [chunk]) == (before.0 + last.0, last.1)
  {
    assert (chunks + [chunk])[..|chunks|] == chunks;
  }

  ghost function EntityCount(batch: Batch): nat {
    if batch == map[] then 0 else
    var bp :| bp in batch;
    |batch[bp]| + EntityCount(batch - {bp})
  }

  lemma {:induction false} EntityCountRemove(batch: Batch, bp: string)
    requires bp in batch
    ensures EntityCount(batch) == |batch[bp]| + EntityCount(batch - {bp})
    decreases batch.Keys
  {
    var first :| first in batch && EntityCount(batch) == |batch[first]| + EntityCount(batch - {first});
    if first != bp {
      EntityCountRemove(batch - {first}, bp);
      EntityCountRemove(batch - {bp}, first);
      assert batch - {first} - {bp} == batch - {bp} - {first};
    }
  }

  /** Finishing items one after the other. */
  function CompleteEach(q: QueueState, order: seq<WorkItem>): QueueState {
    if order == [] then q
    else CompleteEach(q, order[..|order| - 1]).Done(order[|order| - 1]).Forget(order[|order| - 1])
  }

  lemma CompleteEachSnoc(q: QueueState, order: seq<WorkItem>, x: WorkItem)
    ensures CompleteEach(q, order + [x]) == CompleteEach(q, order).Done(x).Forget(x)
  {
    assert (order + [x])[..|order|] == order;
  }

  lemma {:induction false} CompleteEachCompletes(q: QueueState, order: seq<WorkItem>, items: set<WorkItem>)
    requires IsOrderOf(order, items)
    ensures SameButQueue(Completed(q, items), CompleteEach(q, order), items)
  {
    if order == [] {
      assert items == {};
      assert Completed(q, {}).failures == q.failures;
    } else {
      var k := |order| - 1;
      var x := order[k];
      assert items == items - {x} + {x};
      CompleteEachCompletes(q, order[..k], items - {x});
      assert q.failures - (items - {x}) - {x} == q.failures - items;
    }
  }

  lemma SettledNothing(q: QueueState, allowRequeue: bool)
    ensures Settled(q, {}, {}, {}, allowRequeue) == q
  {
    assert Settled(q, {}, {}, {}, allowRequeue).failures == q.failures;
  }

  lemma RequeuedOneMore(q: QueueState, seen: set<WorkItem>, x: WorkItem, allowRequeue: bool)
    ensures Requeued(q, seen + {x}, allowRequeue)
         == Requeued(q, seen, allowRequeue) + if allowRequeue && q.NumRequeues(x) < MAX_NUM_REQUEUES then {x} else {}
  {
  }

  /** Settling one more failed item: put back with one more failure counted. */
  lemma SettledOneBack(q: QueueState, seen: set<WorkItem>, x: WorkItem)
    requires x !in seen && q.NumRequeues(x) < MAX_NUM_REQUEUES
    ensures Settled(q, {}, seen + {x}, {}, true).(queue := [])
         == Settled(q, {}, seen, {}, true).Done(x).AddRateLimited(x).(queue := [])
  {
    var before, after := Settled(q, {}, seen, {}, true), Settled(q, {}, seen + {x}, {}, true);
    RequeuedOneMore(q, seen, x, true);
    assert after.failures == before.failures[x := q.NumRequeues(x) + 1];
    assert after.processing == before.processing - {x};
  }

  /** Settling one more failed item: finished for good. */
  lemma SettledOneGivenUp(q: QueueState, seen: set<WorkItem>, x: WorkItem, allowRequeue: bool)
    requires x !in seen && !(allowRequeue && q.NumRequeues(x) < MAX_NUM_REQUEUES)
    ensures Settled(q, {}, seen + {x}, {}, allowRequeue).(queue := [])
         == Settled(q, {}, seen, {}, allowRequeue).Done(x).Forget(x).(queue := [])
  {
    var before, after := Settled(q, {}, seen, {}, allowRequeue), Settled(q, {}, seen + {x}, {}, allowRequeue);
    RequeuedOneMore(q, seen, x, allowRequeue);
    assert after.failures == before.failures - {x};
    assert after.processing == before.processing - {x};
  }

  lemma SettledOneMore(q: QueueState, seen: set<WorkItem>, x: WorkItem, allowRequeue: bool)
    requires x !in seen
    ensures Settled(q, {}, seen, {}, allowRequeue).NumRequeues(x) == q.NumRequeues(x)
    ensures allowRequeue && q.NumRequeues(x) < MAX_NUM_REQUEUES ==>
              && Settled(q, {}, seen + {x}, {}, allowRequeue).(queue := [])
                 == Settled(q, {}, seen, {}, allowRequeue).Done(x).AddRateLimited(x).(queue := [])
              && Requeued(q, seen + {x}, allowRequeue) == Requeued(q, seen, allowRequeue) + {x}
              && x !in Requeued(q, seen, allowRequeue)
    ensures !(allowRequeue && q.NumRequeues(x) < MAX_NUM_REQUEUES) ==>
              && Settled(q, {}, seen + {x}, {}, allowRequeue).(queue := [])
                 == Settled(q, {}, seen, {}, allowRequeue).Done(x).Forget(x).(queue := [])
              && Requeued(q, seen + {x}, allowRequeue) == Requeued(q, seen, allowRequeue)
  {
    RequeuedOneMore(q, seen, x, allowRequeue);
    if allowRequeue && q.NumRequeues(x) < MAX_NUM_REQUEUES {
      SettledOneBack(q, seen, x);
    } else {
      SettledOneGivenUp(q, seen, x, allowRequeue);
    }
  }

  function RetryOne(q: QueueState, x: WorkItem, allowRequeue: bool): QueueState {
    if allowRequeue && q.NumRequeues(x) < MAX_NUM_REQUEUES then q.Done(x).AddRateLimited(x) else q.Done(x).Forget(x)
  }

  /** Dealing with failed items one after the other: the queue left, and how many were put back. */
  function RetryEach(q: QueueState, order: seq<WorkItem>, allowRequeue: bool): (QueueState, nat) {
    if order == [] then (q, 0)
    else
      var x := order[|order| - 1];
      var (before, count) := RetryEach(q, order[..|order| - 1], allowRequeue);
      (RetryOne(before, x, allowRequeue),
       if allowRequeue && before.NumRequeues(x) < MAX_NUM_REQUEUES then count + 1 else count)
  }

  lemma RetryEachSnoc(q: QueueState, order: seq<WorkItem>, x: WorkItem, allowRequeue: bool)
    ensures var (before, count) := RetryEach(q, order, allowRequeue);
            RetryEach(q, order + [x], allowRequeue)
            == (RetryOne(before, x, allowRequeue),
                if allowRequeue && before.NumRequeues(x) < MAX_NUM_REQUEUES then count + 1 else count)
  {
    assert (order + [x])[..|order|] == order;
  }

  lemma {:induction false} RetryEachQueue(q: QueueState, order: seq<WorkItem>, failed: set<WorkItem>,
                                          allowRequeue: bool)
    requires IsOrderOf(order, failed)
    ensures SameButQueue(Settled(q, {}, failed, {}, allowRequeue), RetryEach(q, order, allowRequeue).0, failed)
  {
    if order == [] {
      assert failed == {};
      SettledNothing(q, allowRequeue);
    } else {
      var k := |order| - 1;
      var x := order[k];
      var seen := failed - {x};
      assert seen + {x} == failed;
      RetryEachQueue(q, order[..k], seen, allowRequeue);
      SettledOneMore(q, seen, x, allowRequeue);
      SameAfterStep(Settled(q, {}, seen, {}, allowRequeue), RetryEach(q, order[..k], allowRequeue).0, seen, x);
    }
  }

  lemma {:induction false} RetryEachCounts(q: QueueState, order: seq<WorkItem>, failed: set<WorkItem>,
                                           allowRequeue: bool)
    requires IsOrderOf(order, failed)
    ensures RetryEach(q, order, allowRequeue).1 == |Requeued(q, failed, allowRequeue)|
  {
    if order == [] {
      assert failed == {} && Requeued(q, failed, allowRequeue) == {};
    } else {
      var k := |order| - 1;
      var x := order[k];
      var seen := failed - {x};
      assert seen + {x} == failed;
      RetryEachCounts(q, order[..k], seen, allowRequeue);
      RetryEachQueue(q, order[..k], seen, allowRequeue);
      SettledOneMore(q, seen, x, allowRequeue);
      assert RetryEach(q, order[..k], allowRequeue).0.NumRequeues(x) == q.NumRequeues(x);
    }
  }

  lemma RetryEachSettles(q: QueueState, order: seq<WorkItem>, failed: set<WorkItem>, allowRequeue: bool)
    requires IsOrderOf(order, failed)
    ensures SameButQueue(Settled(q, {}, failed, {}, allowRequeue), RetryEach(q, order, allowRequeue).0, failed)
    ensures RetryEach(q, order, allowRequeue).1 == |Requeued(q, failed, allowRequeue)|
  {
    RetryEachQueue(q, order, failed, allowRequeue);
    RetryEachCounts(q, order, failed, allowRequeue);
  }

  /** A step on queues that agree up to what was appended leaves queues that agree up to what is appended. */
  lemma SameAfterStep(q: QueueState, q': QueueState, touched: set<WorkItem>, x: WorkItem)
    requires SameButQueue(q, q', touched)
    ensures q.NumRequeues(x) == q'.NumRequeues(x)
    ensures forall r: QueueState :: r.(queue := []) == q.Done(x).Forget(x).(queue := []) && r.queue == q.queue
              ==> SameButQueue(r, q'.Done(x).Forget(x), touched + {x})
    ensures forall r: QueueState :: r.(queue := []) == q.Done(x).AddRateLimited(x).(queue := []) && r.queue == q.queue
              ==> SameButQueue(r, q'.Done(x).AddRateLimited(x), touched + {x})
  {
  }

  /** The three completion loops of a flush, in the order their maps happen to be iterated. */
  function SettleEach(q: QueueState, dones: DoneCalls, allowRequeue: bool): (QueueState, nat) {
    var (q2, requeued) := RetryEach(CompleteEach(q, dones.succeeded), dones.retried, allowRequeue);
    (CompleteEach(q2, dones.refused), requeued)
  }

  /** Iteration order does not matter: every order leaves the same queue, and requeues the failed items that have
      retries left. */
  lemma SettleEachSettles(q: QueueState, dones: DoneCalls, all: set<WorkItem>, failed: set<WorkItem>,
                          permanent: set<WorkItem>, allowRequeue: bool)
    requires dones.For(all, failed, permanent)
    ensures SameButQueue(Settled(q, all, failed, permanent, allowRequeue), SettleEach(q, dones, allowRequeue).0,
                         all + failed + permanent)
    ensures SettleEach(q, dones, allowRequeue).1 == |Requeued(q, failed, allowRequeue)|
  {
    var q1 := CompleteEach(q, dones.succeeded);
    var (q2, requeued) := RetryEach(q1, dones.retried, allowRequeue);
    CompleteEachCompletes(q, dones.succeeded, all - failed - permanent);
    RetryEachSettles(q1, dones.retried, failed, allowRequeue);
    CompleteEachCompletes(q2, dones.refused, permanent);
    SettleInThreeSteps(q, all, failed, permanent, allowRequeue, q1, q2, CompleteEach(q2, dones.refused));
  }

  /** Items finished without a failure are not among the failed ones, so they do not change who is put back. */
  lemma RequeuedAfterCompleted(q: QueueState, rest: set<WorkItem>, failed: set<WorkItem>, allowRequeue: bool)
    requires rest !! failed
    ensures Requeued(Completed(q, rest), failed, allowRequeue) == Requeued(q, failed, allowRequeue)
  {
    forall x | x in failed ensures Completed(q, rest).NumRequeues(x) == q.NumRequeues(x) {
      assert x in q.failures - rest <==> x in q.failures;
    }
  }

  lemma CountInThreeSteps(q: QueueState, all: set<WorkItem>, failed: set<WorkItem>, permanent: set<WorkItem>,
                          allowRequeue: bool, q1: QueueState, x: WorkItem)
    requires q1.failures == q.failures - (all - failed - permanent)
    requires Requeued(q1, failed, allowRequeue) == Requeued(q, failed, allowRequeue)
    ensures var stepped := Settled(q1, {}, failed, {}, allowRequeue).failures - permanent;
            var settled := Settled(q, all, failed, permanent, allowRequeue).failures;
            (x in stepped <==> x in settled) && (x in stepped ==> stepped[x] == settled[x])
  {
    assert x in q1.failures <==> x in q.failures && x !in all - failed - permanent;
  }

  lemma SettleInThreeSteps(q: QueueState, all: set<WorkItem>, failed: set<WorkItem>, permanent: set<WorkItem>,
                           allowRequeue: bool, q1: QueueState, q2: QueueState, q3: QueueState)
    requires SameButQueue(Completed(q, all - failed - permanent), q1, all - failed - permanent)
    requires SameButQueue(Settled(q1, {}, failed, {}, allowRequeue), q2, failed)
    requires SameButQueue(Completed(q2, permanent), q3, permanent)
    ensures SameButQueue(Settled(q, all, failed, permanent, allowRequeue), q3, all + failed + permanent)
    ensures Requeued(q1, failed, allowRequeue) == Requeued(q, failed, allowRequeue)
  {
    var rest := all - failed - permanent;
    RequeuedAfterCompleted(q, rest, failed, allowRequeue);
    assert Requeued(q1, failed, allowRequeue) == Requeued(q, failed, allowRequeue);
    var settled := Settled(q, all, failed, permanent, allowRequeue);
    assert q3.failures == settled.failures by {
      var stepped := Settled(q1, {}, failed, {}, allowRequeue).failures;
      assert q3.failures == stepped - permanent;
      forall x ensures (x in q3.failures <==> x in settled.failures)
                    && (x in q3.failures ==> q3.failures[x] == settled.failures[x]) {
        CountInThreeSteps(q, all, failed, permanent, allowRequeue, q1, x);
      }
    }
    assert q3.processing == settled.processing by {
      assert q3.processing == q.processing - rest - ({} + failed + {}) - permanent;
    }
  }
}
