/** Inputs on which the initial sync does not do what its callers rely on, each next to the condition it violates. */
module Findings {
  import opened Basics
  import opened PortApi
  import opened WorkQueues
  import opened FlushLog
  import opened BatchCollectors
  import opened SyncStates
  import opened SyncCoverage
  import opened InitialSync

  /** Two entities of one work item, the first refused for good and the second failing for now, in one accepted bulk
      request: the item is in both failure maps when the flush settles its items. */
  lemma MixedFailuresClash(server: Server, n: nat, x: WorkItem, gone: EntityRequest, again: EntityRequest, code: int)
    requires gone.blueprint == again.blueprint && gone.identifier != again.identifier
    requires server.bulk(n, gone.blueprint, [gone, again])
          == Response(207, [], [BulkError(gone.identifier, 422), BulkError(again.identifier, code)])
    requires !IsNonRetryableStatusCode(code)
    requires server.upsert(n + 1, again).None?
    ensures var chunk := Chunk(gone.blueprint, [Row(gone, Some(x)), Row(again, Some(x))]);
            x in Clashes(TallyOf(LogOf(server, n, [chunk]).0))
  {
    var first, second := Row(gone, Some(x)), Row(again, Some(x));
    var rows := [first, second];
    var chunk := Chunk(gone.blueprint, rows);
    var errors := [BulkError(gone.identifier, 422), BulkError(again.identifier, code)];
    assert EntitiesOf(rows) == [gone, again];
    assert errors[0] in errors && errors[1] in errors;
    assert ErrorIds(errors, true) == {gone.identifier} && ErrorIds(errors, false) == {again.identifier};
    assert rows[..1] == [first] && [first][..0] == [];
    assert Named([first], {gone.identifier}) == [] + [first];
    assert Named([first], {again.identifier}) == [] + [];
    assert Named(rows, {gone.identifier}) == [first] + [];
    assert Named(rows, {again.identifier}) == [] + [second];
    assert Permanents([first]) == [] + [Permanent(first)] by { assert [first][..0] == []; }
    assert Fallback(server, n + 1, [second]) == [] + [Retryable(second)] by { assert [second][..0] == []; }
    var log := [Permanent(first), Tainted, Retryable(second)];
    assert ChunkEvents(server, n, chunk).0 == log;
    assert [chunk][..0] == [];
    assert LogOf(server, n, [chunk]).0 == [] + log == log;
    assert RefusedFor(log[0], x) && FailsFor(log[2], x) && RefusedThenFails(log, x, 0, 2);
    ClashMeaning(log, x);
  }

  /** A flush in which an item with retries left clashes leaves the loop's counter above the number of failures that the
      rate limiter remembers; a flush without such an item keeps them equal. */
  lemma CounterExactIffNoClash(s: Sync, failed: set<WorkItem>, permanent: set<WorkItem>)
    requires Inv(s) && s.clashes == 0 && failed + permanent <= s.deferred
    ensures var s' := Flushed(s, failed, permanent);
            s'.counter == |s'.w.q.failures.Keys|
            <==> forall x :: x in failed && x in permanent ==> s.w.q.NumRequeues(x) >= MAX_NUM_REQUEUES
  {
    var s' := Flushed(s, failed, permanent);
    FlushedKeepsInv(s, failed, permanent);
    var both := Requeued(s.w.q, failed, true) * permanent;
    assert s'.w.q.failures.Keys - {} == s'.w.q.failures.Keys;
    if x :| x in failed && x in permanent && s.w.q.NumRequeues(x) < MAX_NUM_REQUEUES {
      assert x in both;
      assert |both| > 0;
    } else {
      assert both == {};
    }
  }

  /** An accepted bulk reply without errors stores exactly the entities it names: the flush counts as clean in any case,
      so an entity that the reply leaves out is taken for stored. */
  lemma UnnamedEntityIsLost(server: Server, n: nat, chunk: Chunk, ids: seq<string>, e: EntityRequest)
    requires 1 <= |chunk.rows| <= MAX_BULK_ENTITIES && e.blueprint == chunk.blueprint
    requires server.bulk(n, chunk.blueprint, EntitiesOf(chunk.rows)) == Response(200, ids, [])
    ensures var t := TallyOf(LogOf(server, n, [chunk]).0);
            && t.clean
            && (RequestKey(e) in t.acked <==> e.identifier in ids)
  {
    var log := Acks(chunk.blueprint, ids);
    assert [chunk][..0] == [];
    assert LogOf(server, n, [chunk]).0 == [] + log == log;
    AcksMembers(chunk.blueprint, ids);
    TallyMeaning(log);
    forall id | id in ids && IdentifierKey(Entity(id, chunk.blueprint)) == RequestKey(e) ensures id == e.identifier {
      KeySuffix(chunk.blueprint, id, e.identifier);
    }
  }

  lemma KeySuffix(blueprint: string, a: string, b: string)
    requires IdentifierKey(Entity(a, blueprint)) == IdentifierKey(Entity(b, blueprint))
    ensures a == b
  {
    var k := |blueprint| + 1;
    assert IdentifierKey(Entity(a, blueprint))[k..] == a && IdentifierKey(Entity(b, blueprint))[k..] == b;
  }

  /** An item whose lookups keep failing is given up without marking an error; one whose mapping keeps failing is given
      up, too, but makes the deletion of stale entities unsafe. */
  lemma GivingUpOnLookupsIsSilent(q: QueueState, p: Progress, x: WorkItem)
    requires x.EventItem? && q.NumRequeues(x) >= MAX_NUM_REQUEUES
    ensures FateOf(q, x, LookupFailed).Complete? && Absorb(p, q, x, LookupFailed) == p.(pulled := p.pulled + [x])
    ensures FateOf(q, x, TransformFailed).Complete? && !Absorb(p, q, x, TransformFailed).ok
  {
  }

  /** The loop's guard can say idle while the poller has taken an item from the queue and not yet published it. */
  lemma GuardMissesHeldItem(x: WorkItem)
    ensures var w := World(QueueState([x], {x}, {}, {}, map[], false), None, None, {}, true);
            var mid := Sync(EnvRun(w, [TakeOne]), {}, 0, 0);
            && Inv(mid) && mid.counter == 0 && mid.w.q.queue == []
            && EnvRun(mid.w, []).synced && EnvRun(mid.w, []).slot.None?
            && Outstanding(EnvRun(mid.w, []).q, x)
  {
    var w := World(QueueState([x], {x}, {}, {}, map[], false), None, None, {}, true);
    var s := Sync(w, {}, 0, 0);
    assert w.q.failures.Keys - s.deferred == {};
    forall y ensures ItemOK(s, y) {
    }
    assert [TakeOne][..0] == [];
    EnvRunKeepsInv(s, [TakeOne]);
  }

  /** It can also say idle with an item in the queue that the informer added after the queue's length was read. */
  lemma GuardMissesLateItem(x: WorkItem)
    ensures var mid := Sync(World(QueueState([], {}, {}, {}, map[], false), None, None, {x}, false), {}, 0, 0);
            var acts := [Arrive(x), MarkSynced];
            && Inv(mid) && mid.counter == 0 && mid.w.q.queue == []
            && EnvRun(mid.w, acts).synced && EnvRun(mid.w, acts).slot.None?
            && EnvRun(mid.w, acts).q.queue == [x]
  {
    var mid := Sync(World(QueueState([], {}, {}, {}, map[], false), None, None, {x}, false), {}, 0, 0);
    assert mid.w.q.failures.Keys - mid.deferred == {};
    forall y ensures ItemOK(mid, y) {
    }
    var acts := [Arrive(x), MarkSynced];
    assert acts[..1] == [Arrive(x)] && [Arrive(x)][..0] == [];
    var w := EnvStep(mid.w, Arrive(x));
    assert w.unarrived == {} && w.q.queue == [x];
    assert EnvRun(mid.w, [Arrive(x)]) == w;
    assert EnvRun(mid.w, acts) == EnvStep(w, MarkSynced);
  }

  const NOTHING_QUEUED := QueueState([], {}, {}, {}, map[], false)

  lemma RunOfThree(w: World, a: EnvAct, b: EnvAct, c: EnvAct)
    ensures EnvRun(w, [a, b, c]) == EnvStep(EnvStep(EnvStep(w, a), b), c)
  {
    assert [a, b, c][..2] == [a, b] && [a, b][..1] == [a] && [a][..0] == [];
    assert EnvRun(w, [a]) == EnvStep(w, a);
    assert EnvRun(w, [a, b]) == EnvStep(EnvStep(w, a), b);
  }

  /** When an item's whole life passes before `HasSynced` turns true, the guard is still busy, and the receive that
      follows waits for good: nothing but a shutdown ever ends it, not even `HasSynced` turning true. */
  lemma LaggingSyncBlocks(x: WorkItem, acts: seq<EnvAct>)
    requires ShutDown !in acts
    ensures var start := Sync(World(NOTHING_QUEUED, None, None, {x}, false), {}, 0, 0);
            var pulled := start.(w := EnvRun(start.w, [Arrive(x), TakeOne, Publish]));
            var done := Consumed(pulled, x, Complete);
            && Inv(start) && pulled.w.slot == Some(Got(x))
            && done.deferred == {} && !done.w.synced && Finished(done.w)
            && EnvRun(done.w, acts).slot.None?
  {
    var start := Sync(World(NOTHING_QUEUED, None, None, {x}, false), {}, 0, 0);
    assert start.w.q.failures.Keys - start.deferred == {};
    forall y ensures ItemOK(start, y) {
    }
    RunOfThree(start.w, Arrive(x), TakeOne, Publish);
    var pulled := start.(w := EnvRun(start.w, [Arrive(x), TakeOne, Publish]));
    var done := Consumed(pulled, x, Complete);
    assert done.w.q.failures == map[] && done.w.q.queue == [] && done.w.q.processing == {};
    NothingComes(done.w, acts);
  }

  /** A queue that is shut down before any item arrives delivers the shutdown first; the loop ends on it, nothing has
      gone wrong, and deletion counts as safe with nothing stored and the item never pulled. */
  lemma EarlyShutdownIsSafe(objects: Objects, x: WorkItem)
    ensures var s := Sync(World(NOTHING_QUEUED, None, None, {x}, false), {}, 0, 0);
            var w := EnvRun(s.w, [ShutDown, TakeOne, Publish]);
            var p := Progress(map[], true, {}, [], []);
            && Good(objects, s, p, {x}) && w.slot == Some(Down)
            && Good(objects, s.(w := w.(slot := None)), p, {x}) && AllStored(objects, p.pulled, p.acked)
            && x in w.unarrived
  {
    var s := Sync(World(NOTHING_QUEUED, None, None, {x}, false), {}, 0, 0);
    var p := Progress(map[], true, {}, [], []);
    StartIsGood(objects, s, {x});
    RunOfThree(s.w, ShutDown, TakeOne, Publish);
    EnvKeepsGood(objects, s, p, {x}, [ShutDown, TakeOne, Publish]);
    DropDown(objects, s.(w := EnvRun(s.w, [ShutDown, TakeOne, Publish])), p, {x});
  }
}
