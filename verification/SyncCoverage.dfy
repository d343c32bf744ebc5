/** What an initial sync has covered so far: which items were pulled, what was mapped from them, and where each mapped
    entity is. As long as nothing went wrong, every mapped entity has been stored or waits in the batch. */
module SyncCoverage {
  import opened Basics
  import opened PortApi
  import opened WorkQueues
  import opened FlushLog
  import opened BatchCollectors
  import opened SyncStates

  /** What looking up and mapping the object behind an item can give. `cleanupFailed` is about the deletion of entities
      that the selector excludes, which only happens for updates. */
  datatype Outcome =
    | LookupFailed
    | Gone
    | TransformFailed
    | Mapped(entities: seq<EntityRequest>, cleanupFailed: bool)

  /** The outcome of the n-th pull: the objects behind the items may change between pulls. */
  type Objects = (nat, WorkItem) -> Outcome

  /** The object was updated, and an entity that its selector now excludes could not be deleted. */
  predicate CleanupFails(x: WorkItem, outcome: Outcome) {
    x.EventItem? && x.action.UpdateAction? && outcome.Mapped? && outcome.cleanupFailed
  }

  /** Outcomes that make deleting stale entities unsafe. */
  predicate MarksError(x: WorkItem, outcome: Outcome) {
    x.EventItem? && (outcome.TransformFailed? || CleanupFails(x, outcome))
  }

  function FateOf(q: QueueState, x: WorkItem, outcome: Outcome): Fate {
    if x.Foreign? || outcome.Gone? then Complete
    else if outcome.LookupFailed? || MarksError(x, outcome) then
      if q.NumRequeues(x) >= MAX_NUM_REQUEUES then Complete else Requeue
    else if outcome.entities == [] then Complete
    else Defer
  }

  /** The batch after the entities mapped from one item have been added to it. */
  function AddAll(batch: Batch, entities: seq<EntityRequest>, x: WorkItem): Batch {
    if entities == [] then batch
    else Extended(AddAll(batch, entities[..|entities| - 1], x), Row(entities[|entities| - 1], Some(x)))
  }

  /** All of an item's entities join the batch together, behind what is already there. */
  lemma {:induction false} AddAllContents(batch: Batch, entities: seq<EntityRequest>, x: WorkItem)
    requires Filed(batch)
    ensures var b := AddAll(batch, entities, x);
            && Filed(b)
            && (forall row ::
                  InBatch(b, row) <==> InBatch(batch, row) || (row.source == Some(x) && row.entity in entities))
  {
    if entities != [] {
      var k := |entities| - 1;
      AddAllContents(batch, entities[..k], x);
      assert entities == entities[..k] + [entities[k]];
      ExtendedContents(AddAll(batch, entities[..k], x), Row(entities[k], Some(x)));
    }
  }

  lemma ExtendedContents(batch: Batch, row: Row)
    requires Filed(batch)
    ensures Filed(Extended(batch, row))
    ensures forall r :: InBatch(Extended(batch, row), r) <==> InBatch(batch, r) || r == row
  {
  }

  /** The items whose entities wait in the batch are the deferred ones. */
  ghost predicate Holds(batch: Batch, deferred: set<WorkItem>) {
    && Filed(batch)
    && (forall row :: InBatch(batch, row) ==> row.source.Some? && row.source.value in deferred)
    && (forall x :: x in deferred ==> WaitsFor(batch, x))
  }

  ghost predicate WaitsFor(batch: Batch, x: WorkItem) {
    exists row :: InBatch(batch, row) && row.source == Some(x)
  }

  lemma HoldsSources(batch: Batch, deferred: set<WorkItem>)
    requires Holds(batch, deferred)
    ensures BatchSources(batch) == deferred
    ensures deferred != {} <==> batch != map[]
  {
    forall x | x in BatchSources(batch) ensures x in deferred {
      var bp, row :| bp in batch && row in batch[bp] && row.source == Some(x);
      assert InBatch(batch, row);
    }
    forall x | x in deferred ensures x in BatchSources(batch) {
      assert WaitsFor(batch, x);
    }
    if batch != map[] {
      var bp :| bp in batch;
      assert batch[bp][0] in batch[bp];
      assert InBatch(batch, batch[bp][0]);
    }
  }

  /** The collector, what has been stored, the items pulled so far and what came of each flush. `ok` says that no error
      has been seen. */
  datatype Progress = Progress(batch: Batch, ok: bool, acked: set<string>, pulled: seq<WorkItem>, flushes: seq<Tally>)

  function EntitiesAt(objects: Objects, pulled: seq<WorkItem>, i: nat): seq<EntityRequest>
    requires i < |pulled|
  {
    if pulled[i].EventItem? && objects(i, pulled[i]).Mapped? then objects(i, pulled[i]).entities else []
  }

  ghost predicate Safe(p: Progress, e: EntityRequest, x: WorkItem) {
    RequestKey(e) in p.acked || InBatch(p.batch, Row(e, Some(x)))
  }

  /** Every entity mapped by a pull is stored or waits in the batch. */
  ghost predicate Covers(objects: Objects, p: Progress) {
    forall i: nat, e :: i < |p.pulled| && e in EntitiesAt(objects, p.pulled, i) ==> Safe(p, e, p.pulled[i])
  }

  ghost predicate MappedKey(objects: Objects, pulled: seq<WorkItem>, key: string) {
    exists i: nat, e :: i < |pulled| && e in EntitiesAt(objects, pulled, i) && key == RequestKey(e)
  }

  /** Nothing but mapped entities is stored or waits. */
  ghost predicate OnlyMapped(objects: Objects, p: Progress) {
    && (forall key :: key in p.acked ==> MappedKey(objects, p.pulled, key))
    && (forall row :: InBatch(p.batch, row) ==> MappedKey(objects, p.pulled, RequestKey(row.entity)))
  }

  ghost predicate ConclusiveAt(objects: Objects, pulled: seq<WorkItem>, i: nat, x: WorkItem)
    requires i < |pulled|
  {
    pulled[i] == x && (x.Foreign? || objects(i, x).Gone? || (objects(i, x).Mapped? && !CleanupFails(x, objects(i, x))))
  }

  ghost predicate Conclusive(objects: Objects, pulled: seq<WorkItem>, x: WorkItem) {
    exists i: nat :: i < |pulled| && ConclusiveAt(objects, pulled, i, x)
  }

  function Pulls(pulled: seq<WorkItem>, x: WorkItem): nat { multiset(pulled)[x] }

  /** Everything that these flushes have stored. */
  function AckedBy(flushes: seq<Tally>): set<string> {
    if flushes == [] then {} else AckedBy(flushes[..|flushes| - 1]) + flushes[|flushes| - 1].acked
  }

  /** No mapping and no cleanup has failed at any pull. */
  ghost predicate Unmarked(objects: Objects, pulled: seq<WorkItem>) {
    forall i: nat :: i < |pulled| && pulled[i].EventItem? ==>
      !objects(i, pulled[i]).TransformFailed? && !CleanupFails(pulled[i], objects(i, pulled[i]))
  }

  /** Nothing has failed in any of these flushes. */
  ghost predicate AllClean(flushes: seq<Tally>) {
    forall i :: 0 <= i < |flushes| ==> flushes[i].clean
  }

  /** Nothing has gone wrong exactly if no pull has marked an error and no flush has failed, at any time; and what is
      stored is what the flushes have stored. */
  ghost predicate Accounts(objects: Objects, p: Progress) {
    (p.ok <==> Unmarked(objects, p.pulled) && AllClean(p.flushes)) && p.acked == AckedBy(p.flushes)
  }

  /** The lookup failed at each of the item's pulls. */
  ghost predicate LookupsFailed(objects: Objects, pulled: seq<WorkItem>, x: WorkItem) {
    forall i: nat :: i < |pulled| && pulled[i] == x ==> objects(i, x).LookupFailed?
  }

  /** An item of which nothing is known, although no pull marked an error, is one whose lookups have all failed. */
  lemma InconclusiveIffLookupsFailed(objects: Objects, pulled: seq<WorkItem>, x: WorkItem)
    requires Unmarked(objects, pulled) && x in pulled
    ensures !Conclusive(objects, pulled, x) <==> x.EventItem? && LookupsFailed(objects, pulled, x)
  {
    var k: nat :| k < |pulled| && pulled[k] == x;
    assert x.Foreign? ==> ConclusiveAt(objects, pulled, k, x);
    if !Conclusive(objects, pulled, x) {
      forall i: nat | i < |pulled| && pulled[i] == x ensures objects(i, x).LookupFailed? {
        assert !ConclusiveAt(objects, pulled, i, x);
        assert !MarksError(pulled[i], objects(i, pulled[i]));
      }
    }
  }

  /** One item of the sync: never lost, pulled once more than it has failed when held or done with, and done with only
      after a conclusive pull or when the retry budget is used up. */
  ghost predicate ItemTracked(objects: Objects, s: Sync, p: Progress, items: set<WorkItem>, x: WorkItem) {
    var q := s.w.q;
    && (x in s.w.unarrived || Pending(s.w, x) || x in s.deferred ==> x in items)
    && (x in items ==> x in s.w.unarrived || Outstanding(q, x) || x in p.pulled || q.shuttingDown)
    && (x in s.w.unarrived ==> Pulls(p.pulled, x) == 0)
    && (Pending(s.w, x) ==> Pulls(p.pulled, x) == q.NumRequeues(x))
    && (x in s.deferred ==> Pulls(p.pulled, x) == q.NumRequeues(x) + 1 && Conclusive(objects, p.pulled, x))
    && Pulls(p.pulled, x) <= MAX_NUM_REQUEUES + 1
    && (x in p.pulled && !Outstanding(q, x) ==>
          Conclusive(objects, p.pulled, x) || Pulls(p.pulled, x) == MAX_NUM_REQUEUES + 1)
  }

  ghost predicate Tracked(objects: Objects, s: Sync, p: Progress, items: set<WorkItem>) {
    forall x :: ItemTracked(objects, s, p, items, x)
  }

  // ---- what becomes of each item ----

  ghost predicate FailedIn(flushes: seq<Tally>, x: WorkItem) {
    exists k :: 0 <= k < |flushes| && x in flushes[k].failed
  }

  ghost predicate RefusedIn(flushes: seq<Tally>, x: WorkItem) {
    exists k :: 0 <= k < |flushes| && x in flushes[k].permanent
  }

  /** A reason to pull the item again: nothing became known of it, or it had entities and a flush failed on it. */
  ghost predicate AgainAt(objects: Objects, pulled: seq<WorkItem>, flushes: seq<Tally>, i: nat)
    requires i < |pulled|
  {
    || !ConclusiveAt(objects, pulled, i, pulled[i])
    || (EntitiesAt(objects, pulled, i) != [] && FailedIn(flushes, pulled[i]))
  }

  /** No item is pulled again without a reason. */
  ghost predicate AgainForCause(objects: Objects, pulled: seq<WorkItem>, flushes: seq<Tally>) {
    forall i: nat, j :: i < j < |pulled| && pulled[i] == pulled[j] ==> AgainAt(objects, pulled, flushes, i)
  }

  ghost predicate AllAgain(objects: Objects, pulled: seq<WorkItem>, flushes: seq<Tally>, x: WorkItem) {
    forall i: nat :: i < |pulled| && pulled[i] == x ==> AgainAt(objects, pulled, flushes, i)
  }

  ghost predicate StoredAt(objects: Objects, pulled: seq<WorkItem>, i: nat, stored: set<string>)
    requires i < |pulled|
  {
    forall e :: e in EntitiesAt(objects, pulled, i) ==> RequestKey(e) in stored
  }

  /** At its i-th pull the item was mapped or found gone, and everything mapped then has been stored or a flush has
      refused the item for good. */
  ghost predicate ServedAt(objects: Objects, pulled: seq<WorkItem>, flushes: seq<Tally>, stored: set<string>, i: nat,
                           x: WorkItem)
    requires i < |pulled|
  {
    ConclusiveAt(objects, pulled, i, x) && (StoredAt(objects, pulled, i, stored) || RefusedIn(flushes, x))
  }

  /** An item is only let go of when it has been served or has used up its five pulls. */
  ghost predicate Resolved(objects: Objects, pulled: seq<WorkItem>, flushes: seq<Tally>, stored: set<string>,
                           x: WorkItem)
  {
    || Pulls(pulled, x) == MAX_NUM_REQUEUES + 1
    || exists i: nat :: i < |pulled| && ServedAt(objects, pulled, flushes, stored, i, x)
  }

  /** Each of these items has been let go of only like that. */
  ghost predicate AllResolved(objects: Objects, pulled: seq<WorkItem>, flushes: seq<Tally>, stored: set<string>) {
    forall x :: x in pulled ==> Resolved(objects, pulled, flushes, stored, x)
  }

  /** Still known to the queue, or let go of like that, or given up because its last flush failed on it. */
  ghost predicate Handled(objects: Objects, pulled: seq<WorkItem>, flushes: seq<Tally>, stored: set<string>,
                          q: QueueState)
  {
    forall x :: x in pulled ==>
      Outstanding(q, x) || Resolved(objects, pulled, flushes, stored, x) || FailedIn(flushes, x)
  }

  ghost predicate WaitsAt(objects: Objects, p: Progress, i: nat, x: WorkItem)
    requires i < |p.pulled|
  {
    && ConclusiveAt(objects, p.pulled, i, x)
    && forall e :: e in EntitiesAt(objects, p.pulled, i) ==> InBatch(p.batch, Row(e, Some(x)))
  }

  /** What the item's last pull has mapped waits in the batch. */
  ghost predicate InFlight(objects: Objects, p: Progress, x: WorkItem) {
    exists i: nat :: i < |p.pulled| && WaitsAt(objects, p, i, x)
  }

  /** Each of the item's pulls either gives a reason to pull it again or has mapped something. */
  ghost predicate AgainOrFull(objects: Objects, p: Progress, x: WorkItem) {
    forall i: nat :: i < |p.pulled| && p.pulled[i] == x ==>
      AgainAt(objects, p.pulled, p.flushes, i) || EntitiesAt(objects, p.pulled, i) != []
  }

  ghost predicate ItemServed(objects: Objects, s: Sync, p: Progress, x: WorkItem) {
    && (Pending(s.w, x) ==> AllAgain(objects, p.pulled, p.flushes, x))
    && (x in s.deferred ==> InFlight(objects, p, x) && AgainOrFull(objects, p, x))
    && (x in p.pulled && !Outstanding(s.w.q, x) ==> Resolved(objects, p.pulled, p.flushes, p.acked, x))
  }

  ghost predicate Serves(objects: Objects, s: Sync, p: Progress) {
    AgainForCause(objects, p.pulled, p.flushes) && forall x :: ItemServed(objects, s, p, x)
  }

  /** The invariant of the sync loop while no flush has clashed. */
  ghost predicate Good(objects: Objects, s: Sync, p: Progress, items: set<WorkItem>) {
    && Inv(s) && s.clashes == 0
    && Holds(p.batch, s.deferred)
    && Tracked(objects, s, p, items)
    && (forall x :: x in p.pulled ==> x in items)
    && OnlyMapped(objects, p)
    && (p.ok ==> Covers(objects, p))
    && Accounts(objects, p)
    && Serves(objects, s, p)
  }

  lemma EnvKeepsServed(objects: Objects, s: Sync, p: Progress, items: set<WorkItem>, acts: seq<EnvAct>)
    requires Inv(s) && s.clashes == 0 && Serves(objects, s, p) && Tracked(objects, s, p, items)
    ensures Serves(objects, s.(w := EnvRun(s.w, acts)), p)
  {
    hide Resolved, InFlight, AgainOrFull;
    EnvRunFrame(s, acts);
    forall x ensures ItemServed(objects, s.(w := EnvRun(s.w, acts)), p, x) {
      assert ItemServed(objects, s, p, x) && ItemTracked(objects, s, p, items, x);
      assert ItemFrame(s.w, EnvRun(s.w, acts), x);
      EnvRunLosesNothing(s, acts, x);
    }
  }

  lemma EnvKeepsGood(objects: Objects, s: Sync, p: Progress, items: set<WorkItem>, acts: seq<EnvAct>)
    requires Good(objects, s, p, items)
    ensures Good(objects, s.(w := EnvRun(s.w, acts)), p, items)
  {
    var s' := s.(w := EnvRun(s.w, acts));
    EnvRunKeepsInv(s, acts);
    EnvRunFrame(s, acts);
    forall x ensures ItemTracked(objects, s', p, items, x) {
      assert ItemTracked(objects, s, p, items, x);
      assert ItemFrame(s.w, s'.w, x) && ItemOK(s, x) && ItemOK(s', x);
      EnvRunLosesNothing(s, acts, x);
    }
    EnvKeepsServed(objects, s, p, items, acts);
  }

  ghost predicate Unlost(w: World, w': World, x: WorkItem) {
    && (x in w.unarrived ==> x in w'.unarrived || Outstanding(w'.q, x) || w'.q.shuttingDown)
    && (Outstanding(w.q, x) ==> Outstanding(w'.q, x))
  }

  lemma EnvStepLosesNothing(s: Sync, act: EnvAct, x: WorkItem)
    requires Inv(s) && s.clashes == 0
    ensures Unlost(s.w, EnvStep(s.w, act), x)
  {
    assert ItemOK(s, x);
  }

  lemma {:induction false} EnvRunLosesNothing(s: Sync, acts: seq<EnvAct>, x: WorkItem)
    requires Inv(s) && s.clashes == 0
    ensures Unlost(s.w, EnvRun(s.w, acts), x)
  {
    if acts != [] {
      var before := acts[..|acts| - 1];
      EnvRunKeepsInv(s, before);
      EnvRunFrame(s, before);
      EnvRunLosesNothing(s, before, x);
      EnvStepLosesNothing(s.(w := EnvRun(s.w, before)), acts[|acts| - 1], x);
      EnvStepFrame(s.(w := EnvRun(s.w, before)), acts[|acts| - 1]);
    }
  }

  // ---- pulling an item ----

  function Absorb(p: Progress, q: QueueState, x: WorkItem, outcome: Outcome): Progress {
    var fate := FateOf(q, x, outcome);
    Progress(if fate.Defer? then AddAll(p.batch, outcome.entities, x) else p.batch,
             p.ok && !MarksError(x, outcome), p.acked, p.pulled + [x], p.flushes)
  }

  lemma ConclusiveGrows(objects: Objects, pulled: seq<WorkItem>, next: WorkItem, x: WorkItem)
    ensures Conclusive(objects, pulled, x) ==> Conclusive(objects, pulled + [next], x)
  {
    if i: nat :| i < |pulled| && ConclusiveAt(objects, pulled, i, x) {
      assert ConclusiveAt(objects, pulled + [next], i, x);
    }
  }

  lemma AbsorbTracksOther(objects: Objects, s: Sync, p: Progress, p': Progress, items: set<WorkItem>, x: WorkItem,
                          fate: Fate, y: WorkItem)
    requires ItemOK(s, y) && ItemTracked(objects, s, p, items, y) && s.w.slot == Some(Got(x)) && y != x
    requires p'.pulled == p.pulled + [x] && (p'.ok ==> p.ok)
    ensures ItemTracked(objects, Consumed(s, x, fate), p', items, y)
  {
    ConclusiveGrows(objects, p.pulled, x, y);
    assert y in p'.pulled <==> y in p.pulled;
  }

  lemma AbsorbTracksPulled(objects: Objects, s: Sync, p: Progress, p': Progress, items: set<WorkItem>, x: WorkItem)
    requires ItemOK(s, x) && ItemTracked(objects, s, p, items, x) && s.w.slot == Some(Got(x))
    requires p'.pulled == p.pulled + [x] && p'.ok == (p.ok && !MarksError(x, objects(|p.pulled|, x)))
    ensures ItemTracked(objects, Consumed(s, x, FateOf(s.w.q, x, objects(|p.pulled|, x))), p', items, x)
  {
    var outcome := objects(|p.pulled|, x);
    assert Pending(s.w, x);
    assert p'.pulled[|p.pulled|] == x;
    if x.Foreign? || outcome.Gone? || (outcome.Mapped? && !CleanupFails(x, outcome)) {
      assert ConclusiveAt(objects, p'.pulled, |p.pulled|, x);
    }
  }

  lemma AbsorbKeepsTracked(objects: Objects, s: Sync, p: Progress, items: set<WorkItem>, x: WorkItem)
    requires Inv(s) && Tracked(objects, s, p, items) && s.w.slot == Some(Got(x))
    ensures var outcome := objects(|p.pulled|, x);
            Tracked(objects, Consumed(s, x, FateOf(s.w.q, x, outcome)), Absorb(p, s.w.q, x, outcome), items)
  {
    var outcome := objects(|p.pulled|, x);
    var fate := FateOf(s.w.q, x, outcome);
    var p' := Absorb(p, s.w.q, x, outcome);
    forall y ensures ItemTracked(objects, Consumed(s, x, fate), p', items, y) {
      assert ItemOK(s, y) && ItemTracked(objects, s, p, items, y);
      if y == x {
        AbsorbTracksPulled(objects, s, p, p', items, x);
      } else {
        AbsorbTracksOther(objects, s, p, p', items, x, fate, y);
      }
    }
  }

  lemma AbsorbKeepsBatch(objects: Objects, s: Sync, p: Progress, items: set<WorkItem>, x: WorkItem)
    requires Good(objects, s, p, items) && s.w.slot == Some(Got(x))
    ensures var outcome := objects(|p.pulled|, x);
            var fate := FateOf(s.w.q, x, outcome);
            Holds(Absorb(p, s.w.q, x, outcome).batch, Consumed(s, x, fate).deferred)
  {
    var outcome := objects(|p.pulled|, x);
    var fate := FateOf(s.w.q, x, outcome);
    if fate.Defer? {
      var b := AddAll(p.batch, outcome.entities, x);
      AddAllContents(p.batch, outcome.entities, x);
      assert InBatch(b, Row(outcome.entities[0], Some(x)));
      forall y | y in s.deferred + {x} ensures WaitsFor(b, y) {
        if y != x {
          assert WaitsFor(p.batch, y);
        }
      }
    }
  }

  lemma EntitiesAtGrows(objects: Objects, pulled: seq<WorkItem>, x: WorkItem, i: nat)
    requires i < |pulled|
    ensures EntitiesAt(objects, pulled + [x], i) == EntitiesAt(objects, pulled, i)
  {
  }

  lemma MappedKeyGrows(objects: Objects, pulled: seq<WorkItem>, x: WorkItem, key: string)
    requires MappedKey(objects, pulled, key)
    ensures MappedKey(objects, pulled + [x], key)
  {
    var i: nat, e :| i < |pulled| && e in EntitiesAt(objects, pulled, i) && key == RequestKey(e);
    EntitiesAtGrows(objects, pulled, x, i);
  }

  /** The rows that a pull adds to the batch are those of the entities it maps. */
  lemma AbsorbRows(objects: Objects, s: Sync, p: Progress, x: WorkItem, row: Row)
    requires Filed(p.batch)
    ensures var p' := Absorb(p, s.w.q, x, objects(|p.pulled|, x));
            InBatch(p'.batch, row) && !InBatch(p.batch, row)
            ==> row.source == Some(x) && row.entity in EntitiesAt(objects, p'.pulled, |p.pulled|)
    ensures var p' := Absorb(p, s.w.q, x, objects(|p.pulled|, x));
            InBatch(p.batch, row) ==> InBatch(p'.batch, row)
  {
    var outcome := objects(|p.pulled|, x);
    if FateOf(s.w.q, x, outcome).Defer? {
      AddAllContents(p.batch, outcome.entities, x);
    }
  }

  lemma AbsorbKeepsMapped(objects: Objects, s: Sync, p: Progress, x: WorkItem)
    requires Filed(p.batch) && OnlyMapped(objects, p)
    ensures OnlyMapped(objects, Absorb(p, s.w.q, x, objects(|p.pulled|, x)))
  {
    var p' := Absorb(p, s.w.q, x, objects(|p.pulled|, x));
    forall key | key in p'.acked ensures MappedKey(objects, p'.pulled, key) {
      MappedKeyGrows(objects, p.pulled, x, key);
    }
    forall row | InBatch(p'.batch, row) ensures MappedKey(objects, p'.pulled, RequestKey(row.entity)) {
      AbsorbRows(objects, s, p, x, row);
      if InBatch(p.batch, row) {
        MappedKeyGrows(objects, p.pulled, x, RequestKey(row.entity));
      }
    }
  }

  /** What the pull itself maps goes into the batch, unless it marks an error. */
  lemma AbsorbCoversPulled(objects: Objects, s: Sync, p: Progress, x: WorkItem, e: EntityRequest)
    requires Filed(p.batch) && !MarksError(x, objects(|p.pulled|, x))
    requires e in EntitiesAt(objects, p.pulled + [x], |p.pulled|)
    ensures InBatch(Absorb(p, s.w.q, x, objects(|p.pulled|, x)).batch, Row(e, Some(x)))
  {
    AddAllContents(p.batch, objects(|p.pulled|, x).entities, x);
  }

  lemma AbsorbKeepsCover(objects: Objects, s: Sync, p: Progress, x: WorkItem)
    requires Filed(p.batch) && Covers(objects, p) && !MarksError(x, objects(|p.pulled|, x))
    ensures Covers(objects, Absorb(p, s.w.q, x, objects(|p.pulled|, x)))
  {
    var n := |p.pulled|;
    var p' := Absorb(p, s.w.q, x, objects(n, x));
    forall i: nat, e | i < |p'.pulled| && e in EntitiesAt(objects, p'.pulled, i) ensures Safe(p', e, p'.pulled[i]) {
      if i < n {
        EntitiesAtGrows(objects, p.pulled, x, i);
        assert Safe(p, e, p.pulled[i]);
        AbsorbRows(objects, s, p, x, Row(e, Some(p.pulled[i])));
      } else {
        AbsorbCoversPulled(objects, s, p, x, e);
      }
    }
  }

  lemma AbsorbKeepsKeys(objects: Objects, s: Sync, p: Progress, items: set<WorkItem>, x: WorkItem)
    requires Good(objects, s, p, items) && s.w.slot == Some(Got(x))
    ensures var p' := Absorb(p, s.w.q, x, objects(|p.pulled|, x));
            OnlyMapped(objects, p') && (p'.ok ==> Covers(objects, p'))
  {
    AbsorbKeepsMapped(objects, s, p, x);
    if p.ok && !MarksError(x, objects(|p.pulled|, x)) {
      AbsorbKeepsCover(objects, s, p, x);
    }
  }

  lemma AbsorbKeepsAccounts(objects: Objects, p: Progress, q: QueueState, x: WorkItem)
    requires Accounts(objects, p)
    ensures Accounts(objects, Absorb(p, q, x, objects(|p.pulled|, x)))
  {
    var pulled' := p.pulled + [x];
    assert forall i: nat :: i < |p.pulled| ==> pulled'[i] == p.pulled[i];
    assert pulled'[|p.pulled|] == x;
    if Unmarked(objects, pulled') {
      forall i: nat | i < |p.pulled| ensures !MarksError(p.pulled[i], objects(i, p.pulled[i])) {
        assert !MarksError(pulled'[i], objects(i, pulled'[i]));
      }
    }
  }

  lemma AgainAtGrows(objects: Objects, pulled: seq<WorkItem>, next: WorkItem, flushes: seq<Tally>, i: nat)
    requires i < |pulled|
    ensures AgainAt(objects, pulled + [next], flushes, i) == AgainAt(objects, pulled, flushes, i)
  {
    EntitiesAtGrows(objects, pulled, next, i);
    assert (pulled + [next])[i] == pulled[i];
  }

  lemma ResolvedGrows(objects: Objects, pulled: seq<WorkItem>, next: WorkItem, flushes: seq<Tally>,
                      stored: set<string>, x: WorkItem)
    requires Resolved(objects, pulled, flushes, stored, x) && x != next
    ensures Resolved(objects, pulled + [next], flushes, stored, x)
  {
    if i: nat :| i < |pulled| && ServedAt(objects, pulled, flushes, stored, i, x) {
      EntitiesAtGrows(objects, pulled, next, i);
      assert ServedAt(objects, pulled + [next], flushes, stored, i, x);
    }
  }

  lemma InFlightGrows(objects: Objects, s: Sync, p: Progress, x: WorkItem, y: WorkItem)
    requires Filed(p.batch) && InFlight(objects, p, y)
    ensures InFlight(objects, Absorb(p, s.w.q, x, objects(|p.pulled|, x)), y)
  {
    var p' := Absorb(p, s.w.q, x, objects(|p.pulled|, x));
    var i: nat :| i < |p.pulled| && WaitsAt(objects, p, i, y);
    EntitiesAtGrows(objects, p.pulled, x, i);
    forall e | e in EntitiesAt(objects, p'.pulled, i) ensures InBatch(p'.batch, Row(e, Some(y))) {
      AbsorbRows(objects, s, p, x, Row(e, Some(y)));
    }
    assert WaitsAt(objects, p', i, y);
  }

  lemma OthersAgain(objects: Objects, p: Progress, p': Progress, x: WorkItem, y: WorkItem)
    requires p'.pulled == p.pulled + [x] && p'.flushes == p.flushes && x != y
    ensures AllAgain(objects, p.pulled, p.flushes, y) ==> AllAgain(objects, p'.pulled, p.flushes, y)
    ensures AgainOrFull(objects, p, y) ==> AgainOrFull(objects, p', y)
  {
    hide ConclusiveAt, FailedIn;
    forall i: nat | i < |p.pulled|
      ensures AgainAt(objects, p'.pulled, p.flushes, i) == AgainAt(objects, p.pulled, p.flushes, i)
      ensures EntitiesAt(objects, p'.pulled, i) == EntitiesAt(objects, p.pulled, i)
    {
      AgainAtGrows(objects, p.pulled, x, p.flushes, i);
      EntitiesAtGrows(objects, p.pulled, x, i);
    }
  }

  lemma AbsorbServesOther(objects: Objects, s: Sync, p: Progress, x: WorkItem, y: WorkItem)
    requires Inv(s) && Filed(p.batch) && ItemServed(objects, s, p, y) && s.w.slot == Some(Got(x)) && y != x
    ensures var outcome := objects(|p.pulled|, x);
            ItemServed(objects, Consumed(s, x, FateOf(s.w.q, x, outcome)), Absorb(p, s.w.q, x, outcome), y)
  {
    hide AllAgain, AgainOrFull, InFlight, Resolved;
    assert ItemOK(s, y) && ItemOK(s, x);
    OthersAgain(objects, p, Absorb(p, s.w.q, x, objects(|p.pulled|, x)), x, y);
    if y in s.deferred {
      InFlightGrows(objects, s, p, x, y);
    }
    if y in p.pulled && !Outstanding(s.w.q, y) {
      ResolvedGrows(objects, p.pulled, x, p.flushes, p.acked, y);
    }
  }

  /** The pull that has just been made, by what it gave. */
  lemma LastPull(objects: Objects, p: Progress, q: QueueState, x: WorkItem)
    requires Filed(p.batch)
    ensures var n, outcome := |p.pulled|, objects(|p.pulled|, x);
            var fate, p' := FateOf(q, x, outcome), Absorb(p, q, x, outcome);
            && n < |p'.pulled| && p'.pulled[n] == x
            && (fate.Defer? ==> WaitsAt(objects, p', n, x) && EntitiesAt(objects, p'.pulled, n) != [])
            && (fate.Requeue? ==> AgainAt(objects, p'.pulled, p'.flushes, n))
            && (fate.Complete? ==> || ServedAt(objects, p'.pulled, p'.flushes, p'.acked, n, x)
                                   || q.NumRequeues(x) >= MAX_NUM_REQUEUES)
  {
    var outcome := objects(|p.pulled|, x);
    if FateOf(q, x, outcome).Defer? {
      AddAllContents(p.batch, outcome.entities, x);
    }
  }

  lemma MineAgain(objects: Objects, p: Progress, p': Progress, x: WorkItem)
    requires p'.pulled == p.pulled + [x] && p'.flushes == p.flushes && AllAgain(objects, p.pulled, p.flushes, x)
    ensures AgainAt(objects, p'.pulled, p.flushes, |p.pulled|) ==> AllAgain(objects, p'.pulled, p.flushes, x)
    ensures EntitiesAt(objects, p'.pulled, |p.pulled|) != [] ==> AgainOrFull(objects, p', x)
  {
    hide ConclusiveAt, FailedIn;
    forall i: nat | i < |p.pulled| && p.pulled[i] == x ensures AgainAt(objects, p'.pulled, p.flushes, i) {
      AgainAtGrows(objects, p.pulled, x, p.flushes, i);
    }
  }

  lemma AbsorbServesPulled(objects: Objects, s: Sync, p: Progress, items: set<WorkItem>, x: WorkItem)
    requires Inv(s) && Filed(p.batch) && ItemServed(objects, s, p, x) && s.w.slot == Some(Got(x))
    requires ItemTracked(objects, s, p, items, x)
    ensures var outcome := objects(|p.pulled|, x);
            ItemServed(objects, Consumed(s, x, FateOf(s.w.q, x, outcome)), Absorb(p, s.w.q, x, outcome), x)
  {
    hide AgainAt, AllAgain, AgainOrFull, ConclusiveAt, StoredAt, RefusedIn, EntitiesAt, AddAll;
    var n, outcome := |p.pulled|, objects(|p.pulled|, x);
    var fate, p' := FateOf(s.w.q, x, outcome), Absorb(p, s.w.q, x, outcome);
    assert ItemOK(s, x) && Pending(s.w, x);
    LastPull(objects, p, s.w.q, x);
    MineAgain(objects, p, p', x);
    if fate.Complete? && s.w.q.NumRequeues(x) >= MAX_NUM_REQUEUES {
      assert Pulls(p'.pulled, x) == MAX_NUM_REQUEUES + 1;
    }
  }

  lemma AbsorbKeepsServed(objects: Objects, s: Sync, p: Progress, items: set<WorkItem>, x: WorkItem)
    requires Inv(s) && Filed(p.batch) && Serves(objects, s, p) && s.w.slot == Some(Got(x))
    requires Tracked(objects, s, p, items)
    ensures var outcome := objects(|p.pulled|, x);
            Serves(objects, Consumed(s, x, FateOf(s.w.q, x, outcome)), Absorb(p, s.w.q, x, outcome))
  {
    var p' := Absorb(p, s.w.q, x, objects(|p.pulled|, x));
    assert ItemServed(objects, s, p, x) && ItemTracked(objects, s, p, items, x) && Pending(s.w, x);
    forall i: nat, j | i < j < |p'.pulled| && p'.pulled[i] == p'.pulled[j]
      ensures AgainAt(objects, p'.pulled, p.flushes, i)
    {
      AgainAtGrows(objects, p.pulled, x, p.flushes, i);
      assert p'.pulled[i] == p.pulled[i];
      assert j < |p.pulled| ==> p'.pulled[j] == p.pulled[j];
    }
    forall y ensures ItemServed(objects, Consumed(s, x, FateOf(s.w.q, x, objects(|p.pulled|, x))), p', y) {
      if y == x {
        AbsorbServesPulled(objects, s, p, items, x);
      } else {
        assert ItemServed(objects, s, p, y);
        AbsorbServesOther(objects, s, p, x, y);
      }
    }
  }

  lemma AbsorbKeepsGood(objects: Objects, s: Sync, p: Progress, items: set<WorkItem>, x: WorkItem)
    requires Good(objects, s, p, items) && s.w.slot == Some(Got(x))
    ensures var outcome := objects(|p.pulled|, x);
            var fate := FateOf(s.w.q, x, outcome);
            Good(objects, Consumed(s, x, fate), Absorb(p, s.w.q, x, outcome), items)
  {
    ConsumedKeepsInv(s, x, FateOf(s.w.q, x, objects(|p.pulled|, x)));
    assert ItemTracked(objects, s, p, items, x);
    AbsorbKeepsTracked(objects, s, p, items, x);
    AbsorbKeepsBatch(objects, s, p, items, x);
    AbsorbKeepsKeys(objects, s, p, items, x);
    AbsorbKeepsAccounts(objects, p, s.w.q, x);
    AbsorbKeepsServed(objects, s, p, items, x);
  }

  // ---- flushing the batch ----

  /** What a flush under the response contract did with the batch: see `FlushFacts`. */
  ghost predicate FlushedBatch(batch: Batch, deferred: set<WorkItem>, t: Tally) {
    && t.failed + t.permanent <= deferred
    && (t.clean ==> t.failed == {} && t.permanent == {})
    && (t.clean ==> forall row :: InBatch(batch, row) ==> RequestKey(row.entity) in t.acked)
    && (forall key :: key in t.acked ==> exists row :: InBatch(batch, row) && key == RequestKey(row.entity))
    && (forall row :: InBatch(batch, row) && row.source.Some? && row.source.value !in t.failed + t.permanent ==>
          RequestKey(row.entity) in t.acked)
  }

  /** One flush, in any blueprint order, against any server that keeps the response contract. */
  lemma FlushFacts(server: Server, n: nat, order: seq<string>, batch: Batch, limits: BulkLimits,
                   deferred: set<WorkItem>)
    requires Honest(server) && Holds(batch, deferred) && IsOrderOf(order, batch.Keys)
    ensures FlushedBatch(batch, deferred, TallyOf(LogOf(server, n, Chunked(order, batch, limits)).0))
  {
    var chunks := Chunked(order, batch, limits);
    var log := LogOf(server, n, chunks).0;
    var rows := RowsOf(chunks);
    ChunkedRows(order, batch, limits);
    assert forall row :: row in rows <==> InBatch(batch, row);
    FlushFaithful(server, n, chunks);
    FaithfulTallyBounds(log, rows);
    if TallyOf(log).clean {
      CleanLogStoresAll(log, rows);
    }
    forall key | key in TallyOf(log).acked ensures exists row :: InBatch(batch, row) && key == RequestKey(row.entity) {
      assert KeyFrom(key, rows);
    }
    assert Sources(rows) <= deferred;
    forall row | InBatch(batch, row) && row.source.Some?
      && row.source.value !in TallyOf(log).failed + TallyOf(log).permanent
      ensures RequestKey(row.entity) in TallyOf(log).acked
    {
      SuccessMeansStored(log, rows, row);
    }
  }

  function Drain(p: Progress, t: Tally): Progress {
    Progress(map[], p.ok && t.clean, p.acked + t.acked, p.pulled, p.flushes + [t])
  }

  lemma DrainKeepsTracked(objects: Objects, s: Sync, p: Progress, items: set<WorkItem>, t: Tally)
    requires Good(objects, s, p, items) && FlushedBatch(p.batch, s.deferred, t)
    requires Requeued(s.w.q, t.failed, true) * t.permanent == {}
    ensures Tracked(objects, Flushed(s, t.failed, t.permanent), Drain(p, t), items)
  {
    var s' := Flushed(s, t.failed, t.permanent);
    var both := Requeued(s.w.q, t.failed, true) * t.permanent;
    forall y ensures ItemTracked(objects, s', Drain(p, t), items, y) {
      assert ItemOK(s, y) && ItemTracked(objects, s, p, items, y);
      assert y !in both;
    }
  }

  lemma DrainKeepsKeys(objects: Objects, p: Progress, deferred: set<WorkItem>, t: Tally)
    requires OnlyMapped(objects, p) && FlushedBatch(p.batch, deferred, t)
    requires p.ok ==> Covers(objects, p)
    ensures OnlyMapped(objects, Drain(p, t)) && (Drain(p, t).ok ==> Covers(objects, Drain(p, t)))
  {
    if p.ok && t.clean {
      forall i: nat, e | i < |p.pulled| && e in EntitiesAt(objects, p.pulled, i)
        ensures Safe(Drain(p, t), e, p.pulled[i])
      {
        assert Safe(p, e, p.pulled[i]);
      }
    }
  }

  lemma OneMoreClean(flushes: seq<Tally>, t: Tally)
    ensures AllClean(flushes + [t]) <==> AllClean(flushes) && t.clean
    ensures AckedBy(flushes + [t]) == AckedBy(flushes) + t.acked
  {
    var more := flushes + [t];
    assert more[..|flushes|] == flushes && more[|flushes|] == t;
    if AllClean(more) {
      forall i | 0 <= i < |flushes| ensures flushes[i].clean {
        assert more[i].clean;
      }
    }
  }

  lemma DrainKeepsAccounts(objects: Objects, p: Progress, t: Tally)
    requires Accounts(objects, p)
    ensures Accounts(objects, Drain(p, t))
  {
    hide Unmarked, AllClean, AckedBy;
    OneMoreClean(p.flushes, t);
  }

  lemma FlushesGrow(objects: Objects, p: Progress, t: Tally, x: WorkItem)
    ensures FailedIn(p.flushes + [t], x) <==> FailedIn(p.flushes, x) || x in t.failed
    ensures RefusedIn(p.flushes + [t], x) <==> RefusedIn(p.flushes, x) || x in t.permanent
  {
    var more := p.flushes + [t];
    assert more[|p.flushes|] == t && forall k :: 0 <= k < |p.flushes| ==> more[k] == p.flushes[k];
    if k :| 0 <= k < |p.flushes| && x in p.flushes[k].failed {
      assert x in more[k].failed;
    }
    if k :| 0 <= k < |p.flushes| && x in p.flushes[k].permanent {
      assert x in more[k].permanent;
    }
  }

  lemma DrainedAgain(objects: Objects, p: Progress, t: Tally, i: nat)
    requires i < |p.pulled|
    ensures AgainAt(objects, p.pulled, p.flushes, i) ==> AgainAt(objects, p.pulled, p.flushes + [t], i)
    ensures EntitiesAt(objects, p.pulled, i) != [] && p.pulled[i] in t.failed ==>
              AgainAt(objects, p.pulled, p.flushes + [t], i)
  {
    FlushesGrow(objects, p, t, p.pulled[i]);
  }

  lemma DrainResolves(objects: Objects, p: Progress, t: Tally, x: WorkItem)
    requires Resolved(objects, p.pulled, p.flushes, p.acked, x)
    ensures Resolved(objects, p.pulled, p.flushes + [t], p.acked + t.acked, x)
  {
    FlushesGrow(objects, p, t, x);
    if i: nat :| i < |p.pulled| && ServedAt(objects, p.pulled, p.flushes, p.acked, i, x) {
      assert ServedAt(objects, p.pulled, p.flushes + [t], p.acked + t.acked, i, x);
    }
  }

  /** A deferred item of which the flush has not put anything back. */
  lemma FlushServes(objects: Objects, p: Progress, deferred: set<WorkItem>, t: Tally, x: WorkItem)
    requires FlushedBatch(p.batch, deferred, t) && InFlight(objects, p, x)
    ensures x !in t.failed || x in t.permanent ==> Resolved(objects, p.pulled, p.flushes + [t], p.acked + t.acked, x)
  {
    FlushesGrow(objects, p, t, x);
    var i: nat :| i < |p.pulled| && WaitsAt(objects, p, i, x);
    if x !in t.failed && x !in t.permanent {
      forall e | e in EntitiesAt(objects, p.pulled, i) ensures RequestKey(e) in p.acked + t.acked {
        assert InBatch(p.batch, Row(e, Some(x)));
      }
    }
    assert x !in t.failed || x in t.permanent ==>
             ServedAt(objects, p.pulled, p.flushes + [t], p.acked + t.acked, i, x);
  }

  lemma DrainedAllAgain(objects: Objects, p: Progress, t: Tally, x: WorkItem)
    ensures AllAgain(objects, p.pulled, p.flushes, x) || (AgainOrFull(objects, p, x) && x in t.failed) ==>
              AllAgain(objects, p.pulled, p.flushes + [t], x)
  {
    hide ConclusiveAt, FailedIn;
    forall i: nat | i < |p.pulled|
      ensures AgainAt(objects, p.pulled, p.flushes, i) ==> AgainAt(objects, p.pulled, p.flushes + [t], i)
      ensures EntitiesAt(objects, p.pulled, i) != [] && p.pulled[i] in t.failed ==>
                AgainAt(objects, p.pulled, p.flushes + [t], i)
    {
      DrainedAgain(objects, p, t, i);
    }
  }

  lemma DrainServes(objects: Objects, s: Sync, p: Progress, items: set<WorkItem>, t: Tally, x: WorkItem)
    requires ItemOK(s, x) && ItemTracked(objects, s, p, items, x) && ItemServed(objects, s, p, x)
    requires FlushedBatch(p.batch, s.deferred, t) && x !in Requeued(s.w.q, t.failed, true) * t.permanent
    ensures ItemServed(objects, Flushed(s, t.failed, t.permanent), Drain(p, t), x)
  {
    hide ServedAt, ConclusiveAt, InBatch, AllAgain, AgainOrFull, InFlight;
    DrainedAllAgain(objects, p, t, x);
    if x in s.deferred {
      FlushServes(objects, p, s.deferred, t, x);
    } else if x in p.pulled && !Outstanding(s.w.q, x) {
      DrainResolves(objects, p, t, x);
    }
  }

  lemma DrainKeepsCauses(objects: Objects, p: Progress, t: Tally)
    requires AgainForCause(objects, p.pulled, p.flushes)
    ensures AgainForCause(objects, p.pulled, p.flushes + [t])
  {
    forall i: nat, j | i < j < |p.pulled| && p.pulled[i] == p.pulled[j]
      ensures AgainAt(objects, p.pulled, p.flushes + [t], i)
    {
      DrainedAgain(objects, p, t, i);
    }
  }

  lemma DrainKeepsServed(objects: Objects, s: Sync, p: Progress, items: set<WorkItem>, t: Tally)
    requires Inv(s) && Tracked(objects, s, p, items) && Serves(objects, s, p) && FlushedBatch(p.batch, s.deferred, t)
    requires Requeued(s.w.q, t.failed, true) * t.permanent == {}
    ensures Serves(objects, Flushed(s, t.failed, t.permanent), Drain(p, t))
  {
    var both := Requeued(s.w.q, t.failed, true) * t.permanent;
    DrainKeepsCauses(objects, p, t);
    forall x ensures ItemServed(objects, Flushed(s, t.failed, t.permanent), Drain(p, t), x) {
      assert ItemOK(s, x) && ItemTracked(objects, s, p, items, x) && ItemServed(objects, s, p, x) && x !in both;
      DrainServes(objects, s, p, items, t, x);
    }
  }

  /** A flush that puts nothing back lets go of every item of its batch. */
  lemma LastDrainHandles(objects: Objects, s: Sync, p: Progress, items: set<WorkItem>, t: Tally)
    requires Good(objects, s, p, items) && FlushedBatch(p.batch, s.deferred, t)
    ensures Handled(objects, p.pulled, p.flushes + [t], p.acked + t.acked, Completed(s.w.q, s.deferred))
  {
    hide Resolved;
    forall x | x in p.pulled
      ensures || Outstanding(Completed(s.w.q, s.deferred), x) || FailedIn(p.flushes + [t], x)
              || Resolved(objects, p.pulled, p.flushes + [t], p.acked + t.acked, x)
    {
      assert ItemServed(objects, s, p, x);
      FlushesGrow(objects, p, t, x);
      if x in s.deferred {
        FlushServes(objects, p, s.deferred, t, x);
      } else if !Outstanding(s.w.q, x) {
        DrainResolves(objects, p, t, x);
      }
    }
  }

  lemma DrainKeepsGood(objects: Objects, s: Sync, p: Progress, items: set<WorkItem>, t: Tally)
    requires Good(objects, s, p, items) && FlushedBatch(p.batch, s.deferred, t)
    requires Requeued(s.w.q, t.failed, true) * t.permanent == {}
    ensures Good(objects, Flushed(s, t.failed, t.permanent), Drain(p, t), items)
  {
    FlushedKeepsInv(s, t.failed, t.permanent);
    DrainKeepsTracked(objects, s, p, items, t);
    DrainKeepsKeys(objects, p, s.deferred, t);
    DrainKeepsAccounts(objects, p, t);
    DrainKeepsServed(objects, s, p, items, t);
  }

  // ---- the requests of a whole sync ----

  /** What comes of flushing the batch in this order of its blueprints, the n-th request being the first. */
  ghost predicate FlushGives(server: Server, limits: BulkLimits, n: nat, order: seq<string>, batch: Batch, t: Tally,
                             n': nat) {
    && IsOrderOf(order, batch.Keys)
    && TallyOf(LogOf(server, n, Chunked(order, batch, limits)).0) == t
    && LogOf(server, n, Chunked(order, batch, limits)).1 == n'
  }

  ghost predicate IsFlush(server: Server, limits: BulkLimits, n: nat, t: Tally, n': nat) {
    exists order, batch :: FlushGives(server, limits, n, order, batch, t, n')
  }

  /** All requests from the n-th on were made by these flushes, one after the other. */
  ghost predicate MadeBy(server: Server, limits: BulkLimits, n: nat, flushes: seq<Tally>, n': nat) {
    if flushes == [] then n == n'
    else
      var before, last := flushes[..|flushes| - 1], flushes[|flushes| - 1];
      exists mid :: MadeBy(server, limits, n, before, mid) && IsFlush(server, limits, mid, last, n')
  }

  /** At most one flush in between. */
  ghost predicate OneMore(server: Server, limits: BulkLimits, n: nat, before: seq<Tally>, n': nat, after: seq<Tally>) {
    if |after| == |before| then after == before && n' == n
    else |after| == |before| + 1 && after[..|before|] == before && IsFlush(server, limits, n, after[|before|], n')
  }

  lemma NoMore(server: Server, limits: BulkLimits, n: nat, flushes: seq<Tally>)
    ensures OneMore(server, limits, n, flushes, n, flushes)
  {
  }

  lemma OneFlush(server: Server, limits: BulkLimits, n: nat, before: seq<Tally>, t: Tally, n': nat)
    requires IsFlush(server, limits, n, t, n')
    ensures OneMore(server, limits, n, before, n', before + [t])
  {
  }

  lemma MadeByOneMore(server: Server, limits: BulkLimits, n: nat, before: seq<Tally>, mid: nat, n': nat,
                      after: seq<Tally>)
    requires MadeBy(server, limits, n, before, mid) && OneMore(server, limits, mid, before, n', after)
    ensures MadeBy(server, limits, n, after, n')
  {
  }
}
