/** The state of an initial sync that its counters must agree with, the steps that change it, and what all of them keep.
    The environment is everything outside the sync loop: the informer that adds items, the back-off timers, the
    goroutine that moves items from the queue into a channel of capacity one, and shutdown. */
module SyncStates {
  import opened Basics
  import opened WorkQueues
  import opened BatchCollectors

  datatype Delivery = Got(item: WorkItem) | Down

  /** `hand` is what the polling goroutine has taken from the queue and not yet published, `slot` the channel. */
  datatype World = World(
    q: QueueState,
    slot: Option<Delivery>,
    hand: Option<Delivery>,
    unarrived: set<WorkItem>,
    synced: bool)

  function Held(d: Option<Delivery>): set<WorkItem> {
    if d.Some? && d.value.Got? then {d.value.item} else {}
  }

  // ---- the environment ----

  datatype EnvAct = Arrive(x: WorkItem) | Fire(x: WorkItem) | TakeOne | Publish | MarkSynced | ShutDown

  /** One step of the environment; a step that is not possible changes nothing. */
  function EnvStep(w: World, act: EnvAct): World {
    match act
    case Arrive(x) => if x in w.unarrived then w.(unarrived := w.unarrived - {x}, q := w.q.Add(x)) else w
    case Fire(x) => if x in w.q.delayed then w.(q := w.q.Fire(x)) else w
    case TakeOne =>
      if w.hand.Some? then w
      else if w.q.queue != [] then w.(hand := Some(Got(w.q.queue[0])), q := w.q.Take())
      else if w.q.shuttingDown then w.(hand := Some(Down)) else w
    case Publish => if w.hand.Some? && w.slot.None? then w.(slot := w.hand, hand := None) else w
    case MarkSynced => if w.unarrived == {} then w.(synced := true) else w
    case ShutDown => w.(q := w.q.(shuttingDown := true))
  }

  function EnvRun(w: World, acts: seq<EnvAct>): World {
    if acts == [] then w else EnvStep(EnvRun(w, acts[..|acts| - 1]), acts[|acts| - 1])
  }

  lemma {:induction false} EnvRunAppend(w: World, a: seq<EnvAct>, b: seq<EnvAct>)
    ensures EnvRun(w, a + b) == EnvRun(EnvRun(w, a), b)
  {
    if b == [] {
      assert a + b == a;
    } else {
      EnvRunAppend(w, a, b[..|b| - 1]);
      assert (a + b)[..|a + b| - 1] == a + b[..|b| - 1];
    }
  }

  // ---- the sync loop ----

  /** What one flush or one pulled item may turn the loop's state into is given by the functions below. */
  datatype Sync = Sync(w: World, deferred: set<WorkItem>, counter: int, clashes: nat)

  /** What happens to a pulled item: finished, put back with a back-off, or kept until the next flush. */
  datatype Fate = Complete | Requeue | Defer

  function AfterFate(q: QueueState, x: WorkItem, fate: Fate): QueueState {
    match fate
    case Complete => q.Forget(x).Done(x)
    case Requeue => q.Done(x).AddRateLimited(x)
    case Defer => q
  }

  /** How the loop's retry counter changes for it. */
  function CounterDiff(q: QueueState, x: WorkItem, fate: Fate): int {
    var n := q.NumRequeues(x);
    if fate.Requeue? then if n == 0 then 1 else 0
    else if n > 0 then -1 else 0
  }

  function Consumed(s: Sync, x: WorkItem, fate: Fate): Sync {
    s.(w := s.w.(slot := None, q := AfterFate(s.w.q, x, fate)),
       deferred := if fate.Defer? then s.deferred + {x} else s.deferred,
       counter := s.counter + CounterDiff(s.w.q, x, fate))
  }

  /** A flush that may requeue, with the given failure classes among the deferred items. */
  function Flushed(s: Sync, failed: set<WorkItem>, permanent: set<WorkItem>): Sync {
    var back := Requeued(s.w.q, failed, true);
    Sync(s.w.(q := Settled(s.w.q, s.deferred, failed, permanent, true)), {},
         s.counter + |back|, s.clashes + |back * permanent|)
  }

  // ---- the invariant ----

  /** Everything the queue or its rate limiter still knows about. */
  ghost predicate Outstanding(q: QueueState, x: WorkItem) {
    x in q.dirty || x in q.delayed || x in q.processing || x in q.failures
  }

  /** Waiting to be pulled, in the queue, behind its back-off or in the poller. */
  ghost predicate Pending(w: World, x: WorkItem) {
    x in w.q.dirty || x in w.q.delayed || x in Held(w.slot) || x in Held(w.hand)
  }

  /** An item is in at most one place, and one that still has failures counted is somewhere. */
  ghost predicate ItemOK(s: Sync, x: WorkItem) {
    var q := s.w.q;
    && (x in q.queue <==> x in q.dirty)
    && (x in q.processing <==> x in Held(s.w.slot) || x in Held(s.w.hand) || x in s.deferred)
    && !(x in Held(s.w.slot) && x in Held(s.w.hand))
    && (x in s.deferred ==> x !in Held(s.w.slot) && x !in Held(s.w.hand))
    && (x in q.dirty ==> x !in q.processing && x !in q.delayed)
    && (x in q.delayed ==> x !in q.processing)
    && (x in s.w.unarrived ==> !Outstanding(q, x))
    && (x in q.failures ==> 1 <= q.failures[x] <= MAX_NUM_REQUEUES)
    && (x in q.failures && !q.shuttingDown ==> x in q.dirty || x in q.delayed || x in q.processing)
    && (x in q.delayed && s.clashes == 0 ==> x in q.failures)
  }

  ghost predicate Located(s: Sync) {
    && Distinct(s.w.q.queue)
    && (s.w.synced ==> s.w.unarrived == {})
    && (s.w.slot == Some(Down) || s.w.hand == Some(Down) ==> s.w.q.shuttingDown)
    && forall x :: ItemOK(s, x)
  }

  /** The retry counter counts the items with failures that the collector does not hold, plus one for each item that
      was put back and forgotten in the same flush. */
  ghost predicate Counted(s: Sync) {
    s.counter == |s.w.q.failures.Keys - s.deferred| + s.clashes
  }

  ghost predicate Inv(s: Sync) { Located(s) && Counted(s) }

  lemma ArriveKeepsInv(s: Sync, x: WorkItem)
    requires Inv(s)
    ensures Inv(s.(w := EnvStep(s.w, Arrive(x))))
  {
    var s' := s.(w := EnvStep(s.w, Arrive(x)));
    assert ItemOK(s, x);
    forall y ensures ItemOK(s', y) {
      assert ItemOK(s, y);
    }
  }

  lemma FireKeepsInv(s: Sync, x: WorkItem)
    requires Inv(s)
    ensures Inv(s.(w := EnvStep(s.w, Fire(x))))
  {
    var s' := s.(w := EnvStep(s.w, Fire(x)));
    assert ItemOK(s, x);
    forall y ensures ItemOK(s', y) {
      assert ItemOK(s, y);
    }
  }

  lemma TakeKeepsInv(s: Sync)
    requires Inv(s)
    ensures Inv(s.(w := EnvStep(s.w, TakeOne)))
  {
    var s' := s.(w := EnvStep(s.w, TakeOne));
    var q := s.w.q;
    forall y ensures ItemOK(s', y) {
      assert ItemOK(s, y);
      if s.w.hand.None? && q.queue != [] {
        assert ItemOK(s, q.queue[0]);
        assert y in q.queue <==> y == q.queue[0] || y in q.queue[1..];
      }
    }
  }

  lemma EnvStepKeepsInv(s: Sync, act: EnvAct)
    requires Inv(s)
    ensures Inv(s.(w := EnvStep(s.w, act)))
  {
    var s' := s.(w := EnvStep(s.w, act));
    match act
    case Arrive(x) => ArriveKeepsInv(s, x);
    case Fire(x) => FireKeepsInv(s, x);
    case TakeOne => TakeKeepsInv(s);
    case _ =>
      forall y ensures ItemOK(s', y) {
        assert ItemOK(s, y);
      }
  }

  lemma {:induction false} EnvRunKeepsInv(s: Sync, acts: seq<EnvAct>)
    requires Inv(s)
    ensures Inv(s.(w := EnvRun(s.w, acts)))
  {
    if acts != [] {
      EnvRunKeepsInv(s, acts[..|acts| - 1]);
      EnvStepKeepsInv(s.(w := EnvRun(s.w, acts[..|acts| - 1])), acts[|acts| - 1]);
    }
  }

  /** The failure counts that the loop's counter stands for after an item has been dealt with. */
  lemma ConsumedCounts(s: Sync, x: WorkItem, fate: Fate)
    requires x !in s.deferred
    ensures var before := s.w.q.failures.Keys - s.deferred;
            var s' := Consumed(s, x, fate);
            s'.w.q.failures.Keys - s'.deferred == if fate.Requeue? then before + {x} else before - {x}
  {
    var s' := Consumed(s, x, fate);
    match fate
    case Complete => assert s'.w.q.failures.Keys == s.w.q.failures.Keys - {x};
    case Requeue => assert s'.w.q.failures.Keys == s.w.q.failures.Keys + {x};
    case Defer => assert s'.w.q.failures.Keys == s.w.q.failures.Keys;
  }

  lemma InsertedSize<T>(a: set<T>, x: T)
    ensures |a + {x}| == if x in a then |a| else |a| + 1
    ensures |a - {x}| == if x in a then |a| - 1 else |a|
  {
    if x in a {
      assert a + {x} == a;
    } else {
      assert a - {x} == a;
    }
  }

  lemma ConsumedKeepsCount(s: Sync, x: WorkItem, fate: Fate)
    requires Counted(s) && x !in s.deferred
    requires s.w.q.NumRequeues(x) > 0 <==> x in s.w.q.failures
    ensures Counted(Consumed(s, x, fate))
  {
    ConsumedCounts(s, x, fate);
    var before := s.w.q.failures.Keys - s.deferred;
    InsertedSize(before, x);
    assert x in s.w.q.failures <==> x in before;
    var s' := Consumed(s, x, fate);
    var after := s'.w.q.failures.Keys - s'.deferred;
    assert s'.counter == s.counter + CounterDiff(s.w.q, x, fate);
    assert |after| == |before| + CounterDiff(s.w.q, x, fate);
  }

  lemma ConsumedKeepsPlaces(s: Sync, x: WorkItem, fate: Fate)
    requires Located(s) && s.w.slot == Some(Got(x))
    requires fate.Requeue? ==> s.w.q.NumRequeues(x) < MAX_NUM_REQUEUES
    ensures Located(Consumed(s, x, fate))
  {
    assert ItemOK(s, x);
    forall y ensures ItemOK(Consumed(s, x, fate), y) {
      assert ItemOK(s, y);
    }
  }

  /** A pulled item, whatever becomes of it. */
  lemma ConsumedKeepsInv(s: Sync, x: WorkItem, fate: Fate)
    requires Inv(s) && s.w.slot == Some(Got(x))
    requires fate.Requeue? ==> s.w.q.NumRequeues(x) < MAX_NUM_REQUEUES
    ensures Inv(Consumed(s, x, fate))
  {
    assert ItemOK(s, x);
    ConsumedKeepsCount(s, x, fate);
    ConsumedKeepsPlaces(s, x, fate);
  }

  lemma SettledCounts(q: QueueState, all: set<WorkItem>, failed: set<WorkItem>, permanent: set<WorkItem>)
    requires failed + permanent <= all
    ensures Settled(q, all, failed, permanent, true).failures.Keys
         == (q.failures.Keys - all) + (Requeued(q, failed, true) - permanent)
    ensures Requeued(q, failed, true) <= failed
  {
    var keys := Settled(q, all, failed, permanent, true).failures.Keys;
    var back := Requeued(q, failed, true);
    forall x ensures x in keys <==> x in (q.failures.Keys - all) + (back - permanent) {
      if x in all {
        assert x in all + failed + permanent;
      }
    }
  }

  lemma SplitSize<T>(whole: set<T>, part: set<T>)
    ensures |whole| == |whole - part| + |whole * part|
  {
    assert whole == (whole - part) + whole * part;
    DisjointUnionSize(whole - part, whole * part);
  }

  /** Of the items put back, those not refused as well are all that a flush adds to the remembered failures. */
  lemma FlushSizes(keys: set<WorkItem>, deferred: set<WorkItem>, back: set<WorkItem>, permanent: set<WorkItem>)
    requires back <= deferred
    ensures |(keys - deferred) + (back - permanent)| + |back * permanent| == |keys - deferred| + |back|
  {
    DisjointUnionSize(keys - deferred, back - permanent);
    SplitSize(back, permanent);
  }

  lemma FlushedKeepsCount(s: Sync, failed: set<WorkItem>, permanent: set<WorkItem>)
    requires Counted(s) && failed + permanent <= s.deferred
    ensures Counted(Flushed(s, failed, permanent))
  {
    var back := Requeued(s.w.q, failed, true);
    var keys := Settled(s.w.q, s.deferred, failed, permanent, true).failures.Keys;
    SettledCounts(s.w.q, s.deferred, failed, permanent);
    FlushSizes(s.w.q.failures.Keys, s.deferred, back, permanent);
    NothingRemoved(keys);
  }

  lemma NothingRemoved<T>(a: set<T>)
    ensures a - {} == a
  {
  }

  lemma FlushedKeepsPlaces(s: Sync, failed: set<WorkItem>, permanent: set<WorkItem>)
    requires Located(s) && failed + permanent <= s.deferred
    ensures Located(Flushed(s, failed, permanent))
  {
    var s' := Flushed(s, failed, permanent);
    var both := Requeued(s.w.q, failed, true) * permanent;
    if s'.clashes == 0 {
      assert both == {};
    }
    forall y ensures ItemOK(s', y) {
      assert ItemOK(s, y);
      assert s'.clashes == 0 ==> y !in both;
    }
  }

  /** A flush, whatever the server answered: the counter stays exact up to the number of clashes. */
  lemma FlushedKeepsInv(s: Sync, failed: set<WorkItem>, permanent: set<WorkItem>)
    requires Inv(s) && failed + permanent <= s.deferred
    ensures Inv(Flushed(s, failed, permanent))
  {
    FlushedKeepsCount(s, failed, permanent);
    FlushedKeepsPlaces(s, failed, permanent);
  }

  // ---- idling ----

  /** What the environment cannot do: count failures, delay items, or bring anything but the informer's items. */
  ghost predicate EnvFrame(w: World, w': World) {
    && w'.q.failures == w.q.failures
    && (w.slot.Some? ==> w'.slot == w.slot)
    && (w.q.shuttingDown ==> w'.q.shuttingDown)
    && (w.synced ==> w'.synced)
    && forall x :: ItemFrame(w, w', x)
  }

  ghost predicate ItemFrame(w: World, w': World, x: WorkItem) {
    && (x in w'.q.delayed ==> x in w.q.delayed)
    && (x in w'.unarrived ==> x in w.unarrived)
    && (Pending(w', x) ==> Pending(w, x) || (x in w.unarrived && x !in w'.unarrived))
    && (x in Held(w.slot) || x in Held(w.hand) ==> x in Held(w'.slot) || x in Held(w'.hand))
  }

  lemma EnvStepFrame(s: Sync, act: EnvAct)
    requires Inv(s)
    ensures EnvFrame(s.w, EnvStep(s.w, act))
  {
    forall x ensures ItemFrame(s.w, EnvStep(s.w, act), x) {
      assert ItemOK(s, x);
      if act.TakeOne? && s.w.hand.None? && s.w.q.queue != [] {
        assert s.w.q.queue[0] in s.w.q.queue && ItemOK(s, s.w.q.queue[0]);
      }
    }
  }

  lemma EnvFrameTransitive(w: World, mid: World, w': World)
    requires EnvFrame(w, mid) && EnvFrame(mid, w')
    ensures EnvFrame(w, w')
  {
    forall x ensures ItemFrame(w, w', x) {
      assert ItemFrame(w, mid, x) && ItemFrame(mid, w', x);
    }
  }

  lemma {:induction false} EnvRunFrame(s: Sync, acts: seq<EnvAct>)
    requires Inv(s)
    ensures EnvFrame(s.w, EnvRun(s.w, acts))
  {
    if acts == [] {
      assert forall x :: ItemFrame(s.w, s.w, x);
    } else {
      var before := acts[..|acts| - 1];
      EnvRunFrame(s, before);
      EnvRunKeepsInv(s, before);
      EnvStepFrame(s.(w := EnvRun(s.w, before)), acts[|acts| - 1]);
      EnvFrameTransitive(s.w, EnvRun(s.w, before), EnvRun(s.w, acts));
    }
  }

  /** With the counter at zero and nothing held by the collector, no failure is remembered and nothing is delayed. */
  lemma NoRetriesLeft(s: Sync)
    requires Inv(s) && s.counter == 0 && s.deferred == {}
    ensures s.w.q.failures == map[] && s.w.q.delayed == {} && s.clashes == 0
  {
    assert s.w.q.failures.Keys - {} == s.w.q.failures.Keys;
    assert s.w.q.failures.Keys == {};
    forall x ensures x !in s.w.q.delayed {
      assert ItemOK(s, x);
    }
  }

  /** The loop reads its guard piece by piece: the counter and the queue's length in `s`, then, after environment steps,
      whether the informer has synced and whether the channel is empty. When all of it says idle, nothing is delayed,
      no failure is remembered and no flush clashed; what is left is exactly the item in the poller's hand and items
      the informer added after the length was read, none of them ever pulled. */
  lemma IdleMeansDrained(s: Sync, acts: seq<EnvAct>, x: WorkItem)
    requires Inv(s)
    requires s.counter == 0 && s.w.q.queue == [] && s.deferred == {}
    requires EnvRun(s.w, acts).synced && EnvRun(s.w, acts).slot.None?
    ensures EnvRun(s.w, acts).q.delayed == {} && EnvRun(s.w, acts).q.failures == map[] && s.clashes == 0
    ensures EnvRun(s.w, acts).unarrived == {}
    ensures Outstanding(EnvRun(s.w, acts).q, x) ==> x in Held(EnvRun(s.w, acts).hand) || x in s.w.unarrived
    ensures x in Held(EnvRun(s.w, acts).hand) ==> Outstanding(EnvRun(s.w, acts).q, x)
  {
    var w := EnvRun(s.w, acts);
    EnvRunFrame(s, acts);
    EnvRunKeepsInv(s, acts);
    NoRetriesLeft(s);
    NoRetriesLeft(s.(w := w));
    assert ItemOK(s, x) && ItemOK(s.(w := w), x) && ItemFrame(s.w, w, x);
  }

  // ---- blocking receives ----

  /** Something is in the channel or on its way there: held, queued, delayed or still to arrive; or the queue is shut
      down, which the poller passes on. */
  predicate CanReceive(w: World) {
    || w.slot.Some? || w.hand.Some? || w.q.queue != [] || w.q.delayed != {} || w.unarrived != {}
    || w.q.shuttingDown
  }

  /** What brings the next delivery closer. */
  ghost predicate Urgent(w: World, act: EnvAct) {
    if w.hand.Some? then act == Publish
    else if w.q.queue != [] || w.q.shuttingDown then act == TakeOne
    else if w.q.delayed != {} then act.Fire? && act.x in w.q.delayed
    else act.Arrive? && act.x in w.unarrived
  }

  /** A bound on how many such acts a blocking receive can last. */
  ghost function Wait(w: World): nat {
    |w.unarrived| + |w.q.delayed| + if w.slot.Some? then 0 else if w.hand.Some? then 1 else 2
  }

  lemma UrgentActHelps(w: World, act: EnvAct)
    requires w.slot.None? && CanReceive(w) && Urgent(w, act)
    ensures Wait(EnvStep(w, act)) < Wait(w) && act != ShutDown
  {
  }

  /** The environment never takes the prospect of a delivery away. */
  lemma EnvStepKeepsComing(s: Sync, act: EnvAct)
    requires Inv(s) && CanReceive(s.w)
    ensures CanReceive(EnvStep(s.w, act))
  {
    match act
    case Arrive(x) => assert ItemOK(s, x);
    case Fire(x) => assert ItemOK(s, x);
    case _ =>
  }

  lemma {:induction false} EnvRunKeepsComing(s: Sync, acts: seq<EnvAct>)
    requires Inv(s) && CanReceive(s.w)
    ensures CanReceive(EnvRun(s.w, acts))
  {
    if acts != [] {
      var before := acts[..|acts| - 1];
      EnvRunKeepsComing(s, before);
      EnvRunKeepsInv(s, before);
      EnvStepKeepsComing(s.(w := EnvRun(s.w, before)), acts[|acts| - 1]);
    }
  }

  /** Without it, nothing but a shutdown ever brings a delivery. */
  lemma {:induction false} NothingComes(w: World, acts: seq<EnvAct>)
    requires !CanReceive(w) && ShutDown !in acts
    ensures EnvRun(w, acts) == w.(synced := EnvRun(w, acts).synced)
  {
    if acts != [] {
      NothingComes(w, acts[..|acts| - 1]);
      assert acts[|acts| - 1] in acts;
    }
  }

  lemma {:induction false} SomethingComes(s: Sync) returns (acts: seq<EnvAct>)
    requires Inv(s) && CanReceive(s.w)
    ensures ShutDown !in acts && EnvRun(s.w, acts).slot.Some?
    decreases Wait(s.w)
  {
    if s.w.slot.Some? {
      acts := [];
    } else {
      var act;
      if s.w.hand.Some? {
        act := Publish;
      } else if s.w.q.queue != [] || s.w.q.shuttingDown {
        act := TakeOne;
      } else if s.w.q.delayed != {} {
        var x :| x in s.w.q.delayed;
        act := Fire(x);
      } else {
        var x :| x in s.w.unarrived;
        act := Arrive(x);
      }
      UrgentActHelps(s.w, act);
      EnvStepKeepsInv(s, act);
      EnvStepKeepsComing(s, act);
      var rest := SomethingComes(s.(w := EnvStep(s.w, act)));
      EnvRunAppend(s.w, [act], rest);
      assert [act][..0] == [];
      acts := [act] + rest;
    }
  }

  /** A blocking receive can return without a shutdown if and only if something is in the channel or on its way. */
  lemma ReceivesIff(s: Sync)
    requires Inv(s)
    ensures CanReceive(s.w) <==> exists acts :: ShutDown !in acts && EnvRun(s.w, acts).slot.Some?
  {
    if CanReceive(s.w) {
      var acts := SomethingComes(s);
    } else {
      forall acts | ShutDown !in acts ensures EnvRun(s.w, acts).slot.None? {
        NothingComes(s.w, acts);
      }
    }
  }

  /** A retry that the counter stands for will be delivered: the counter never makes the loop wait for nothing. */
  lemma CountedIsComing(s: Sync)
    requires Inv(s) && s.clashes == 0 && s.counter > 0
    ensures CanReceive(s.w)
  {
    var x :| x in s.w.q.failures.Keys - s.deferred;
    assert ItemOK(s, x);
  }

  /** When nothing is on its way and the collector is empty, every item has been dealt with. */
  lemma NothingComesMeansFinished(s: Sync, x: WorkItem)
    requires Inv(s) && !CanReceive(s.w) && s.deferred == {}
    ensures !Outstanding(s.w.q, x) && x !in s.w.unarrived
  {
    assert ItemOK(s, x);
  }

  // ---- runs ----

  /** One step of the environment, one pulled item with its fate, or one flush with its failure classes. */
  datatype Move =
    | EnvMove(act: EnvAct)
    | PullMove(x: WorkItem, fate: Fate)
    | FlushMove(failed: set<WorkItem>, permanent: set<WorkItem>)

  predicate CanMove(s: Sync, m: Move) {
    match m
    case EnvMove(_) => true
    case PullMove(x, fate) =>
      s.w.slot == Some(Got(x)) && (fate.Requeue? ==> s.w.q.NumRequeues(x) < MAX_NUM_REQUEUES)
    case FlushMove(failed, permanent) => failed + permanent <= s.deferred
  }

  function Next(s: Sync, m: Move): Sync {
    match m
    case EnvMove(act) => s.(w := EnvStep(s.w, act))
    case PullMove(x, fate) => Consumed(s, x, fate)
    case FlushMove(failed, permanent) => Flushed(s, failed, permanent)
  }

  function RunOf(s: Sync, moves: seq<Move>): Sync {
    if moves == [] then s else Next(RunOf(s, moves[..|moves| - 1]), moves[|moves| - 1])
  }

  predicate CanRun(s: Sync, moves: seq<Move>) {
    moves == [] || (CanRun(s, moves[..|moves| - 1]) && CanMove(RunOf(s, moves[..|moves| - 1]), moves[|moves| - 1]))
  }

  lemma StepKeepsInv(s: Sync, m: Move)
    requires Inv(s) && CanMove(s, m)
    ensures Inv(Next(s, m)) && Next(s, m).clashes >= s.clashes
  {
    match m
    case EnvMove(act) => EnvStepKeepsInv(s, act);
    case PullMove(x, fate) => ConsumedKeepsInv(s, x, fate);
    case FlushMove(failed, permanent) => FlushedKeepsInv(s, failed, permanent);
  }

  lemma {:induction false} RunKeepsInv(s: Sync, moves: seq<Move>)
    requires Inv(s) && CanRun(s, moves)
    ensures Inv(RunOf(s, moves)) && RunOf(s, moves).clashes >= s.clashes
  {
    if moves != [] {
      RunKeepsInv(s, moves[..|moves| - 1]);
      StepKeepsInv(RunOf(s, moves[..|moves| - 1]), moves[|moves| - 1]);
    }
  }

  /** In every run the counter is never negative, and it is exact if and only if no flush so far has clashed; once one
      has, it stays positive, so the loop's idle guard stays false and the sync can only end by shutdown. */
  lemma CounterOverRuns(s: Sync, moves: seq<Move>)
    requires Inv(s) && CanRun(s, moves)
    ensures var s' := RunOf(s, moves);
            && s'.counter >= 0
            && (s'.counter == |s'.w.q.failures.Keys - s'.deferred| <==> s'.clashes == 0)
            && (s.clashes > 0 ==> s'.counter > 0)
  {
    RunKeepsInv(s, moves);
  }

  // ---- the retry budget as a measure ----

  /** What an item can still cost: each pull and each flush it takes part in makes it lighter. */
  ghost function Weight(w: World, deferred: set<WorkItem>, x: WorkItem): nat {
    var left := Max(0, MAX_NUM_REQUEUES - w.q.NumRequeues(x));
    if x in w.unarrived then 2 * MAX_NUM_REQUEUES + 3
    else if x in deferred then 2 * left + 1
    else if Pending(w, x) then 2 * left + 2
    else 0
  }

  ghost function Fuel(w: World, deferred: set<WorkItem>, items: set<WorkItem>): nat {
    if items == {} then 0 else
    var x :| x in items;
    Weight(w, deferred, x) + Fuel(w, deferred, items - {x})
  }

  lemma {:induction false} FuelRemove(w: World, deferred: set<WorkItem>, items: set<WorkItem>, x: WorkItem)
    requires x in items
    ensures Fuel(w, deferred, items) == Weight(w, deferred, x) + Fuel(w, deferred, items - {x})
    decreases items
  {
    var y :| y in items && Fuel(w, deferred, items) == Weight(w, deferred, y) + Fuel(w, deferred, items - {y});
    if y != x {
      FuelRemove(w, deferred, items - {y}, x);
      FuelRemove(w, deferred, items - {x}, y);
      assert items - {y} - {x} == items - {x} - {y};
    }
  }

  lemma {:induction false} FuelMonotone(w: World, d: set<WorkItem>, w': World, d': set<WorkItem>, items: set<WorkItem>)
    requires forall x :: x in items ==> Weight(w', d', x) <= Weight(w, d, x)
    ensures Fuel(w', d', items) <= Fuel(w, d, items)
    decreases items
  {
    if items != {} {
      var x :| x in items;
      FuelRemove(w, d, items, x);
      FuelRemove(w', d', items, x);
      FuelMonotone(w, d, w', d', items - {x});
    }
  }

  lemma FuelDrops(w: World, d: set<WorkItem>, w': World, d': set<WorkItem>, items: set<WorkItem>, x: WorkItem)
    requires forall y :: y in items ==> Weight(w', d', y) <= Weight(w, d, y)
    requires x in items && Weight(w', d', x) < Weight(w, d, x)
    ensures Fuel(w', d', items) < Fuel(w, d, items)
  {
    FuelRemove(w, d, items, x);
    FuelRemove(w', d', items, x);
    FuelMonotone(w, d, w', d', items - {x});
  }

  lemma EnvStepBurnsNothing(s: Sync, act: EnvAct, x: WorkItem)
    requires Inv(s)
    ensures Weight(EnvStep(s.w, act), s.deferred, x) <= Weight(s.w, s.deferred, x)
  {
    EnvStepFrame(s, act);
    assert ItemFrame(s.w, EnvStep(s.w, act), x);
  }

  lemma {:induction false} EnvRunBurnsNothing(s: Sync, acts: seq<EnvAct>, items: set<WorkItem>)
    requires Inv(s)
    ensures Fuel(EnvRun(s.w, acts), s.deferred, items) <= Fuel(s.w, s.deferred, items)
  {
    if acts != [] {
      var before := acts[..|acts| - 1];
      var mid := s.(w := EnvRun(s.w, before));
      EnvRunBurnsNothing(s, before, items);
      EnvRunKeepsInv(s, before);
      forall x | x in items ensures Weight(EnvRun(s.w, acts), s.deferred, x) <= Weight(mid.w, s.deferred, x) {
        EnvStepBurnsNothing(mid, acts[|acts| - 1], x);
      }
      FuelMonotone(mid.w, s.deferred, EnvRun(s.w, acts), s.deferred, items);
    }
  }

  lemma ConsumedLightens(s: Sync, x: WorkItem, fate: Fate, y: WorkItem)
    requires Inv(s) && s.w.slot == Some(Got(x))
    requires fate.Requeue? ==> s.w.q.NumRequeues(x) < MAX_NUM_REQUEUES
    ensures var s' := Consumed(s, x, fate);
            if y == x then Weight(s'.w, s'.deferred, y) < Weight(s.w, s.deferred, y)
            else Weight(s'.w, s'.deferred, y) == Weight(s.w, s.deferred, y)
  {
    assert ItemOK(s, x) && ItemOK(s, y);
  }

  /** Pulling an item burns fuel, even if it fails and is put back. */
  lemma ConsumedBurns(s: Sync, x: WorkItem, fate: Fate, items: set<WorkItem>)
    requires Inv(s) && s.w.slot == Some(Got(x)) && x in items
    requires fate.Requeue? ==> s.w.q.NumRequeues(x) < MAX_NUM_REQUEUES
    ensures Fuel(Consumed(s, x, fate).w, Consumed(s, x, fate).deferred, items) < Fuel(s.w, s.deferred, items)
  {
    var s' := Consumed(s, x, fate);
    forall y | y in items ensures Weight(s'.w, s'.deferred, y) <= Weight(s.w, s.deferred, y) {
      ConsumedLightens(s, x, fate, y);
    }
    ConsumedLightens(s, x, fate, x);
    FuelDrops(s.w, s.deferred, s'.w, s'.deferred, items, x);
  }

  lemma FlushedLightens(s: Sync, failed: set<WorkItem>, permanent: set<WorkItem>, y: WorkItem)
    requires Inv(s) && failed + permanent <= s.deferred
    requires Requeued(s.w.q, failed, true) * permanent == {}
    ensures var s' := Flushed(s, failed, permanent);
            if y in s.deferred then Weight(s'.w, {}, y) < Weight(s.w, s.deferred, y)
            else Weight(s'.w, {}, y) == Weight(s.w, s.deferred, y)
  {
    assert ItemOK(s, y);
    assert y !in Requeued(s.w.q, failed, true) * permanent;
  }

  /** So does a flush of a non-empty batch that does not clash, even against a server that always fails. */
  lemma FlushedBurns(s: Sync, failed: set<WorkItem>, permanent: set<WorkItem>, items: set<WorkItem>)
    requires Inv(s) && failed + permanent <= s.deferred && s.deferred != {} && s.deferred <= items
    requires Requeued(s.w.q, failed, true) * permanent == {}
    ensures Fuel(Flushed(s, failed, permanent).w, {}, items) < Fuel(s.w, s.deferred, items)
  {
    var s' := Flushed(s, failed, permanent);
    forall y | y in items ensures Weight(s'.w, {}, y) <= Weight(s.w, s.deferred, y) {
      FlushedLightens(s, failed, permanent, y);
    }
    var x :| x in s.deferred;
    FlushedLightens(s, failed, permanent, x);
    FuelDrops(s.w, s.deferred, s'.w, {}, items, x);
  }

  /** Everything that can still be pulled or flushed is among the items. */
  ghost predicate Within(s: Sync, items: set<WorkItem>) {
    forall x :: x in s.w.unarrived || Pending(s.w, x) || x in s.deferred ==> x in items
  }

  lemma MoveKeepsWithin(s: Sync, m: Move, items: set<WorkItem>)
    requires Inv(s) && CanMove(s, m) && Within(s, items)
    ensures Within(Next(s, m), items)
  {
    if m.EnvMove? {
      EnvStepFrame(s, m.act);
    }
    forall x | x in Next(s, m).w.unarrived || Pending(Next(s, m).w, x) || x in Next(s, m).deferred ensures x in items {
      assert ItemOK(s, x);
      if m.EnvMove? {
        assert ItemFrame(s.w, Next(s, m).w, x);
      }
    }
  }

  /** Pulling an item, or flushing at least one. */
  predicate Works(s: Sync, m: Move) {
    m.PullMove? || (m.FlushMove? && s.deferred != {})
  }

  function WorkDone(s: Sync, moves: seq<Move>): nat {
    if moves == [] then 0
    else
      var before := moves[..|moves| - 1];
      WorkDone(s, before) + if Works(RunOf(s, before), moves[|moves| - 1]) then 1 else 0
  }

  lemma MoveBurns(s: Sync, m: Move, items: set<WorkItem>)
    requires Inv(s) && CanMove(s, m) && Within(s, items) && Next(s, m).clashes == s.clashes
    ensures Fuel(Next(s, m).w, Next(s, m).deferred, items) + (if Works(s, m) then 1 else 0)
         <= Fuel(s.w, s.deferred, items)
  {
    match m
    case EnvMove(act) =>
      EnvRunBurnsNothing(s, [act], items);
      assert [act][..0] == [];
    case PullMove(x, fate) =>
      assert Pending(s.w, x);
      ConsumedBurns(s, x, fate, items);
    case FlushMove(failed, permanent) =>
      if s.deferred == {} {
        assert failed + permanent == {};
        SettledNothing(s.w.q, true);
        assert Flushed(s, {}, {}).w == s.w;
      } else {
        FlushedBurns(s, failed, permanent, items);
      }
  }

  /** In a run without a clash, pulls and non-empty flushes together are at most as many as the fuel it starts with, and
      what is left is the fuel for the rest: no clock, no server and no order of steps makes it more. */
  lemma {:induction false} WorkBounded(s: Sync, moves: seq<Move>, items: set<WorkItem>)
    requires Inv(s) && CanRun(s, moves) && Within(s, items) && RunOf(s, moves).clashes == s.clashes
    ensures Within(RunOf(s, moves), items)
    ensures WorkDone(s, moves) + Fuel(RunOf(s, moves).w, RunOf(s, moves).deferred, items)
         <= Fuel(s.w, s.deferred, items)
  {
    if moves != [] {
      var before := moves[..|moves| - 1];
      var mid := RunOf(s, before);
      RunKeepsInv(s, before);
      StepKeepsInv(mid, moves[|moves| - 1]);
      WorkBounded(s, before, items);
      MoveKeepsWithin(mid, moves[|moves| - 1], items);
      MoveBurns(mid, moves[|moves| - 1], items);
    }
  }

  /** The fuel of a fresh sync is linear in the number of items. */
  lemma {:induction false} FuelLinear(w: World, deferred: set<WorkItem>, items: set<WorkItem>)
    ensures Fuel(w, deferred, items) <= 11 * |items|
    decreases items
  {
    if items != {} {
      var x :| x in items && Fuel(w, deferred, items) == Weight(w, deferred, x) + Fuel(w, deferred, items - {x});
      FuelLinear(w, deferred, items - {x});
      assert Weight(w, deferred, x) <= 2 * MAX_NUM_REQUEUES + 3;
      assert |items| == |items - {x}| + 1;
    }
  }
}
