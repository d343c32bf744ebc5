/** The initial sync of one resource kind: the loop that drains the work queue through the poller into the batch
    collector, flushes the collector, and decides whether stale entities may be deleted. Where a method only passes the
    loop's invariant on, `hide` keeps the definitions behind it out of the proof. */
module InitialSync {
  import opened Basics
  import opened PortApi
  import opened WorkQueues
  import opened FlushLog
  import opened BatchCollectors
  import opened SyncStates
  import opened SyncCoverage

  const BLUEPRINT_BATCH_MULTIPLIER := 5

  /** The informer, the timers, the polling goroutine and the clock. They run whenever `Interfere` is called, in any
      order and as often as they like, until the clock reaches its horizon. `mayShutDown` says whether somebody may shut
      the queue down, `prompt` whether `HasSynced` turns true together with the last arrival instead of some time
      later. */
  class Cluster {
    const wq: WorkQueue
    const horizon: nat
    const mayShutDown: bool
    const prompt: bool
    var slot: Option<Delivery>
    var hand: Option<Delivery>
    var unarrived: set<WorkItem>
    var synced: bool
    var now: nat

    constructor (wq: WorkQueue, unarrived: set<WorkItem>, horizon: nat, mayShutDown: bool, prompt: bool)
      ensures this.wq == wq && this.horizon == horizon && this.mayShutDown == mayShutDown && this.prompt == prompt
      ensures W() == World(wq.st, None, None, unarrived, prompt && unarrived == {}) && now == 0
    {
      this.wq, this.horizon, this.mayShutDown, this.prompt := wq, horizon, mayShutDown, prompt;
      slot, hand, now := None, None, 0;
      this.unarrived, synced := unarrived, prompt && unarrived == {};
    }

    function W(): World
      reads this, wq
    {
      World(wq.st, slot, hand, unarrived, synced)
    }

    /** What the two flags promise. */
    ghost predicate Behaves()
      reads this, wq
    {
      (wq.st.shuttingDown ==> mayShutDown) && (prompt && unarrived == {} ==> synced)
    }

    method Act(act: EnvAct) returns (ghost acts: seq<EnvAct>)
      requires Behaves() && (act.ShutDown? ==> mayShutDown)
      modifies this`slot, this`hand, this`unarrived, this`synced, wq`st
      ensures Behaves()
      ensures W() == EnvRun(old(W()), acts) == EnvStep(old(W()), act).(synced := synced)
      ensures ShutDown in acts ==> mayShutDown
    {
      var w := EnvStep(W(), act);
      slot, hand, unarrived, synced := w.slot, w.hand, w.unarrived, w.synced;
      wq.st := w.q;
      acts := [act];
      assert EnvRun(old(W()), [act]) == w by { assert [act][..0] == []; }
      if prompt && unarrived == {} {
        synced := true;
        acts := [act, MarkSynced];
        assert EnvRun(old(W()), acts) == EnvStep(w, MarkSynced) by { assert acts[..1] == [act]; }
      }
    }

    method Interfere() returns (ghost acts: seq<EnvAct>)
      requires now <= horizon && Behaves()
      modifies this, wq`st
      ensures W() == EnvRun(old(W()), acts) && (ShutDown in acts ==> mayShutDown) && Behaves()
      ensures old(now) <= now <= horizon
    {
      var schedule: seq<EnvAct> := *;
      acts := [];
      for i := 0 to |schedule|
        invariant W() == EnvRun(old(W()), acts) && (ShutDown in acts ==> mayShutDown) && Behaves()
        invariant now == old(now)
      {
        if mayShutDown || !schedule[i].ShutDown? {
          ghost var more := Act(schedule[i]);
          EnvRunAppend(old(W()), acts, more);
          acts := acts + more;
        }
      }
      var later: nat := *;
      if now < later <= horizon {
        now := later;
      }
    }

    /** A blocking receive: the environment runs until something is in the channel. There is no delivery if nothing is
        on its way and nobody shuts the queue down; the caller then waits for good. */
    method Await(ghost s: Sync) returns (d: Option<Delivery>, ghost acts: seq<EnvAct>)
      requires now <= horizon && Behaves() && Inv(s) && s.w == W()
      modifies this, wq`st
      ensures W() == EnvRun(old(W()), acts).(slot := None) && EnvRun(old(W()), acts).slot == d && Behaves()
      ensures CanReceive(old(W())) ==> d.Some?
      ensures !CanReceive(old(W())) && !mayShutDown ==> d.None?
      ensures d.None? ==> !CanReceive(W())
      ensures old(now) <= now <= horizon
    {
      acts := Interfere();
      while slot.None? && CanReceive(W())
        invariant W() == EnvRun(old(W()), acts) && (ShutDown in acts ==> mayShutDown) && Behaves()
        invariant old(now) <= now <= horizon
        decreases Wait(W())
      {
        var act;
        if hand.Some? {
          act := Publish;
        } else if wq.st.queue != [] || wq.st.shuttingDown {
          act := TakeOne;
        } else if wq.st.delayed != {} {
          var x :| x in wq.st.delayed;
          act := Fire(x);
        } else {
          var x :| x in unarrived;
          act := Arrive(x);
        }
        UrgentActHelps(W(), act);
        ghost var more := Act(act);
        EnvRunAppend(old(W()), acts, more);
        acts := acts + more;
      }
      if CanReceive(old(W())) {
        EnvRunKeepsComing(s, acts);
      } else if !mayShutDown {
        NothingComes(old(W()), acts);
      }
      d := slot;
      slot := None;
    }
  }

  /** How a sync ends. `Clashed` is where the model stops following it: a flush has put an item back and forgotten its
      failures, and from then on the loop has no idle exit (see `SyncStates.CounterOverRuns`). `Blocked` is a receive on
      which nothing comes any more; the loop waits there for good. */
  datatype Exit = Idle | ShutDownSeen | Clashed | Blocked

  class Controller {
    const cluster: Cluster
    const port: PortClient
    const limits: BulkLimits
    const timeout: nat
    const objects: Objects
    var pulled: seq<WorkItem>
    // what came of each flush
    ghost var flushes: seq<Tally>

    constructor (cluster: Cluster, port: PortClient, limits: BulkLimits, timeout: nat, objects: Objects)
      ensures this.cluster == cluster && this.port == port && this.limits == limits && this.timeout == timeout
      ensures this.objects == objects && pulled == [] && flushes == []
    {
      this.cluster, this.port, this.limits, this.timeout, this.objects := cluster, port, limits, timeout, objects;
      pulled, flushes := [], [];
    }

    /** Nothing pulled yet: the informer may have added some of its items to the queue, the poller has not started. */
    ghost predicate Fresh(items: set<WorkItem>)
      reads this, cluster, cluster.wq
    {
      && pulled == [] && flushes == []
      && cluster.now <= cluster.horizon && cluster.Behaves()
      && cluster.slot.None? && cluster.hand.None?
      && (cluster.synced ==> cluster.unarrived == {})
      && Distinct(cluster.wq.st.queue)
      && (forall x :: x in cluster.wq.st.queue <==> x in cluster.wq.st.dirty)
      && cluster.wq.st.processing == {} && cluster.wq.st.delayed == {} && cluster.wq.st.failures == map[]
      && cluster.unarrived !! cluster.wq.st.dirty
      && items == cluster.unarrived + cluster.wq.st.dirty
    }

    ghost function Sees(collector: BatchCollector, acked: set<string>, clean: bool): Progress
      reads this, collector
    {
      Progress(collector.entitiesByBlueprint, clean && !collector.hasErrors, acked, pulled, flushes)
    }

    ghost predicate Running(collector: BatchCollector, s: Sync, acked: set<string>, clean: bool, items: set<WorkItem>)
      reads this, collector, cluster, cluster.wq
    {
      && collector.lastFlush <= cluster.now <= cluster.horizon && cluster.Behaves()
      && s.w == cluster.W()
      && Good(objects, s, Sees(collector, acked, clean), items)
    }

    /** Looks up, maps and files one pulled item. */
    method ProcessWorkItem(collector: BatchCollector, x: WorkItem) returns (diff: int, ghost fate: Fate)
      modifies this`pulled, cluster.wq, collector`entitiesByBlueprint, collector`hasErrors
      ensures fate == FateOf(old(cluster.wq.st), x, objects(|old(pulled)|, x))
      ensures cluster.wq.st == AfterFate(old(cluster.wq.st), x, fate)
      ensures diff == CounterDiff(old(cluster.wq.st), x, fate)
      ensures pulled == old(pulled) + [x]
      ensures collector.hasErrors <==> old(collector.hasErrors) || MarksError(x, objects(|old(pulled)|, x))
      ensures collector.entitiesByBlueprint
           == if fate.Defer? then AddAll(old(collector.entitiesByBlueprint), objects(|old(pulled)|, x).entities, x)
              else old(collector.entitiesByBlueprint)
    {
      var wq := cluster.wq;
      var outcome := objects(|pulled|, x);
      pulled := pulled + [x];
      var numRequeues := wq.st.NumRequeues(x);
      diff := if numRequeues > 0 then -1 else 0;
      if x.Foreign? || outcome.Gone? {
        fate := Complete;
        wq.Forget(x);
        wq.Done(x);
        return;
      }
      if MarksError(x, outcome) {
        collector.MarkError();
      }
      if outcome.LookupFailed? || MarksError(x, outcome) {
        if numRequeues >= MAX_NUM_REQUEUES {
          fate := Complete;
          wq.Forget(x);
          wq.Done(x);
          return;
        }
        diff := if numRequeues == 0 then 1 else 0;
        fate := Requeue;
        wq.Done(x);
        wq.AddRateLimited(x);
        return;
      }
      if |outcome.entities| == 0 {
        fate := Complete;
        wq.Forget(x);
        wq.Done(x);
        return;
      }
      fate := Defer;
      ghost var batch := collector.entitiesByBlueprint;
      var entities := outcome.entities;
      for i := 0 to |entities|
        invariant collector.entitiesByBlueprint == AddAll(batch, entities[..i], x)
        invariant pulled == old(pulled) + [x] && wq.st == old(wq.st) && collector.hasErrors == old(collector.hasErrors)
      {
        assert entities[..i + 1][..i] == entities[..i];
        collector.AddEntity(entities[i], Some(x));
      }
      assert entities[..|entities|] == entities;
    }

    /** There was a flush, in this order of blueprints, and it clashed. */
    ghost predicate Clashes(order: Option<seq<string>>, calls: nat, batch: Batch, failures: map<WorkItem, nat>)
      requires Orders(order, batch)
    {
      order.Some? && FlushClashes(port.server, calls, order.value, batch, limits, failures)
    }

    /** One flush that may put items back, against the loop's state `s` and progress `p`. */
    method FlushBatch(collector: BatchCollector, ghost s: Sync, ghost p: Progress, ghost items: set<WorkItem>)
      returns (r: SyncResult, clashed: bool, ghost s': Sync, ghost order: seq<string>)
      requires s.w == cluster.W() && Good(objects, s, p, items) && Honest(port.server)
      requires p.batch == collector.entitiesByBlueprint && p.pulled == pulled && p.flushes == flushes
      requires p.ok ==> !collector.hasErrors
      modifies this`flushes, collector`entitiesByBlueprint, collector`lastFlush, port, cluster.wq
      ensures collector.entitiesByBlueprint == map[] && collector.lastFlush == cluster.now
      ensures !clashed ==> s'.w == cluster.W() && s'.deferred == {} && s'.counter == s.counter + r.requeued
      ensures !clashed ==>
        Good(objects, s', Progress(map[], p.ok && r.shouldDelete, p.acked + r.entities, p.pulled, flushes), items)
      ensures cluster.wq.st.shuttingDown == old(cluster.wq.st).shuttingDown
      ensures OneMore(port.server, limits, old(port.calls), old(flushes), port.calls, flushes)
      ensures !clashed && s.deferred != {} ==> Fuel(s'.w, s'.deferred, items) < Fuel(s.w, s.deferred, items)
      ensures s.deferred == {} ==> !clashed && s' == s
      ensures s'.w.unarrived == s.w.unarrived
      ensures IsOrderOf(order, p.batch.Keys)
      ensures clashed <==> FlushClashes(port.server, old(port.calls), order, p.batch, limits, s.w.q.failures)
      ensures clashed ==> ClashLeft(cluster.wq.st, pulled) && !OneKindOfFailure(port.server) && !r.shouldDelete
      ensures MoreMapped(objects, pulled, {}, r.entities)
      ensures FaultFree(port.server) ==> r.shouldDelete == !collector.hasErrors
    {
      hide OneMore, Honest, FaultFree, NeverRefuses, ClashLeft, Fuel, Good;
      ghost var calls := port.calls;
      var forgotten;
      ghost var dones;
      r, forgotten, order, dones := collector.ProcessBatch(port, cluster.wq, limits, cluster.now, true);
      clashed := forgotten != {};
      ghost var t;
      s', t := FlushOnce(objects, port.server, limits, s, p, items, calls, order, dones);
      assert p.ok && r.shouldDelete <==> p.ok && t.clean;
      assert FlushGives(port.server, limits, calls, order, p.batch, t, port.calls);
      OneFlush(port.server, limits, calls, flushes, t, port.calls);
      flushes := flushes + [t];
    }

    /** A flush in the loop, its result merged into the loop's variables; `order` is the order in which it visited the
        blueprints. Unless it clashes, the loop's invariant holds again, and some item has become lighter if the batch
        was not empty. */
    method Flush(collector: BatchCollector, counter: int, acked: set<string>, clean: bool,
                 ghost s: Sync, ghost items: set<WorkItem>)
      returns (counter': int, acked': set<string>, clean': bool, clashed: bool,
               ghost s': Sync, ghost order: seq<string>)
      requires Running(collector, s, acked, clean, items) && s.counter == counter && Honest(port.server)
      modifies this`flushes, collector`entitiesByBlueprint, collector`lastFlush, port, cluster.wq
      ensures !clashed ==> Running(collector, s', acked', clean', items) && s'.counter == counter'
      ensures !clashed && s.deferred != {} ==> Fuel(s'.w, s'.deferred, items) < Fuel(s.w, s.deferred, items)
      ensures s.deferred == {} ==> !clashed && s' == s
      ensures s'.w.unarrived == s.w.unarrived
      ensures Orders(Some(order), old(collector.entitiesByBlueprint))
      ensures clashed
         <==> Clashes(Some(order), old(port.calls), old(collector.entitiesByBlueprint), old(cluster.wq.st).failures)
      ensures clashed ==> Stuck(acked, acked', clean')
      ensures FaultFree(port.server) && clean && !collector.hasErrors ==> clean'
      ensures collector.lastFlush == cluster.now
      ensures OneMore(port.server, limits, old(port.calls), old(flushes), port.calls, flushes)
    {
      hide Good, OneMore, Honest, FaultFree, NeverRefuses, FlushClashes, ClashLeft, Fuel;
      var r;
      r, clashed, s', order := FlushBatch(collector, s, Sees(collector, acked, clean), items);
      counter', acked', clean' := counter + r.requeued, acked + r.entities, clean && r.shouldDelete;
    }

    /** The collector is full or its timer has run out. */
    ghost predicate Due(collector: BatchCollector)
      reads cluster, collector
    {
      || EntityCount(collector.entitiesByBlueprint) >= collector.maxBatchSize
      || cluster.now - collector.lastFlush > collector.timeout
    }

    /** Whether a flush is due; with nothing deferred it can only be the timer. */
    method WantsFlush(collector: BatchCollector, ghost deferred: set<WorkItem>) returns (r: bool)
      requires collector.lastFlush <= cluster.now && collector.maxBatchSize > 0
      requires Holds(collector.entitiesByBlueprint, deferred)
      ensures r <==> Due(collector)
      ensures r && deferred == {} ==> collector.lastFlush < cluster.now
    {
      HoldsSources(collector.entitiesByBlueprint, deferred);
      r := collector.ShouldFlush(cluster.now);
    }

    /** The receive had nothing to wait for, and still has not. */
    ghost predicate Starved(s: Sync, s': Sync) {
      !CanReceive(s.w) && !CanReceive(s'.w) && s'.deferred == s.deferred
    }

    /** One turn of the loop: flush if the collector is full or its timer has run out, else pull one item. `order` is
        the blueprint order of the flush, if there was one. */
    method ProcessNext(collector: BatchCollector, counter: int, acked: set<string>, clean: bool,
                       ghost s: Sync, ghost items: set<WorkItem>)
      returns (counter': int, acked': set<string>, clean': bool, exit: Option<Exit>,
               ghost s': Sync, ghost order: Option<seq<string>>)
      requires Running(collector, s, acked, clean, items) && s.counter == counter
      requires Honest(port.server) && collector.maxBatchSize > 0
      modifies this, cluster, cluster.wq, port, collector
      ensures exit != Some(Idle)
      ensures exit != Some(Clashed) ==> Running(collector, s', acked', clean', items) && s'.counter == counter'
      ensures exit.None? ==>
        || Fuel(s'.w, s'.deferred, items) < Fuel(s.w, s.deferred, items)
        || (s' == s && old(collector.lastFlush) < collector.lastFlush)
      ensures exit == Some(ShutDownSeen) ==> cluster.wq.st.shuttingDown
      // it waits for good only if nothing is on its way, and then unless somebody shuts the queue down
      ensures exit == Some(Blocked) ==> Starved(s, s')
      ensures order.None? && !CanReceive(s.w) && !cluster.mayShutDown ==> exit == Some(Blocked)
      // so fewer entities than the batch size wait whenever an item is pulled
      ensures order.Some? <==> old(Due(collector))
      ensures s'.w.unarrived <= s.w.unarrived
      ensures Harmless(objects, items) && FaultFree(port.server) && old(clean && !collector.hasErrors)
          ==> clean' && !collector.hasErrors
      ensures Orders(order, old(collector.entitiesByBlueprint))
      ensures exit == Some(Clashed)
         <==> Clashes(order, old(port.calls), old(collector.entitiesByBlueprint), old(cluster.wq.st).failures)
      ensures exit == Some(Clashed) ==> Stuck(acked, acked', clean') && pulled == old(pulled)
      ensures OneMore(port.server, limits, old(port.calls), old(flushes), port.calls, flushes)
    {
      hide OneMore, Honest, FaultFree, NeverRefuses, FlushClashes, MoreMapped, ClashLeft, Fuel, Located, Tracked,
           OnlyMapped, Covers, Accounts;
      var shouldFlush := WantsFlush(collector, s.deferred);
      if shouldFlush {
        var clashed;
        ghost var visited;
        counter', acked', clean', clashed, s', visited := Flush(collector, counter, acked, clean, s, items);
        exit, order := if clashed then Some(Clashed) else None, Some(visited);
      } else {
        var diff;
        diff, exit, s' := PullOne(collector, acked, clean, s, items);
        counter', acked', clean', order := counter + diff, acked, clean, None;
        NoMore(port.server, limits, port.calls, flushes);
      }
    }

    /** Waits for an item and deals with it. */
    method PullOne(collector: BatchCollector, acked: set<string>, clean: bool, ghost s: Sync,
                   ghost items: set<WorkItem>)
      returns (diff: int, exit: Option<Exit>, ghost s': Sync)
      requires Running(collector, s, acked, clean, items)
      modifies this`pulled, cluster, cluster.wq, collector`entitiesByBlueprint, collector`hasErrors
      ensures exit.None? || exit.value.ShutDownSeen? || exit.value.Blocked?
      ensures Running(collector, s', acked, clean, items) && s'.counter == s.counter + diff
      ensures exit.None? ==> Fuel(s'.w, s'.deferred, items) < Fuel(s.w, s.deferred, items)
      ensures exit == Some(ShutDownSeen) ==> s'.w.q.shuttingDown
      ensures exit == Some(Blocked) ==> Starved(s, s')
      ensures !CanReceive(s.w) && !cluster.mayShutDown ==> exit == Some(Blocked)
      ensures s'.w.unarrived <= s.w.unarrived
      ensures collector.hasErrors ==> old(collector.hasErrors) || !Harmless(objects, items)
      ensures old(collector.hasErrors) ==> collector.hasErrors
    {
      diff, exit := 0, None;
      ghost var acts;
      var delivery;
      delivery, acts := cluster.Await(s);
      s' := s.(w := EnvRun(s.w, acts));
      EnvKeepsGood(objects, s, Sees(collector, acked, clean), items, acts);
      EnvRunBurnsNothing(s, acts, items);
      NothingUnarrives(s, acts);
      match delivery
      case None =>
        exit := Some(Blocked);
      case Some(Down) =>
        exit := Some(ShutDownSeen);
        DropDown(objects, s', Sees(collector, acked, clean), items);
        s' := s'.(w := s'.w.(slot := None));
      case Some(Got(x)) =>
        diff, s' := Consume(collector, x, acked, clean, s', items);
    }

    /** Deals with an item that has just been received: in the invariant's state `s` it is still in the channel. */
    method Consume(collector: BatchCollector, x: WorkItem, ghost acked: set<string>, ghost clean: bool, ghost s: Sync,
                   ghost items: set<WorkItem>)
      returns (diff: int, ghost s': Sync)
      requires Good(objects, s, Sees(collector, acked, clean), items)
      requires s.w.slot == Some(Got(x)) && cluster.W() == s.w.(slot := None)
      modifies this`pulled, cluster.wq, collector`entitiesByBlueprint, collector`hasErrors
      ensures s'.w == cluster.W() && Good(objects, s', Sees(collector, acked, clean), items)
      ensures s'.counter == s.counter + diff && s'.w.unarrived == s.w.unarrived
      ensures s'.w.q.shuttingDown == s.w.q.shuttingDown
      ensures Fuel(s'.w, s'.deferred, items) < Fuel(s.w, s.deferred, items)
      ensures collector.hasErrors ==> old(collector.hasErrors) || !Harmless(objects, items)
      ensures old(collector.hasErrors) ==> collector.hasErrors
    {
      ghost var p := Sees(collector, acked, clean);
      s' := PullStep(objects, s, p, items, x);
      PulledIsItem(objects, s, p, items, x);
      ghost var fate;
      diff, fate := ProcessWorkItem(collector, x);
      assert Sees(collector, acked, clean) == Absorb(p, s.w.q, x, objects(|p.pulled|, x));
    }

    /** The environment runs while the loop is between two of its own steps. */
    method Pause(collector: BatchCollector, ghost s: Sync, ghost acked: set<string>, ghost clean: bool,
                 ghost items: set<WorkItem>)
      returns (ghost acts: seq<EnvAct>, ghost s': Sync)
      requires Running(collector, s, acked, clean, items)
      modifies cluster, cluster.wq`st
      ensures s' == s.(w := EnvRun(s.w, acts)) && Running(collector, s', acked, clean, items)
      ensures Fuel(s'.w, s'.deferred, items) <= Fuel(s.w, s.deferred, items)
      ensures s'.w.unarrived <= s.w.unarrived && (s.w.synced ==> s'.w.synced)
      ensures CanReceive(s.w) ==> CanReceive(s'.w)
      ensures cluster.wq.st.failures == old(cluster.wq.st).failures
    {
      acts := cluster.Interfere();
      s' := s.(w := EnvRun(s.w, acts));
      EnvKeepsGood(objects, s, Sees(collector, acked, clean), items, acts);
      EnvRunBurnsNothing(s, acts, items);
      NothingUnarrives(s, acts);
      if CanReceive(s.w) {
        EnvRunKeepsComing(s, acts);
      }
    }

    /** The first half of the loop's guard, read piece by piece while the environment keeps running. When it says idle,
        `mid` is the state in which the queue's length was read, and `acts` what happened since. */
    method HasQueueWork(collector: BatchCollector, counter: int, ghost s: Sync, ghost acked: set<string>,
                        ghost clean: bool,
                        ghost items: set<WorkItem>)
      returns (busy: bool, ghost mid: Sync, ghost acts: seq<EnvAct>, ghost s': Sync)
      requires Running(collector, s, acked, clean, items) && s.counter == counter
      modifies cluster, cluster.wq`st
      ensures Running(collector, s', acked, clean, items)
      ensures s'.deferred == s.deferred && s'.counter == counter
      ensures Fuel(s'.w, s'.deferred, items) <= Fuel(s.w, s.deferred, items)
      ensures s'.w.unarrived <= mid.w.unarrived <= s.w.unarrived && Unpulled(mid.w.unarrived, pulled)
      ensures cluster.wq.st.failures == old(cluster.wq.st).failures
      ensures !busy ==>
        && s' == mid.(w := EnvRun(mid.w, acts)) && Inv(mid)
        && counter == 0 && mid.w.q.queue == [] && s'.w.synced && s'.w.slot.None?
      // if it says busy there is something to wait for, unless `HasSynced` lags behind the last arrival
      ensures busy ==> CanReceive(s'.w) || !cluster.prompt
    {
      ghost var acts0, s1;
      acts0, mid := Pause(collector, s, acked, clean, items);
      UnarrivedIsUnpulled(objects, mid, Sees(collector, acked, clean), items);
      acts, s' := [], mid;
      if counter > 0 || |cluster.wq.st.queue| > 0 {
        if counter > 0 {
          CountedIsComing(mid);
        }
        return true, mid, acts, s';
      }
      acts, s1 := Pause(collector, mid, acked, clean, items);
      s' := s1;
      if !cluster.synced {
        return true, mid, acts, s';
      }
      ghost var acts2;
      acts2, s' := Pause(collector, s1, acked, clean, items);
      EnvRunAppend(mid.w, acts, acts2);
      acts := acts + acts2;
      busy := cluster.slot.Some?;
    }

    /** Whether the queue and the channel look empty, read one after the other. */
    method QueueIdle(collector: BatchCollector, ghost s: Sync, ghost acked: set<string>, ghost clean: bool,
                     ghost items: set<WorkItem>)
      returns (idle: bool, ghost s': Sync)
      requires Running(collector, s, acked, clean, items)
      modifies cluster, cluster.wq`st
      ensures Running(collector, s', acked, clean, items)
      ensures s'.deferred == s.deferred && s'.counter == s.counter
      ensures Fuel(s'.w, s'.deferred, items) <= Fuel(s.w, s.deferred, items)
      ensures s'.w.unarrived <= s.w.unarrived
      ensures cluster.wq.st.failures == old(cluster.wq.st).failures
      ensures CanReceive(s.w) || !idle ==> CanReceive(s'.w)
    {
      ghost var acts, s1;
      acts, s1 := Pause(collector, s, acked, clean, items);
      s' := s1;
      if |cluster.wq.st.queue| > 0 {
        return false, s';
      }
      acts, s' := Pause(collector, s1, acked, clean, items);
      idle := cluster.slot.None?;
    }

    /** The state in which the model stops following a sync. */
    ghost predicate Stuck(acked: set<string>, acked': set<string>, clean': bool)
      reads this, cluster, cluster.wq
    {
      && ClashLeft(cluster.wq.st, pulled) && !OneKindOfFailure(port.server)
      && !clean' && MoreMapped(objects, pulled, acked, acked')
    }

    /** The body of the loop: flush what has piled up when nothing else is waiting, else take the next turn. */
    method Work(collector: BatchCollector, counter: int, acked: set<string>, clean: bool, hasBatchWork: bool,
                ghost s: Sync, ghost items: set<WorkItem>)
      returns (counter': int, acked': set<string>, clean': bool, exit: Option<Exit>,
               ghost s': Sync, ghost order: Option<seq<string>>)
      requires Running(collector, s, acked, clean, items) && s.counter == counter
      requires Honest(port.server) && collector.maxBatchSize > 0 && (hasBatchWork <==> s.deferred != {})
      modifies this, cluster, cluster.wq, port, collector
      ensures exit != Some(Idle)
      ensures exit != Some(Clashed) ==> Running(collector, s', acked', clean', items) && s'.counter == counter'
      ensures exit.None? ==>
        || Fuel(s'.w, s'.deferred, items) < Fuel(s.w, s.deferred, items)
        || (Fuel(s'.w, s'.deferred, items) <= Fuel(s.w, s.deferred, items)
            && old(collector.lastFlush) < collector.lastFlush)
      ensures exit == Some(ShutDownSeen) ==> cluster.wq.st.shuttingDown
      // it never waits for good while entities wait in the collector
      ensures exit == Some(Blocked) ==> Starved(s, s') && s'.deferred == {}
      ensures s'.w.unarrived <= s.w.unarrived
      ensures Orders(order, old(collector.entitiesByBlueprint))
      ensures exit == Some(Clashed)
         <==> Clashes(order, old(port.calls), old(collector.entitiesByBlueprint), old(cluster.wq.st).failures)
      ensures exit == Some(Clashed) ==> Stuck(acked, acked', clean') && pulled == old(pulled)
      ensures Harmless(objects, items) && FaultFree(port.server) && old(clean && !collector.hasErrors)
          ==> clean' && !collector.hasErrors
      ensures OneMore(port.server, limits, old(port.calls), old(flushes), port.calls, flushes)
    {
      hide Good, OneMore, Honest, FaultFree, NeverRefuses, FlushClashes, MoreMapped, ClashLeft, Fuel;
      var queueIdle;
      ghost var s1;
      queueIdle, s1 := QueueIdle(collector, s, acked, clean, items);
      if hasBatchWork && queueIdle {
        var clashed;
        ghost var visited;
        counter', acked', clean', clashed, s', visited := Flush(collector, counter, acked, clean, s1, items);
        exit, order := if clashed then Some(Clashed) else None, Some(visited);
      } else {
        counter', acked', clean', exit, s', order := ProcessNext(collector, counter, acked, clean, s1, items);
      }
    }

    /** One iteration of the loop: `exit` is set when the loop ends. `late` are the items that the informer had not
        added when the length of the queue was read, if the loop ends idle. */
    method Turn(collector: BatchCollector, counter: int, acked: set<string>, clean: bool, ghost s: Sync,
                ghost items: set<WorkItem>)
      returns (counter': int, acked': set<string>, clean': bool, exit: Option<Exit>,
               ghost late: set<WorkItem>, ghost s': Sync)
      requires Running(collector, s, acked, clean, items) && s.counter == counter
      requires Honest(port.server) && collector.maxBatchSize > 0
      modifies this, cluster, cluster.wq, port, collector
      ensures exit != Some(Clashed) ==> Running(collector, s', acked', clean', items) && s'.counter == counter'
      ensures exit.None? ==>
        || Fuel(s'.w, s'.deferred, items) < Fuel(s.w, s.deferred, items)
        || (Fuel(s'.w, s'.deferred, items) <= Fuel(s.w, s.deferred, items)
            && old(collector.lastFlush) < collector.lastFlush)
      ensures exit == Some(Idle) ==> s'.deferred == {} && Drained(s'.w, late)
      ensures exit == Some(ShutDownSeen) ==> cluster.wq.st.shuttingDown
      ensures exit == Some(Blocked) ==> !CanReceive(s'.w) && s'.deferred == {} && !cluster.prompt
      ensures s'.w.unarrived <= s.w.unarrived && late <= s.w.unarrived && Unpulled(late, pulled)
      ensures exit == Some(Clashed) ==> Stuck(acked, acked', clean') && pulled == old(pulled)
      ensures Harmless(objects, items) && FaultFree(port.server) && old(clean && !collector.hasErrors)
          ==> clean' && !collector.hasErrors
      ensures OneMore(port.server, limits, old(port.calls), old(flushes), port.calls, flushes)
    {
      counter', acked', clean', exit, late := counter, acked, clean, None, {};
      var hasQueueWork;
      ghost var mid, acts, s1;
      hasQueueWork, mid, acts, s1 := HasQueueWork(collector, counter, s, acked, clean, items);
      s' := s1;
      var hasBatchWork := collector.HasPending();
      PendingMeansDeferred(collector.entitiesByBlueprint, s1.deferred);
      if !hasQueueWork && !hasBatchWork {
        exit, late := Some(Idle), mid.w.unarrived;
        IdleIsDrained(mid, acts);
        NoMore(port.server, limits, port.calls, flushes);
        return;
      }
      ghost var order;
      counter', acked', clean', exit, s', order := Work(collector, counter, acked, clean, hasBatchWork, s1, items);
    }

    /** The initial sync. `items` are the work items the informer brings, `late` those of them that it had not yet added
        when the length of the queue was read for the last time. */
    method RunInitialSync(ghost items: set<WorkItem>) returns (r: SyncResult, exit: Exit, ghost late: set<WorkItem>)
      requires Fresh(items) && Honest(port.server) && limits.maxEntities > 0
      modifies this, cluster, cluster.wq, port
      // no item is pulled more often than its retry budget allows
      ensures forall x :: Pulls(pulled, x) <= MAX_NUM_REQUEUES + 1
      ensures !exit.Clashed? ==> forall x :: x in pulled ==> x in items
      // the requests made are those of its flushes; what is stored and what is safe follows from them and the pulls:
      // deletion counts as safe exactly if no pull marked an error and no flush failed, at any time
      ensures MadeBy(port.server, limits, old(port.calls), flushes, port.calls)
      ensures exit.Idle? || exit.ShutDownSeen? ==>
                && r.entities == AckedBy(flushes)
                && (r.shouldDelete <==> Unmarked(objects, pulled) && AllClean(flushes))
      // nothing is reported as stored that was not mapped
      ensures forall key :: key in r.entities ==> MappedKey(objects, pulled, key)
      // the idle exit leaves no retry, no delay and no deferred item behind
      ensures exit.Idle? ==> Drained(cluster.W(), late)
      // every item of the informer has been pulled, except exactly what slipped past the guard
      ensures exit.Idle? && !cluster.wq.st.shuttingDown ==>
                forall x :: x in items ==> (x in pulled <==> x !in Held(cluster.hand) && x !in late)
      // what came late was not there at the start and has not been pulled
      ensures late <= old(cluster.unarrived) && Unpulled(late, pulled)
      ensures old(cluster.unarrived) == {} && exit.Idle? && !cluster.wq.st.shuttingDown ==>
                forall x :: x in items ==> (x in pulled <==> x !in Held(cluster.hand))
      // the other three exits: somebody shut the queue down; an item was put back and forgotten; or everything was
      // done while `HasSynced` had yet to turn true, and the loop waits for an item that does not exist
      ensures exit.ShutDownSeen? ==> cluster.wq.st.shuttingDown
      ensures !exit.Clashed? && cluster.wq.st.shuttingDown ==> cluster.mayShutDown
      ensures exit.Clashed? ==> !r.shouldDelete && ClashLeft(cluster.wq.st, pulled)
      ensures OneKindOfFailure(port.server) ==> !exit.Clashed?
      ensures exit.Blocked? ==> !cluster.prompt && Finished(cluster.W()) && !r.shouldDelete
      ensures exit.Blocked? ==> forall x :: x in items ==> x in pulled
      // so without a shutdown, a clash or a lagging `HasSynced` the loop ends idle
      ensures cluster.prompt && !cluster.mayShutDown && OneKindOfFailure(port.server) ==> exit.Idle?
      // if stale entities may be deleted, every entity mapped from every pulled item has been stored
      ensures r.shouldDelete ==> AllStored(objects, pulled, r.entities)
      // and whether it may or not: an item is only let go of when everything mapped from it has been stored or refused
      // for good, or after five pulls, and it is pulled again only after a failed pull or flush
      ensures exit.Idle? || exit.Blocked? ==> AllResolved(objects, pulled, flushes, r.entities)
      ensures exit.Idle? || exit.Blocked? ==>
                forall x :: x in pulled ==> Conclusive(objects, pulled, x) || Pulls(pulled, x) == MAX_NUM_REQUEUES + 1
      ensures !exit.Clashed? ==> AgainForCause(objects, pulled, flushes)
      // after a shutdown, too, the last batch has been sent, and what it held is only given up where that failed
      ensures exit.ShutDownSeen? ==> Handled(objects, pulled, flushes, r.entities, cluster.wq.st)
      ensures !exit.Clashed? ==> OnlyPollerHolds(cluster.W())
      // if it may, each pulled item was mapped or found gone, exactly unless its lookups failed five times
      ensures exit.Idle? && r.shouldDelete ==> KnownUnlessGivenUp(objects, pulled)
      // nothing stands in the way of the deletion when nothing goes wrong
      ensures Harmless(objects, items) && FaultFree(port.server) ==>
                !exit.Clashed? && (exit.Blocked? || r.shouldDelete)
    {
      hide FaultFree, NeverRefuses, MadeBy, OneMore, ClashLeft, Located, Tracked, Covers, Harmless, AllStored,
           KnownUnlessGivenUp, Unmarked, AllClean, Drained, Finished, Serves, Handled, AllResolved, Resolved,
           AgainForCause, Conclusive, OnlyPollerHolds;
      var collector := new BatchCollector(limits.maxEntities * BLUEPRINT_BATCH_MULTIPLIER, timeout, cluster.now);
      var acked, clean;
      ghost var s;
      FaultFreeRefusesNothing(port.server);
      acked, clean, exit, late, s := DrainQueue(collector, items);
      if !exit.Clashed? {
        if exit.Idle? {
          IdleConclusions(objects, s, Sees(collector, acked, clean), items, late);
        } else if exit.Blocked? {
          BlockedConclusions(objects, s, Sees(collector, acked, clean), items);
        }
        ghost var calls, before := port.calls, flushes;
        acked, clean := FlushRemaining(collector, acked, clean, s, items);
        MadeByOneMore(port.server, limits, old(port.calls), before, calls, port.calls, flushes);
      }
      r := SyncResult(acked, clean && !collector.hasErrors && !exit.Blocked?, 0);
    }

    /** The loop of the initial sync. */
    method DrainQueue(collector: BatchCollector, ghost items: set<WorkItem>)
      returns (acked: set<string>, clean: bool, exit: Exit, ghost late: set<WorkItem>, ghost s: Sync)
      requires Fresh(items) && Honest(port.server)
      requires collector.maxBatchSize == 5 * limits.maxEntities > 0 && collector.timeout == timeout
      requires collector.entitiesByBlueprint == map[] && !collector.hasErrors && collector.lastFlush == cluster.now
      modifies this, cluster, cluster.wq, port, collector
      ensures exit != Clashed ==> Running(collector, s, acked, clean, items)
      ensures exit == Idle ==> s.deferred == {} && Drained(s.w, late)
      ensures exit == ShutDownSeen ==> cluster.wq.st.shuttingDown
      ensures exit == Blocked ==> !CanReceive(s.w) && s.deferred == {} && !cluster.prompt
      ensures MadeBy(port.server, limits, old(port.calls), flushes, port.calls)
      ensures exit == Clashed ==> !clean && ClashLeft(cluster.wq.st, pulled) && !OneKindOfFailure(port.server)
      ensures late <= old(cluster.unarrived) && Unpulled(late, pulled)
      ensures Harmless(objects, items) && FaultFree(port.server) ==> clean && !collector.hasErrors
      ensures forall key :: key in acked ==> MappedKey(objects, pulled, key)
      ensures forall x :: Pulls(pulled, x) <= MAX_NUM_REQUEUES + 1
    {
      acked, clean, late := {}, true, {};
      s := Sync(cluster.W(), {}, 0, 0);
      StartIsGood(objects, s, items);
      var counter := 0;
      var ended: Option<Exit> := None;
      while ended.None?
        invariant ended != Some(Clashed) ==> Running(collector, s, acked, clean, items) && s.counter == counter
        invariant ended == Some(Idle) ==> s.deferred == {} && Drained(s.w, late)
        invariant ended == Some(ShutDownSeen) ==> cluster.wq.st.shuttingDown
        invariant ended == Some(Blocked) ==> !CanReceive(s.w) && s.deferred == {} && !cluster.prompt
        invariant MadeBy(port.server, limits, old(port.calls), flushes, port.calls)
        invariant ended == Some(Clashed) ==>
                    !clean && ClashLeft(cluster.wq.st, pulled) && !OneKindOfFailure(port.server)
        invariant s.w.unarrived <= old(cluster.unarrived) && late <= old(cluster.unarrived) && Unpulled(late, pulled)
        invariant Harmless(objects, items) && FaultFree(port.server) ==> clean && !collector.hasErrors
        invariant forall key :: key in acked ==> MappedKey(objects, pulled, key)
        invariant forall x :: Pulls(pulled, x) <= MAX_NUM_REQUEUES + 1
        decreases ended.None?, Fuel(s.w, s.deferred, items), cluster.horizon - collector.lastFlush
      {
        ghost var calls, before := port.calls, flushes;
        counter, acked, clean, ended, late, s := Turn(collector, counter, acked, clean, s, items);
        MadeByOneMore(port.server, limits, old(port.calls), before, calls, port.calls, flushes);
        if ended != Some(Clashed) {
          PullsBounded(objects, s, Sees(collector, acked, clean), items);
        }
      }
      exit := ended.value;
    }

    /** The flush after a loop that was shut down: nothing is put back any more. */
    method FlushRemaining(collector: BatchCollector, acked: set<string>, clean: bool, ghost s: Sync,
                          ghost items: set<WorkItem>)
      returns (acked': set<string>, clean': bool)
      requires Running(collector, s, acked, clean, items) && Honest(port.server)
      modifies this`flushes, collector`entitiesByBlueprint, collector`lastFlush, port, cluster.wq
      ensures MoreMapped(objects, pulled, acked, acked')
      ensures clean' ==> clean
      ensures FaultFree(port.server) && clean && !collector.hasErrors ==> clean'
      ensures collector.hasErrors == old(collector.hasErrors)
      ensures clean' && !collector.hasErrors ==> AllStored(objects, pulled, acked')
      ensures OneMore(port.server, limits, old(port.calls), old(flushes), port.calls, flushes)
      ensures acked' == AckedBy(flushes)
      ensures clean' && !collector.hasErrors <==> Unmarked(objects, pulled) && AllClean(flushes)
      ensures Handled(objects, pulled, flushes, acked', cluster.wq.st) && AgainForCause(objects, pulled, flushes)
      ensures OnlyPollerHolds(cluster.W())
      ensures s.deferred == {} ==> acked' == acked && flushes == old(flushes)
      ensures cluster.wq.st
           == if s.deferred == {} then old(cluster.wq.st) else Completed(old(cluster.wq.st), s.deferred)
    {
      hide Good, OneMore, AllStored, AllClean, Unmarked, Honest, FaultFree, MappedKey, Completed, SettleEach, LogOf,
           IsOrderOf, AckedBy;
      var pending := collector.HasPending();
      WhatIsLeft(objects, s, Sees(collector, acked, clean), items);
      if !pending {
        NoMore(port.server, limits, port.calls, flushes);
        return acked, clean;
      }
      ghost var p, calls := Sees(collector, acked, clean), port.calls;
      var r, forgotten;
      ghost var order, dones;
      r, forgotten, order, dones := collector.ProcessBatch(port, cluster.wq, limits, cluster.now, false);
      acked', clean' := acked + r.entities, clean && r.shouldDelete;
      ghost var t := LastFlush(objects, port.server, limits, s, p, items, calls, order, dones);
      OneFlush(port.server, limits, calls, flushes, t, port.calls);
      flushes := flushes + [t];
    }
  }

  /** Nothing is queued, delayed, remembered or in the channel; only the poller may hold something. */
  ghost predicate Quiet(w: World) {
    && w.q.queue == [] && w.q.delayed == {} && w.q.failures == map[] && w.slot.None?
    && forall x :: Outstanding(w.q, x) ==> x in Held(w.hand)
  }

  /** No item is being processed but those in the poller's hand or the channel. */
  ghost predicate OnlyPollerHolds(w: World) {
    forall x :: x in w.q.processing ==> x in Held(w.slot) || x in Held(w.hand)
  }

  /** Since the world was last quiet, with just these items still to come, only the environment has acted. */
  ghost predicate CameLate(late: set<WorkItem>, w: World) {
    exists mid: World, acts :: Quiet(mid) && mid.unarrived == late && w == EnvRun(mid, acts)
  }

  /** Nothing outstanding but the poller's hand and late arrivals. */
  ghost predicate Drained(w: World, late: set<WorkItem>) {
    && w.q.delayed == {} && w.q.failures == map[] && w.unarrived == {} && w.slot.None?
    && CameLate(late, w)
    && forall x :: Outstanding(w.q, x) ==> x in Held(w.hand) || x in late
  }

  lemma IdleWasQuiet(mid: Sync, acts: seq<EnvAct>)
    requires Inv(mid)
    requires mid.counter == 0 && mid.w.q.queue == [] && mid.deferred == {} && EnvRun(mid.w, acts).slot.None?
    ensures CameLate(mid.w.unarrived, EnvRun(mid.w, acts))
  {
    NoRetriesLeft(mid);
    EnvRunFrame(mid, acts);
    forall x | Outstanding(mid.w.q, x) ensures x in Held(mid.w.hand) {
      assert ItemOK(mid, x);
    }
    assert Quiet(mid.w);
  }

  lemma IdleIsDrained(mid: Sync, acts: seq<EnvAct>)
    requires Inv(mid)
    requires mid.counter == 0 && mid.w.q.queue == [] && mid.deferred == {}
    requires EnvRun(mid.w, acts).synced && EnvRun(mid.w, acts).slot.None?
    ensures Drained(EnvRun(mid.w, acts), mid.w.unarrived)
  {
    var any: WorkItem :| true;
    IdleWasQuiet(mid, acts);
    IdleMeansDrained(mid, acts, any);
    forall x | Outstanding(EnvRun(mid.w, acts).q, x)
      ensures x in Held(EnvRun(mid.w, acts).hand) || x in mid.w.unarrived
    {
      IdleMeansDrained(mid, acts, x);
    }
  }

  /** Nothing but mapped keys has been added. */
  ghost predicate MoreMapped(objects: Objects, pulled: seq<WorkItem>, acked: set<string>, acked': set<string>) {
    forall key :: key in acked' ==> key in acked || MappedKey(objects, pulled, key)
  }

  lemma PullsBounded(objects: Objects, s: Sync, p: Progress, items: set<WorkItem>)
    requires Good(objects, s, p, items)
    ensures forall x :: Pulls(p.pulled, x) <= MAX_NUM_REQUEUES + 1
    ensures forall key :: key in p.acked ==> MappedKey(objects, p.pulled, key)
  {
    forall x ensures Pulls(p.pulled, x) <= MAX_NUM_REQUEUES + 1 {
      assert ItemTracked(objects, s, p, items, x);
    }
  }

  lemma PendingMeansDeferred(batch: Batch, deferred: set<WorkItem>)
    requires Holds(batch, deferred)
    ensures (exists bp :: bp in batch && batch[bp] != []) <==> deferred != {}
    ensures deferred == {} ==> batch == map[]
  {
    HoldsSources(batch, deferred);
    if batch != map[] {
      var bp :| bp in batch;
      assert batch[bp] != [];
    }
  }

  lemma StartIsGood(objects: Objects, s: Sync, items: set<WorkItem>)
    requires s == Sync(s.w, {}, 0, 0) && s.w.slot.None? && s.w.hand.None?
    requires s.w.synced ==> s.w.unarrived == {}
    requires Distinct(s.w.q.queue) && forall x :: x in s.w.q.queue <==> x in s.w.q.dirty
    requires s.w.q.processing == {} && s.w.q.delayed == {} && s.w.q.failures == map[]
    requires s.w.unarrived !! s.w.q.dirty && items == s.w.unarrived + s.w.q.dirty
    ensures Good(objects, s, Progress(map[], true, {}, [], []), items)
  {
    assert s.w.q.failures.Keys - s.deferred == {};
    forall x ensures ItemOK(s, x) && ItemTracked(objects, s, Progress(map[], true, {}, [], []), items, x) {
    }
  }

  /** Dealt with for good without anything being known about it: each of the item's five lookups failed. */
  ghost predicate GivenUp(objects: Objects, pulled: seq<WorkItem>, x: WorkItem) {
    x.EventItem? && Pulls(pulled, x) == MAX_NUM_REQUEUES + 1 && LookupsFailed(objects, pulled, x)
  }

  /** Each pulled item was mapped or found gone, exactly unless its lookups failed five times. */
  ghost predicate KnownUnlessGivenUp(objects: Objects, pulled: seq<WorkItem>) {
    forall x :: x in pulled ==> (Conclusive(objects, pulled, x) <==> !GivenUp(objects, pulled, x))
  }

  lemma HeldIsUnpulled(objects: Objects, s: Sync, p: Progress, items: set<WorkItem>, x: WorkItem)
    requires Good(objects, s, p, items) && s.w.q.failures == map[] && x in Held(s.w.hand)
    ensures x !in p.pulled
  {
    assert ItemTracked(objects, s, p, items, x) && Pending(s.w, x);
  }

  lemma ConclusiveIffNotGivenUp(objects: Objects, s: Sync, p: Progress, items: set<WorkItem>, x: WorkItem)
    requires Good(objects, s, p, items) && p.ok && x in p.pulled && !Outstanding(s.w.q, x)
    ensures Conclusive(objects, p.pulled, x) <==> !GivenUp(objects, p.pulled, x)
  {
    assert ItemTracked(objects, s, p, items, x);
    InconclusiveIffLookupsFailed(objects, p.pulled, x);
  }

  lemma AllLetGo(objects: Objects, s: Sync, p: Progress, items: set<WorkItem>)
    requires Good(objects, s, p, items) && forall x :: x in p.pulled ==> !Outstanding(s.w.q, x)
    ensures AllResolved(objects, p.pulled, p.flushes, p.acked)
    ensures forall x :: x in p.pulled ==> Conclusive(objects, p.pulled, x) || Pulls(p.pulled, x) == MAX_NUM_REQUEUES + 1
  {
    forall x | x in p.pulled
      ensures Resolved(objects, p.pulled, p.flushes, p.acked, x)
      ensures Conclusive(objects, p.pulled, x) || Pulls(p.pulled, x) == MAX_NUM_REQUEUES + 1
    {
      assert ItemServed(objects, s, p, x) && ItemTracked(objects, s, p, items, x);
    }
  }

  /** What the invariant says once the batch is empty and nothing is outstanding. */
  lemma IdleConclusions(objects: Objects, s: Sync, p: Progress, items: set<WorkItem>, late: set<WorkItem>)
    requires Good(objects, s, p, items) && Drained(s.w, late) && Unpulled(late, p.pulled)
    ensures !s.w.q.shuttingDown ==>
              forall x :: x in items ==> (x in p.pulled <==> x !in Held(s.w.hand) && x !in late)
    ensures p.ok ==> KnownUnlessGivenUp(objects, p.pulled)
    ensures AllResolved(objects, p.pulled, p.flushes, p.acked)
    ensures forall x :: x in p.pulled ==> Conclusive(objects, p.pulled, x) || Pulls(p.pulled, x) == MAX_NUM_REQUEUES + 1
  {
    forall x | x in Held(s.w.hand) ensures x !in p.pulled {
      HeldIsUnpulled(objects, s, p, items, x);
    }
    forall x | x in items && !s.w.q.shuttingDown ensures x in p.pulled <==> x !in Held(s.w.hand) && x !in late {
      assert ItemTracked(objects, s, p, items, x);
    }
    forall x | x in p.pulled ensures !Outstanding(s.w.q, x) {
    }
    AllLetGo(objects, s, p, items);
    if p.ok {
      forall x | x in p.pulled ensures Conclusive(objects, p.pulled, x) <==> !GivenUp(objects, p.pulled, x) {
        ConclusiveIffNotGivenUp(objects, s, p, items, x);
      }
    }
  }

  /** Nothing is in the channel or on its way, and nothing is left to do. */
  ghost predicate Finished(w: World) {
    !CanReceive(w) && forall x :: !Outstanding(w.q, x)
  }

  lemma BlockedConclusions(objects: Objects, s: Sync, p: Progress, items: set<WorkItem>)
    requires Good(objects, s, p, items) && !CanReceive(s.w) && s.deferred == {}
    ensures Finished(s.w)
    ensures forall x :: x in items ==> x in p.pulled
    ensures AllResolved(objects, p.pulled, p.flushes, p.acked)
    ensures forall x :: x in p.pulled ==> Conclusive(objects, p.pulled, x) || Pulls(p.pulled, x) == MAX_NUM_REQUEUES + 1
  {
    forall x ensures !Outstanding(s.w.q, x) && x !in s.w.unarrived {
      NothingComesMeansFinished(s, x);
    }
    AllLetGo(objects, s, p, items);
    forall x | x in items ensures x in p.pulled {
      assert ItemTracked(objects, s, p, items, x);
    }
  }

  /** Every entity mapped from every pulled item is in the set. */
  ghost predicate AllStored(objects: Objects, pulled: seq<WorkItem>, stored: set<string>) {
    forall i: nat, e :: i < |pulled| && e in EntitiesAt(objects, pulled, i) ==> RequestKey(e) in stored
  }

  lemma EmptyBatchStored(objects: Objects, p: Progress)
    requires p.batch == map[] && (p.ok ==> Covers(objects, p))
    ensures p.ok ==> AllStored(objects, p.pulled, p.acked)
  {
    if p.ok {
      forall i: nat, e | i < |p.pulled| && e in EntitiesAt(objects, p.pulled, i) ensures RequestKey(e) in p.acked {
        assert Safe(p, e, p.pulled[i]);
      }
    }
  }

  /** What the invariant says when the loop has ended, before the last flush. */
  lemma WhatIsLeft(objects: Objects, s: Sync, p: Progress, items: set<WorkItem>)
    requires Good(objects, s, p, items)
    ensures (exists bp :: bp in p.batch && p.batch[bp] != []) <==> s.deferred != {}
    ensures p.acked == AckedBy(p.flushes)
    ensures p.ok <==> Unmarked(objects, p.pulled) && AllClean(p.flushes)
    ensures s.deferred == {} && p.ok ==> AllStored(objects, p.pulled, p.acked)
    ensures s.deferred == {} ==> Handled(objects, p.pulled, p.flushes, p.acked, s.w.q) && OnlyPollerHolds(s.w)
    ensures AgainForCause(objects, p.pulled, p.flushes)
  {
    PendingMeansDeferred(p.batch, s.deferred);
    if s.deferred == {} {
      EmptyBatchStored(objects, p);
      forall x | x in p.pulled && !Outstanding(s.w.q, x)
        ensures Resolved(objects, p.pulled, p.flushes, p.acked, x)
      {
        assert ItemServed(objects, s, p, x);
      }
      forall x | x in s.w.q.processing ensures x in Held(s.w.slot) || x in Held(s.w.hand) {
        assert ItemOK(s, x);
      }
    }
  }

  /** Without putting items back, settling finishes each of them. */
  lemma SettledForGood(q: QueueState, all: set<WorkItem>, failed: set<WorkItem>, permanent: set<WorkItem>)
    requires failed + permanent <= all
    ensures Settled(q, all, failed, permanent, false) == Completed(q, all)
  {
    assert all + failed + permanent == all;
    assert Settled(q, all, failed, permanent, false).failures == q.failures - all;
  }

  lemma LastSettling(s: Sync, dones: DoneCalls, failed: set<WorkItem>, permanent: set<WorkItem>)
    requires Inv(s) && failed + permanent <= s.deferred && dones.For(s.deferred, failed, permanent)
    ensures SettleEach(s.w.q, dones, false) == (Completed(s.w.q, s.deferred), 0)
  {
    SettleEachSettles(s.w.q, dones, s.deferred, failed, permanent, false);
    SettledForGood(s.w.q, s.deferred, failed, permanent);
    assert s.deferred + failed + permanent == s.deferred;
    forall x | x in s.deferred ensures x !in s.w.q.dirty {
      assert ItemOK(s, x);
    }
  }

  /** The flush after the loop has been shut down stores only mapped entities, too, and finishes every deferred item. */
  lemma LastFlush(objects: Objects, server: Server, limits: BulkLimits, s: Sync, p: Progress, items: set<WorkItem>,
                  calls: nat, order: seq<string>, dones: DoneCalls)
    returns (t: Tally)
    requires Good(objects, s, p, items) && Honest(server)
    requires IsOrderOf(order, p.batch.Keys)
    requires var t := TallyOf(LogOf(server, calls, Chunked(order, p.batch, limits)).0);
             dones.For(BatchSources(p.batch), t.failed, t.permanent)
    ensures t == TallyOf(LogOf(server, calls, Chunked(order, p.batch, limits)).0)
    ensures IsFlush(server, limits, calls, t, LogOf(server, calls, Chunked(order, p.batch, limits)).1)
    ensures p.acked + t.acked == AckedBy(p.flushes + [t])
    ensures p.ok && t.clean <==> Unmarked(objects, p.pulled) && AllClean(p.flushes + [t])
    ensures p.ok && t.clean ==> AllStored(objects, p.pulled, p.acked + t.acked)
    ensures forall key :: key in t.acked ==> MappedKey(objects, p.pulled, key)
    ensures FaultFree(server) ==> t.clean
    ensures SettleEach(s.w.q, dones, false) == (Completed(s.w.q, s.deferred), 0)
    ensures Handled(objects, p.pulled, p.flushes + [t], p.acked + t.acked, Completed(s.w.q, s.deferred))
    ensures AgainForCause(objects, p.pulled, p.flushes + [t])
    ensures OnlyPollerHolds(s.w.(q := Completed(s.w.q, s.deferred)))
  {
    t := TallyOf(LogOf(server, calls, Chunked(order, p.batch, limits)).0);
    forall x | x in Completed(s.w.q, s.deferred).processing ensures x in Held(s.w.slot) || x in Held(s.w.hand) {
      assert ItemOK(s, x);
    }
    HoldsSources(p.batch, s.deferred);
    FlushFacts(server, calls, order, p.batch, limits, s.deferred);
    LastSettling(s, dones, t.failed, t.permanent);
    DrainKeepsKeys(objects, p, s.deferred, t);
    DrainKeepsAccounts(objects, p, t);
    DrainKeepsCauses(objects, p, t);
    LastDrainHandles(objects, s, p, items, t);
    EmptyBatchStored(objects, Drain(p, t));
    assert FlushGives(server, limits, calls, order, p.batch, t,
                      LogOf(server, calls, Chunked(order, p.batch, limits)).1);
    if FaultFree(server) {
      FaultFreeFlushIsClean(server, calls, Chunked(order, p.batch, limits));
    }
  }

  /** No pull of one of the items makes the sync mark an error. */
  ghost predicate Harmless(objects: Objects, items: set<WorkItem>) {
    forall n, x :: x in items ==> !MarksError(x, objects(n, x))
  }

  /** None of these items has been pulled. */
  ghost predicate Unpulled(late: set<WorkItem>, pulled: seq<WorkItem>) {
    forall x :: x in late ==> x !in pulled
  }

  lemma UnarrivedIsUnpulled(objects: Objects, s: Sync, p: Progress, items: set<WorkItem>)
    requires Good(objects, s, p, items)
    ensures Unpulled(s.w.unarrived, p.pulled)
  {
    forall x | x in s.w.unarrived ensures x !in p.pulled {
      assert ItemTracked(objects, s, p, items, x);
    }
  }

  lemma NothingUnarrives(s: Sync, acts: seq<EnvAct>)
    requires Inv(s)
    ensures EnvRun(s.w, acts).unarrived <= s.w.unarrived
    ensures s.w.synced ==> EnvRun(s.w, acts).synced
    ensures EnvRun(s.w, acts).q.failures == s.w.q.failures
  {
    EnvRunFrame(s, acts);
    forall x | x in EnvRun(s.w, acts).unarrived ensures x in s.w.unarrived {
      assert ItemFrame(s.w, EnvRun(s.w, acts), x);
    }
  }

  // ---- clashing flushes ----

  /** Some item with retries left is in both failure maps. */
  ghost predicate InBoth(failures: map<WorkItem, nat>, failed: set<WorkItem>, permanent: set<WorkItem>) {
    exists x :: x in failed && x in permanent && (x in failures ==> failures[x] < MAX_NUM_REQUEUES)
  }

  ghost predicate Orders(order: Option<seq<string>>, batch: Batch) {
    order.Some? ==> IsOrderOf(order.value, batch.Keys)
  }

  /** In this flush some item that has retries left gets a retryable failure and keeps a permanent one. */
  ghost predicate FlushClashes(server: Server, calls: nat, order: seq<string>, batch: Batch, limits: BulkLimits,
                               failures: map<WorkItem, nat>)
    requires forall bp :: bp in order ==> bp in batch
  {
    var t := TallyOf(LogOf(server, calls, Chunked(order, batch, limits)).0);
    InBoth(failures, t.failed, t.permanent)
  }

  lemma ClashesIff(q: QueueState, failed: set<WorkItem>, permanent: set<WorkItem>)
    ensures Requeued(q, failed, true) * permanent != {} <==> InBoth(q.failures, failed, permanent)
  {
    if x :| x in failed && x in permanent && (x in q.failures ==> q.failures[x] < MAX_NUM_REQUEUES) {
      assert x in Requeued(q, failed, true) * permanent;
    }
    if Requeued(q, failed, true) * permanent != {} {
      var x :| x in Requeued(q, failed, true) * permanent;
    }
  }

  /** What a clash leaves: an item that was pulled, is not being processed and has no failure counted, and yet waits for
      its back-off, unless the queue takes nothing back any more. */
  ghost predicate ClashLeft(q: QueueState, pulled: seq<WorkItem>) {
    exists x :: x in pulled && x !in q.processing && x !in q.failures && (x in q.delayed || q.shuttingDown)
  }

  lemma ClashLeaves(objects: Objects, s: Sync, p: Progress, items: set<WorkItem>, t: Tally)
    requires Good(objects, s, p, items) && t.failed + t.permanent <= s.deferred
    requires Requeued(s.w.q, t.failed, true) * t.permanent != {}
    ensures ClashLeft(Flushed(s, t.failed, t.permanent).w.q, p.pulled)
  {
    var x :| x in Requeued(s.w.q, t.failed, true) * t.permanent;
    assert ItemTracked(objects, s, p, items, x);
    assert Pulls(p.pulled, x) > 0 && x in p.pulled;
  }

  lemma FaultFreeRefusesNothing(server: Server)
    ensures FaultFree(server) ==> OneKindOfFailure(server)
  {
  }

  lemma SettledAsFlushed(s: Sync, dones: DoneCalls, t: Tally)
    requires Inv(s) && t.failed + t.permanent <= s.deferred && dones.For(s.deferred, t.failed, t.permanent)
    ensures SettleEach(s.w.q, dones, true)
         == (Flushed(s, t.failed, t.permanent).w.q, |Requeued(s.w.q, t.failed, true)|)
  {
    SettleEachSettles(s.w.q, dones, s.deferred, t.failed, t.permanent, true);
    assert s.deferred + t.failed + t.permanent == s.deferred;
    forall x | x in s.deferred ensures x !in s.w.q.dirty {
      assert ItemOK(s, x);
    }
  }

  /** The loop's flush on values: what it turns the state into. */
  lemma FlushStep(objects: Objects, server: Server, limits: BulkLimits, s: Sync, p: Progress,
                  calls: nat, order: seq<string>, dones: DoneCalls)
    returns (t: Tally)
    requires Inv(s) && Holds(p.batch, s.deferred) && OnlyMapped(objects, p) && Honest(server)
    requires IsOrderOf(order, p.batch.Keys)
    requires var t := TallyOf(LogOf(server, calls, Chunked(order, p.batch, limits)).0);
             dones.For(BatchSources(p.batch), t.failed, t.permanent)
    ensures t == TallyOf(LogOf(server, calls, Chunked(order, p.batch, limits)).0)
    ensures FlushedBatch(p.batch, s.deferred, t)
    ensures SettleEach(s.w.q, dones, true)
         == (Flushed(s, t.failed, t.permanent).w.q, |Requeued(s.w.q, t.failed, true)|)
    ensures FaultFree(server) ==> t.clean
    ensures forall key :: key in t.acked ==> MappedKey(objects, p.pulled, key)
  {
    t := TallyOf(LogOf(server, calls, Chunked(order, p.batch, limits)).0);
    HoldsSources(p.batch, s.deferred);
    FlushFacts(server, calls, order, p.batch, limits, s.deferred);
    SettledAsFlushed(s, dones, t);
    if FaultFree(server) {
      FaultFreeFlushIsClean(server, calls, Chunked(order, p.batch, limits));
    }
  }

  lemma FlushStepBurns(objects: Objects, s: Sync, p: Progress, items: set<WorkItem>, t: Tally)
    requires Good(objects, s, p, items) && t.failed + t.permanent <= s.deferred && s.deferred != {}
    requires Requeued(s.w.q, t.failed, true) * t.permanent == {}
    ensures Fuel(Flushed(s, t.failed, t.permanent).w, {}, items) < Fuel(s.w, s.deferred, items)
  {
    DeferredAreItems(objects, s, p, items);
    FlushedBurns(s, t.failed, t.permanent, items);
  }

  /** Unless it clashes, the loop's invariant survives a flush, and some item becomes lighter if the batch was not
      empty. */
  lemma FlushStepKeepsGood(objects: Objects, s: Sync, p: Progress, items: set<WorkItem>, t: Tally, dones: DoneCalls)
    returns (s': Sync)
    requires Good(objects, s, p, items) && FlushedBatch(p.batch, s.deferred, t)
    requires SettleEach(s.w.q, dones, true)
          == (Flushed(s, t.failed, t.permanent).w.q, |Requeued(s.w.q, t.failed, true)|)
    ensures s'.w == s.w.(q := SettleEach(s.w.q, dones, true).0) && s'.deferred == {}
    ensures s'.counter == s.counter + SettleEach(s.w.q, dones, true).1
    ensures s'.w.q.shuttingDown == s.w.q.shuttingDown
    ensures Requeued(s.w.q, t.failed, true) * t.permanent == {} ==> Good(objects, s', Drain(p, t), items)
    ensures Requeued(s.w.q, t.failed, true) * t.permanent == {} && s.deferred != {} ==>
              Fuel(s'.w, {}, items) < Fuel(s.w, s.deferred, items)
    ensures s.deferred == {} ==> s' == s && Requeued(s.w.q, t.failed, true) * t.permanent == {}
  {
    s' := Flushed(s, t.failed, t.permanent);
    if s.deferred == {} {
      EmptyFlush(s, t);
    }
    if Requeued(s.w.q, t.failed, true) * t.permanent == {} {
      DrainKeepsGood(objects, s, p, items, t);
      if s.deferred != {} {
        FlushStepBurns(objects, s, p, items, t);
      }
    }
  }

  lemma FlushOnce(objects: Objects, server: Server, limits: BulkLimits, s: Sync, p: Progress, items: set<WorkItem>,
                  calls: nat, order: seq<string>, dones: DoneCalls)
    returns (s': Sync, t: Tally)
    requires Good(objects, s, p, items) && Honest(server)
    requires IsOrderOf(order, p.batch.Keys)
    requires var t := TallyOf(LogOf(server, calls, Chunked(order, p.batch, limits)).0);
             dones.For(BatchSources(p.batch), t.failed, t.permanent)
    ensures t == TallyOf(LogOf(server, calls, Chunked(order, p.batch, limits)).0)
    ensures s'.w == s.w.(q := SettleEach(s.w.q, dones, true).0) && s'.deferred == {}
    ensures s'.counter == s.counter + SettleEach(s.w.q, dones, true).1
    ensures s'.w.q.shuttingDown == s.w.q.shuttingDown
    ensures Requeued(s.w.q, t.failed, true) * t.permanent == {} ==> Good(objects, s', Drain(p, t), items)
    ensures Requeued(s.w.q, t.failed, true) * t.permanent == {} && s.deferred != {} ==>
              Fuel(s'.w, {}, items) < Fuel(s.w, s.deferred, items)
    ensures s.deferred == {} ==> s' == s && Requeued(s.w.q, t.failed, true) * t.permanent == {}
    ensures Requeued(s.w.q, t.failed, true) * t.permanent != {} ==>
              ClashLeft(SettleEach(s.w.q, dones, true).0, p.pulled)
    ensures Requeued(s.w.q, t.failed, true) * t.permanent != {}
       <==> FlushClashes(server, calls, order, p.batch, limits, s.w.q.failures)
    ensures OneKindOfFailure(server) ==> Requeued(s.w.q, t.failed, true) * t.permanent == {}
    ensures t.clean ==> t.permanent == {}
    ensures FaultFree(server) ==> t.clean
    ensures forall key :: key in t.acked ==> MappedKey(objects, p.pulled, key)
  {
    t := FlushStep(objects, server, limits, s, p, calls, order, dones);
    s' := FlushStepKeepsGood(objects, s, p, items, t, dones);
    ClashesIff(s.w.q, t.failed, t.permanent);
    if NeverRefuses(server) {
      NoRefusalsNoPermanents(server, calls, Chunked(order, p.batch, limits));
    } else if UpsertsSucceed(server) {
      UpsertsLeaveNoFailures(server, calls, Chunked(order, p.batch, limits));
    }
    if Requeued(s.w.q, t.failed, true) * t.permanent != {} {
      ClashLeaves(objects, s, p, items, t);
    }
  }

  /** The loop's pull on values. */
  lemma PullStep(objects: Objects, s: Sync, p: Progress, items: set<WorkItem>, x: WorkItem) returns (s': Sync)
    requires Good(objects, s, p, items) && s.w.slot == Some(Got(x))
    ensures s' == Consumed(s, x, FateOf(s.w.q, x, objects(|p.pulled|, x)))
    ensures s'.w.q.shuttingDown == s.w.q.shuttingDown
    ensures Good(objects, s', Absorb(p, s.w.q, x, objects(|p.pulled|, x)), items)
    ensures Fuel(s'.w, s'.deferred, items) < Fuel(s.w, s.deferred, items)
  {
    var fate := FateOf(s.w.q, x, objects(|p.pulled|, x));
    s' := Consumed(s, x, fate);
    AbsorbKeepsGood(objects, s, p, items, x);
    PulledIsItem(objects, s, p, items, x);
    ConsumedBurns(s, x, fate, items);
  }

  lemma EmptyFlush(s: Sync, t: Tally)
    requires s.deferred == {} && t.failed + t.permanent <= s.deferred
    ensures t.failed == {} && t.permanent == {} && Flushed(s, t.failed, t.permanent) == s
  {
    assert t.failed + t.permanent == {};
    SettledNothing(s.w.q, true);
    assert {} + s.deferred == {};
  }

  lemma DeferredAreItems(objects: Objects, s: Sync, p: Progress, items: set<WorkItem>)
    requires Good(objects, s, p, items)
    ensures s.deferred <= items
  {
    forall x | x in s.deferred ensures x in items {
      assert ItemTracked(objects, s, p, items, x);
    }
  }

  lemma PulledIsItem(objects: Objects, s: Sync, p: Progress, items: set<WorkItem>, x: WorkItem)
    requires Good(objects, s, p, items) && s.w.slot == Some(Got(x))
    ensures x in items
    ensures forall outcome :: FateOf(s.w.q, x, outcome).Requeue? ==> s.w.q.NumRequeues(x) < MAX_NUM_REQUEUES
  {
    assert ItemTracked(objects, s, p, items, x) && Pending(s.w, x);
  }

  lemma DropDown(objects: Objects, s: Sync, p: Progress, items: set<WorkItem>)
    requires Good(objects, s, p, items) && s.w.slot == Some(Down)
    ensures Good(objects, s.(w := s.w.(slot := None)), p, items)
  {
    var s' := s.(w := s.w.(slot := None));
    hide Holds, OnlyMapped, Covers, Accounts, AgainForCause, Resolved, InFlight, AgainOrFull, AllAgain, Conclusive;
    forall x ensures ItemOK(s', x) && ItemTracked(objects, s', p, items, x) && ItemServed(objects, s', p, x) {
      assert ItemOK(s, x) && ItemTracked(objects, s, p, items, x) && ItemServed(objects, s, p, x);
    }
  }
}
