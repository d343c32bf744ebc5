/** The rate-limited work queue the exporter gets from its client library, as far as the exporter can observe it. */
module WorkQueues {
  import opened Basics

  /** `queue` lists what `Get` may hand out, `dirty` what still has to be processed, `processing` what has been
      handed out and not finished, `delayed` what waits for its back-off, `failures` the rate limiter's counts. */
  datatype QueueState = QueueState(
    queue: seq<WorkItem>,
    dirty: set<WorkItem>,
    processing: set<WorkItem>,
    delayed: set<WorkItem>,
    failures: map<WorkItem, nat>,
    shuttingDown: bool)
  {
    function Add(x: WorkItem): QueueState {
      if shuttingDown || x in dirty then this
      else if x in processing then this.(dirty := dirty + {x})
      else this.(queue := queue + [x], dirty := dirty + {x})
    }

    function Take(): QueueState
      requires queue != []
    {
      this.(queue := queue[1..], dirty := dirty - {queue[0]}, processing := processing + {queue[0]})
    }

    function Done(x: WorkItem): QueueState {
      this.(processing := processing - {x}, queue := if x in dirty then queue + [x] else queue)
    }

    function NumRequeues(x: WorkItem): nat {
      if x in failures then failures[x] else 0
    }

    function Forget(x: WorkItem): QueueState {
      this.(failures := failures - {x})
    }

    function AddRateLimited(x: WorkItem): QueueState {
      this.(failures := failures[x := NumRequeues(x) + 1], delayed := if shuttingDown then delayed else delayed + {x})
    }

    /** The back-off of a delayed item has passed. */
    function Fire(x: WorkItem): QueueState {
      this.(delayed := delayed - {x}).Add(x)
    }
  }

  class WorkQueue {
    var st: QueueState
    // the items Done has been called on, in order
    ghost var dones: seq<WorkItem>

    constructor ()
      ensures st == QueueState([], {}, {}, {}, map[], false) && dones == []
    {
      st := QueueState([], {}, {}, {}, map[], false);
      dones := [];
    }

    method Add(x: WorkItem)
      modifies this
      ensures st == old(st).Add(x) && dones == old(dones)
    {
      st := st.Add(x);
    }

    method Done(x: WorkItem)
      modifies this
      ensures st == old(st).Done(x) && dones == old(dones) + [x]
    {
      st := st.Done(x);
      dones := dones + [x];
    }

    method Forget(x: WorkItem)
      modifies this
      ensures st == old(st).Forget(x) && dones == old(dones)
    {
      st := st.Forget(x);
    }

    method AddRateLimited(x: WorkItem)
      modifies this
      ensures st == old(st).AddRateLimited(x) && dones == old(dones)
    {
      st := st.AddRateLimited(x);
    }
  }

  // ---- what holds over every run of operations ----

  datatype Op =
    | AddOp(x: WorkItem)
    | TakeOp
    | DoneOp(x: WorkItem)
    | ForgetOp(x: WorkItem)
    | RetryOp(x: WorkItem)
    | FireOp(x: WorkItem)
    | StopOp

  /** An operation; a timer fires only for a delayed item, and an empty queue hands nothing out. */
  function Apply(q: QueueState, op: Op): QueueState {
    match op
    case AddOp(x) => q.Add(x)
    case TakeOp => if q.queue == [] then q else q.Take()
    case DoneOp(x) => q.Done(x)
    case ForgetOp(x) => q.Forget(x)
    case RetryOp(x) => q.AddRateLimited(x)
    case FireOp(x) => if x in q.delayed then q.Fire(x) else q
    case StopOp => q.(shuttingDown := true)
  }

  function ApplyAll(q: QueueState, ops: seq<Op>): QueueState {
    if ops == [] then q else Apply(ApplyAll(q, ops[..|ops| - 1]), ops[|ops| - 1])
  }

  /** The queue lists each waiting item once, and none that is being processed. */
  ghost predicate Sound(q: QueueState) {
    Distinct(q.queue) && forall x :: x in q.queue <==> x in q.dirty && x !in q.processing
  }

  /** `Done` is only called on items that are being processed. */
  predicate Disciplined(q: QueueState, ops: seq<Op>) {
    if ops == [] then true
    else
      var last := ops[|ops| - 1];
      && Disciplined(q, ops[..|ops| - 1])
      && (last.DoneOp? ==> last.x in ApplyAll(q, ops[..|ops| - 1]).processing)
  }

  lemma {:induction false} OpKeepsSound(q: QueueState, op: Op)
    requires Sound(q) && (op.DoneOp? ==> op.x in q.processing)
    ensures Sound(Apply(q, op))
  {
    var q' := Apply(q, op);
    if op.TakeOp? && q.queue != [] {
      assert q.queue == [q.queue[0]] + q.queue[1..];
      forall x ensures x in q'.queue <==> x in q'.dirty && x !in q'.processing {
        assert x in q.queue <==> x == q.queue[0] || x in q.queue[1..];
      }
    }
  }

  /** So no item is ever handed out while it is being processed, and none waits twice. */
  lemma {:induction false} OpsKeepSound(q: QueueState, ops: seq<Op>)
    requires Sound(q) && Disciplined(q, ops)
    ensures Sound(ApplyAll(q, ops))
    ensures ApplyAll(q, ops).queue != [] ==> ApplyAll(q, ops).queue[0] !in ApplyAll(q, ops).processing
  {
    if ops != [] {
      OpsKeepSound(q, ops[..|ops| - 1]);
      OpKeepsSound(ApplyAll(q, ops[..|ops| - 1]), ops[|ops| - 1]);
    }
    assert ApplyAll(q, ops).queue != [] ==> ApplyAll(q, ops).queue[0] in ApplyAll(q, ops).queue;
  }

  /** One `Done` too many, on an item that waits, puts it into the queue a second time. */
  lemma UndisciplinedDoneRepeats(q: QueueState, x: WorkItem)
    requires Sound(q) && x in q.queue
    ensures !Sound(q.Done(x))
  {
    var i :| 0 <= i < |q.queue| && q.queue[i] == x;
    assert q.Done(x).queue[i] == q.Done(x).queue[|q.queue|];
  }

  /** The operation hands out this item. */
  predicate Takes(q: QueueState, op: Op, x: WorkItem) {
    op.TakeOp? && q.queue != [] && q.queue[0] == x
  }

  predicate NeverTakes(q: QueueState, ops: seq<Op>, x: WorkItem) {
    if ops == [] then true
    else NeverTakes(q, ops[..|ops| - 1], x) && !Takes(ApplyAll(q, ops[..|ops| - 1]), ops[|ops| - 1], x)
  }

  /** An added item is not lost: until it is handed out again it waits in the queue, or it is still being processed and
      will wait there once that is done. */
  lemma {:induction false} AddedIsKept(q: QueueState, x: WorkItem, ops: seq<Op>)
    requires Sound(q) && !q.shuttingDown && Disciplined(q.Add(x), ops) && NeverTakes(q.Add(x), ops, x)
    ensures var q' := ApplyAll(q.Add(x), ops);
            x in q'.dirty && (x in q'.queue || (x in q'.processing && x in q'.Done(x).queue))
  {
    OpKeepsSound(q, AddOp(x));
    OpsKeepSound(q.Add(x), ops);
    if ops != [] {
      AddedIsKept(q, x, ops[..|ops| - 1]);
    }
  }

  /** How often an item has been put back since its count was dropped. */
  function RetriesIn(ops: seq<Op>, x: WorkItem, before: nat): nat {
    if ops == [] then before
    else
      var last := ops[|ops| - 1];
      if last == ForgetOp(x) then 0
      else RetriesIn(ops[..|ops| - 1], x, before) + if last == RetryOp(x) then 1 else 0
  }

  /** The rate limiter's count is the number of retries since the last `Forget`, whatever else happens in between. */
  lemma {:induction false} CountsRetries(q: QueueState, ops: seq<Op>, x: WorkItem)
    ensures ApplyAll(q, ops).NumRequeues(x) == RetriesIn(ops, x, q.NumRequeues(x))
  {
    if ops != [] {
      CountsRetries(q, ops[..|ops| - 1], x);
    }
  }
}
