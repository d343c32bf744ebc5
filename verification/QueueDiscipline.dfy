/** A flush seen as operations on the work queue: which of its calls of `Done` meet an item that is being processed. */
module QueueDiscipline {
  import opened Basics
  import opened WorkQueues
  import opened BatchCollectors

  function CompleteOps(order: seq<WorkItem>): seq<Op> {
    if order == [] then []
    else CompleteOps(order[..|order| - 1]) + [DoneOp(order[|order| - 1]), ForgetOp(order[|order| - 1])]
  }

  function RetryOps(q: QueueState, order: seq<WorkItem>, allowRequeue: bool): seq<Op> {
    if order == [] then []
    else
      var x := order[|order| - 1];
      var before := RetryEach(q, order[..|order| - 1], allowRequeue).0;
      RetryOps(q, order[..|order| - 1], allowRequeue) + [DoneOp(x), AfterDone(before, x, allowRequeue)]
  }

  /** What the three completion loops of a flush ask of the queue, in order. */
  function FlushOps(q: QueueState, dones: DoneCalls, allowRequeue: bool): seq<Op> {
    var q1 := CompleteEach(q, dones.succeeded);
    CompleteOps(dones.succeeded) + RetryOps(q1, dones.retried, allowRequeue) + CompleteOps(dones.refused)
  }

  lemma {:induction false} ApplyAppend(q: QueueState, a: seq<Op>, b: seq<Op>)
    ensures ApplyAll(q, a + b) == ApplyAll(ApplyAll(q, a), b)
    ensures Disciplined(q, a + b) <==> Disciplined(q, a) && Disciplined(ApplyAll(q, a), b)
  {
    if b == [] {
      assert a + b == a;
    } else {
      ApplyAppend(q, a, b[..|b| - 1]);
      assert (a + b)[..|a + b| - 1] == a + b[..|b| - 1];
    }
  }

  lemma ApplyOne(q: QueueState, op: Op)
    ensures ApplyAll(q, [op]) == Apply(q, op)
    ensures Disciplined(q, [op]) <==> (op.DoneOp? ==> op.x in q.processing)
  {
    assert [op][..0] == [];
  }

  /** `Done` and what follows it for one item. */
  lemma ApplyTwo(q: QueueState, x: WorkItem, op: Op)
    requires !op.DoneOp?
    ensures ApplyAll(q, [DoneOp(x), op]) == Apply(q.Done(x), op)
    ensures Disciplined(q, [DoneOp(x), op]) <==> x in q.processing
  {
    ApplyOne(q, DoneOp(x));
    ApplyOne(q.Done(x), op);
    ApplyAppend(q, [DoneOp(x)], [op]);
    assert [DoneOp(x)] + [op] == [DoneOp(x), op];
  }

  /** A list of items without repetition, each of them being processed. */
  ghost predicate Resolves(q: QueueState, order: seq<WorkItem>) {
    Distinct(order) && forall x :: x in order ==> x in q.processing
  }

  lemma ResolvesSnoc(q: QueueState, order: seq<WorkItem>, x: WorkItem)
    ensures Resolves(q, order + [x]) <==> Resolves(q, order) && x in q.processing && x !in order
  {
    var longer := order + [x];
    assert longer[|order|] == x;
    if Resolves(q, longer) {
      assert forall i, j :: 0 <= i < j < |order| ==> order[i] == longer[i] && order[j] == longer[j];
      assert forall y :: y in order ==> y in longer;
      assert forall i :: 0 <= i < |order| ==> order[i] == longer[i] && longer[i] != longer[|order|];
    }
  }

  lemma {:induction false} CompleteDisciplined(q: QueueState, order: seq<WorkItem>)
    ensures ApplyAll(q, CompleteOps(order)) == CompleteEach(q, order)
    ensures forall x :: x in CompleteEach(q, order).processing <==> x in q.processing && x !in order
    ensures Disciplined(q, CompleteOps(order)) <==> Resolves(q, order)
  {
    if order != [] {
      var k := |order| - 1;
      var before := CompleteEach(q, order[..k]);
      CompleteDisciplined(q, order[..k]);
      ApplyAppend(q, CompleteOps(order[..k]), [DoneOp(order[k]), ForgetOp(order[k])]);
      ApplyTwo(before, order[k], ForgetOp(order[k]));
      ResolvesSnoc(q, order[..k], order[k]);
      assert order == order[..k] + [order[k]];
    }
  }

  /** What follows `Done` for a failed item. */
  function AfterDone(q: QueueState, x: WorkItem, allowRequeue: bool): Op {
    if allowRequeue && q.NumRequeues(x) < MAX_NUM_REQUEUES then RetryOp(x) else ForgetOp(x)
  }

  lemma {:induction false} RetryApplied(q: QueueState, order: seq<WorkItem>, allowRequeue: bool)
    ensures ApplyAll(q, RetryOps(q, order, allowRequeue)) == RetryEach(q, order, allowRequeue).0
  {
    if order != [] {
      var k := |order| - 1;
      var before := RetryEach(q, order[..k], allowRequeue).0;
      var op := AfterDone(before, order[k], allowRequeue);
      RetryApplied(q, order[..k], allowRequeue);
      ApplyAppend(q, RetryOps(q, order[..k], allowRequeue), [DoneOp(order[k]), op]);
      ApplyTwo(before, order[k], op);
    }
  }

  lemma {:induction false} RetryProcessing(q: QueueState, order: seq<WorkItem>, allowRequeue: bool)
    ensures forall x :: x in RetryEach(q, order, allowRequeue).0.processing <==> x in q.processing && x !in order
  {
    if order != [] {
      var k := |order| - 1;
      RetryProcessing(q, order[..k], allowRequeue);
      assert order == order[..k] + [order[k]];
    }
  }

  lemma {:induction false} RetryDisciplined(q: QueueState, order: seq<WorkItem>, allowRequeue: bool)
    ensures Disciplined(q, RetryOps(q, order, allowRequeue)) <==> Resolves(q, order)
  {
    if order != [] {
      var k := |order| - 1;
      var before := RetryEach(q, order[..k], allowRequeue).0;
      var op := AfterDone(before, order[k], allowRequeue);
      RetryDisciplined(q, order[..k], allowRequeue);
      RetryApplied(q, order[..k], allowRequeue);
      RetryProcessing(q, order[..k], allowRequeue);
      ApplyAppend(q, RetryOps(q, order[..k], allowRequeue), [DoneOp(order[k]), op]);
      ApplyTwo(before, order[k], op);
      ResolvesSnoc(q, order[..k], order[k]);
      assert order == order[..k] + [order[k]];
    }
  }

  /** The settling of a flush is those operations; and each of its calls of `Done` meets its item while that is being
      processed if and only if no item is in both failure maps. */
  lemma FlushDisciplined(q: QueueState, dones: DoneCalls, all: set<WorkItem>, failed: set<WorkItem>,
                         permanent: set<WorkItem>, allowRequeue: bool)
    requires dones.For(all, failed, permanent) && failed + permanent <= all && all <= q.processing
    ensures ApplyAll(q, FlushOps(q, dones, allowRequeue)) == SettleEach(q, dones, allowRequeue).0
    ensures Disciplined(q, FlushOps(q, dones, allowRequeue)) <==> failed !! permanent
  {
    var q1 := CompleteEach(q, dones.succeeded);
    var q2 := RetryEach(q1, dones.retried, allowRequeue).0;
    var a, b, c := CompleteOps(dones.succeeded), RetryOps(q1, dones.retried, allowRequeue), CompleteOps(dones.refused);
    CompleteDisciplined(q, dones.succeeded);
    RetryApplied(q1, dones.retried, allowRequeue);
    RetryProcessing(q1, dones.retried, allowRequeue);
    RetryDisciplined(q1, dones.retried, allowRequeue);
    CompleteDisciplined(q2, dones.refused);
    ApplyAppend(q, a, b);
    ApplyAppend(q, a + b, c);
    assert Resolves(q, dones.succeeded) && Resolves(q1, dones.retried);
    assert Resolves(q2, dones.refused) <==> failed !! permanent by {
      if failed !! permanent {
        forall x | x in dones.refused ensures x in q2.processing {
          assert x in permanent && x !in dones.succeeded && x !in dones.retried;
        }
      } else {
        var x :| x in failed && x in permanent;
        assert x in dones.refused && x in dones.retried && x !in q2.processing;
      }
    }
  }

  /** So a flush without a clash leaves the queue sound. */
  lemma FlushKeepsSound(q: QueueState, dones: DoneCalls, all: set<WorkItem>, failed: set<WorkItem>,
                        permanent: set<WorkItem>, allowRequeue: bool)
    requires Sound(q) && dones.For(all, failed, permanent) && failed + permanent <= all && all <= q.processing
    requires failed !! permanent
    ensures Sound(SettleEach(q, dones, allowRequeue).0)
  {
    FlushDisciplined(q, dones, all, failed, permanent, allowRequeue);
    OpsKeepSound(q, FlushOps(q, dones, allowRequeue));
  }
}
