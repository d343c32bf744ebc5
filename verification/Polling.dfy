/** The polling event listener: two stored timestamps decide whether a poll starts a resync. A timestamp is an instant;
    the empty string that the handler stores for a missing one is None. */
module Polling {
  import opened Basics

  datatype IntegrationReply = Unreachable | Integration(updatedAt: Option<int>)

  datatype RequestReply = RequestFailed | NoRequest | ResyncRequest(updatedAt: Option<int>)

  /** What Port answers during one poll. The resync request is asked for only when the integration was found. */
  datatype Poll = Poll(integration: IntegrationReply, request: RequestReply)

  datatype Watermarks = Watermarks(integration: Option<int>, request: Option<int>)

  /** The request timestamp that a poll sees, if it sees one. */
  function Observed(p: Poll): Option<int> {
    if p.integration.Integration? && p.request.ResyncRequest? then p.request.updatedAt else None
  }

  predicate ShouldResync(updated: Option<int>, stored: Option<int>) {
    if updated.None? then false else if stored.None? then true else stored != updated
  }

  predicate ShouldResyncFromRequest(requested: Option<int>, processed: Option<int>) {
    if requested.None? then false else if processed.None? then true else processed.value < requested.value
  }

  predicate Below(a: Option<int>, b: Option<int>) {
    a.None? || (b.Some? && a.value <= b.value)
  }

  predicate IntegrationChanged(w: Watermarks, p: Poll) {
    p.integration.Integration? && p.integration.updatedAt.Some? && p.integration.updatedAt != w.integration
  }

  /** A request is new when it lies strictly above everything the stored watermark covers. */
  predicate RequestIsNewer(w: Watermarks, p: Poll) {
    Observed(p).Some? && !Below(Observed(p), w.request)
  }

  predicate Resyncs(w: Watermarks, p: Poll) {
    IntegrationChanged(w, p) || RequestIsNewer(w, p)
  }

  function After(w: Watermarks, p: Poll): Watermarks {
    if !Resyncs(w, p) then w
    else Watermarks(p.integration.updatedAt, if Observed(p).Some? then Observed(p) else w.request)
  }

  function AfterAll(w: Watermarks, polls: seq<Poll>): Watermarks {
    if polls == [] then w else After(AfterAll(w, polls[..|polls| - 1]), polls[|polls| - 1])
  }

  class Handler {
    var lastIntegrationStateUpdatedAt: Option<int>
    var lastResyncRequestUpdatedAt: Option<int>

    function Stored(): Watermarks
      reads this
    {
      Watermarks(lastIntegrationStateUpdatedAt, lastResyncRequestUpdatedAt)
    }

    constructor ()
      ensures Stored() == Watermarks(None, None)
    {
      lastIntegrationStateUpdatedAt := None;
      lastResyncRequestUpdatedAt := None;
    }

    method InitializeResyncRequestWatermark(reply: RequestReply)
      modifies this
      ensures Stored().integration == old(Stored().integration)
      ensures Stored().request == if reply.ResyncRequest? then reply.updatedAt else old(Stored().request)
    {
      if reply.RequestFailed? {
        return;
      }
      if reply.ResyncRequest? {
        lastResyncRequestUpdatedAt := reply.updatedAt;
      }
    }

    /** The listener's first look at Port: it takes both timestamps as seen, without a resync. */
    method Start(p: Poll)
      requires Stored() == Watermarks(None, None)
      modifies this
      ensures Stored().integration == if p.integration.Integration? then p.integration.updatedAt else None
      ensures Stored().request
           == if p.integration.Integration? && p.request.ResyncRequest? then p.request.updatedAt else None
    {
      if p.integration.Integration? {
        lastIntegrationStateUpdatedAt := p.integration.updatedAt;
        InitializeResyncRequestWatermark(p.request);
      }
    }

    method PollIteration(p: Poll) returns (resync: bool)
      modifies this
      ensures resync == Resyncs(old(Stored()), p)
      ensures Stored() == After(old(Stored()), p)
      // without the integration nothing is decided and nothing stored
      ensures p.integration.Unreachable? ==> !resync && Stored() == old(Stored())
      ensures !resync ==> Stored() == old(Stored())
      // with it, a different timestamp or a later request decides
      ensures p.integration.Integration? ==>
                (resync <==> || (p.integration.updatedAt.Some?
                                 && p.integration.updatedAt != old(lastIntegrationStateUpdatedAt))
                             || (p.request.ResyncRequest? && p.request.updatedAt.Some?
                                 && (old(lastResyncRequestUpdatedAt).None?
                                     || old(lastResyncRequestUpdatedAt).value < p.request.updatedAt.value)))
    {
      if p.integration.Unreachable? {
        return false;
      }
      var lastUpdatedAt := p.integration.updatedAt;
      var integrationChanged := ShouldResync(lastUpdatedAt, lastIntegrationStateUpdatedAt);
      var requestUpdatedAt := None;
      var requestChanged := false;
      if p.request.ResyncRequest? {
        requestUpdatedAt := p.request.updatedAt;
        requestChanged := ShouldResyncFromRequest(requestUpdatedAt, lastResyncRequestUpdatedAt);
      }
      if !integrationChanged && !requestChanged {
        return false;
      }
      lastIntegrationStateUpdatedAt := lastUpdatedAt;
      if requestUpdatedAt.Some? {
        lastResyncRequestUpdatedAt := requestUpdatedAt;
      }
      return true;
    }

    /** The listener's loop over a finite stretch of ticks: fired[i] says whether the i-th poll started a resync. */
    method Run(polls: seq<Poll>) returns (fired: seq<bool>)
      modifies this
      ensures Stored() == AfterAll(old(Stored()), polls)
      ensures |fired| == |polls|
      ensures forall i :: 0 <= i < |polls| ==> fired[i] == Resyncs(AfterAll(old(Stored()), polls[..i]), polls[i])
    {
      fired := [];
      for i := 0 to |polls|
        invariant Stored() == AfterAll(old(Stored()), polls[..i])
        invariant |fired| == i
        invariant forall k :: 0 <= k < i ==> fired[k] == Resyncs(AfterAll(old(Stored()), polls[..k]), polls[k])
      {
        var resync := PollIteration(polls[i]);
        fired := fired + [resync];
        assert polls[..i + 1][..i] == polls[..i];
      }
      assert polls[..|polls|] == polls;
    }
  }

  /** Every request timestamp seen after index k is at least this one. */
  predicate FloorFrom(t: Option<int>, polls: seq<Poll>, k: nat) {
    forall j :: k <= j < |polls| && Observed(polls[j]).Some? ==> Below(t, Observed(polls[j]))
  }

  /** Port's request timestamps never go back, neither during the run nor below the watermark it starts from. */
  predicate NeverBack(w: Watermarks, polls: seq<Poll>) {
    && FloorFrom(w.request, polls, 0)
    && forall i :: 0 <= i < |polls| ==> FloorFrom(Observed(polls[i]), polls, i)
  }

  /** One poll moves the request watermark down exactly when the integration changed while an older request was seen. */
  lemma {:induction false} WatermarkDropsIff(w: Watermarks, p: Poll)
    ensures !Below(w.request, After(w, p).request)
        <==> IntegrationChanged(w, p) && Observed(p).Some? && !Below(w.request, Observed(p))
  {
    if Observed(p).Some? && w.request.Some? {
      assert RequestIsNewer(w, p) <==> w.request.value < Observed(p).value;
    }
  }

  /** The watermark after i polls is a floor for everything seen from there on. */
  lemma {:induction false} WatermarkIsFloor(w: Watermarks, polls: seq<Poll>, i: nat)
    requires NeverBack(w, polls) && i <= |polls|
    ensures FloorFrom(AfterAll(w, polls[..i]).request, polls, i)
  {
    if i > 0 {
      WatermarkIsFloor(w, polls, i - 1);
      assert polls[..i][..i - 1] == polls[..i - 1];
      assert FloorFrom(Observed(polls[i - 1]), polls, i - 1);
    }
  }

  /** Over a whole run the watermark never goes down when the requests never go back. */
  lemma {:induction false} WatermarkIsMonotone(w: Watermarks, polls: seq<Poll>, i: nat, j: nat)
    requires NeverBack(w, polls) && i <= j <= |polls|
    ensures Below(AfterAll(w, polls[..i]).request, AfterAll(w, polls[..j]).request)
    decreases j
  {
    if i < j {
      WatermarkIsMonotone(w, polls, i, j - 1);
      WatermarkIsFloor(w, polls, j - 1);
      WatermarkDropsIff(AfterAll(w, polls[..j - 1]), polls[j - 1]);
      assert polls[..j][..j - 1] == polls[..j - 1];
    }
  }

  /** A request that starts a resync on its own is newer than every request that any earlier resync has seen. So a
      request timestamp starts at most one resync by itself. */
  lemma {:induction false} RequestFiresOnce(w: Watermarks, polls: seq<Poll>, i: nat, j: nat)
    requires NeverBack(w, polls) && i < j < |polls|
    requires Resyncs(AfterAll(w, polls[..i]), polls[i]) && Observed(polls[i]).Some?
    requires Resyncs(AfterAll(w, polls[..j]), polls[j]) && !IntegrationChanged(AfterAll(w, polls[..j]), polls[j])
    ensures Observed(polls[j]).Some? && Observed(polls[i]).value < Observed(polls[j]).value
  {
    WatermarkIsMonotone(w, polls, i + 1, j);
    assert polls[..i + 1][..i] == polls[..i];
  }

  /** The watermark is always the one the run started with or a request that was seen. */
  lemma {:induction false} WatermarkWasSeen(w: Watermarks, polls: seq<Poll>)
    ensures var r := AfterAll(w, polls).request;
            r == w.request || exists i :: 0 <= i < |polls| && Observed(polls[i]) == r
  {
    if polls != [] {
      var k := |polls| - 1;
      WatermarkWasSeen(w, polls[..k]);
      var r := AfterAll(w, polls[..k]).request;
      if AfterAll(w, polls).request == Observed(polls[k]) {
      } else if r != w.request {
        var i :| 0 <= i < k && Observed(polls[..k][i]) == r;
        assert Observed(polls[i]) == r;
      }
    }
  }

  /** Whatever came before, a request newer than everything seen so far starts a resync the first time it is seen, and
      the watermark moves to it. */
  lemma {:induction false} NewRequestFires(w: Watermarks, polls: seq<Poll>, k: nat)
    requires k < |polls| && Observed(polls[k]).Some?
    requires !Below(Observed(polls[k]), w.request)
    requires forall i :: 0 <= i < k ==> !Below(Observed(polls[k]), Observed(polls[i]))
    ensures Resyncs(AfterAll(w, polls[..k]), polls[k])
    ensures AfterAll(w, polls[..k + 1]).request == Observed(polls[k])
  {
    WatermarkWasSeen(w, polls[..k]);
    assert polls[..k + 1][..k] == polls[..k];
    var r := AfterAll(w, polls[..k]).request;
    if r != w.request {
      var i :| 0 <= i < k && Observed(polls[..k][i]) == r;
      assert !Below(Observed(polls[k]), Observed(polls[i]));
    }
  }

  /** The integration timestamp of the last poll that saw one, or the given one. */
  function LastSeen(w: Watermarks, polls: seq<Poll>): Option<int> {
    if polls == [] then w.integration
    else
      var p := polls[|polls| - 1];
      if p.integration.Integration? && p.integration.updatedAt.Some? then p.integration.updatedAt
      else LastSeen(w, polls[..|polls| - 1])
  }

  /** The k-th poll found an integration without a timestamp and still resynced, for a request. */
  predicate Forgets(w: Watermarks, polls: seq<Poll>, k: nat)
    requires k < |polls|
  {
    && polls[k].integration == Integration(None)
    && RequestIsNewer(AfterAll(w, polls[..k]), polls[k])
  }

  /** After a poll that saw an integration timestamp the stored one equals it, resync or not. */
  lemma {:induction false} StoredIsObserved(w: Watermarks, polls: seq<Poll>)
    requires polls != [] && polls[|polls| - 1].integration.Integration?
    requires polls[|polls| - 1].integration.updatedAt.Some?
    ensures AfterAll(w, polls).integration == polls[|polls| - 1].integration.updatedAt
  {
    assert AfterAll(w, polls) == After(AfterAll(w, polls[..|polls| - 1]), polls[|polls| - 1]);
  }

  /** Since the last poll that saw an integration timestamp, some poll forgot it. */
  predicate Lost(w: Watermarks, polls: seq<Poll>) {
    if polls == [] then false
    else
      var p := polls[|polls| - 1];
      if p.integration.Integration? && p.integration.updatedAt.Some? then false
      else Forgets(w, polls, |polls| - 1) || Lost(w, polls[..|polls| - 1])
  }

  /** What is stored for the integration after any run: the last timestamp seen, or nothing if it was forgotten
      since. */
  lemma {:induction false} StoredIsLastSeen(w: Watermarks, polls: seq<Poll>)
    ensures AfterAll(w, polls).integration == if Lost(w, polls) then None else LastSeen(w, polls)
  {
    if polls != [] {
      StoredIsLastSeen(w, polls[..|polls| - 1]);
    }
  }

  /** So, after any run, a poll resyncs exactly when it sees an integration timestamp that differs from the last one
      seen or comes after that was forgotten, or a request above the watermark. */
  lemma {:induction false} ResyncsExactly(w: Watermarks, polls: seq<Poll>, p: Poll)
    ensures Resyncs(AfterAll(w, polls), p)
        <==> || (p.integration.Integration? && p.integration.updatedAt.Some?
                 && (Lost(w, polls) || p.integration.updatedAt != LastSeen(w, polls)))
             || RequestIsNewer(AfterAll(w, polls), p)
  {
    StoredIsLastSeen(w, polls);
  }

  /** An unchanged integration starts a resync by itself exactly when its timestamp was forgotten since it was seen. */
  lemma {:induction false} UnchangedResyncsIffLost(w: Watermarks, polls: seq<Poll>, p: Poll)
    requires p.integration.Integration? && p.integration.updatedAt.Some?
    requires p.integration.updatedAt == LastSeen(w, polls)
    ensures IntegrationChanged(AfterAll(w, polls), p) <==> Lost(w, polls)
  {
    StoredIsLastSeen(w, polls);
  }

  /** A poll that forgets makes the next one resync for an integration that never changed. */
  lemma {:induction false} ForgettingResyncsAgain(w: Watermarks, polls: seq<Poll>, p: Poll)
    requires polls != [] && Forgets(w, polls, |polls| - 1)
    requires p.integration.Integration? && p.integration.updatedAt.Some?
    requires p.integration.updatedAt == LastSeen(w, polls)
    ensures Resyncs(AfterAll(w, polls), p)
  {
    assert Lost(w, polls);
    UnchangedResyncsIffLost(w, polls, p);
  }

  // ---- requests that go back ----

  /** The k-th poll saw an integration change together with a request older than t, and stored that. */
  predicate LowersBelow(w: Watermarks, polls: seq<Poll>, k: nat, t: int)
    requires k < |polls|
  {
    && IntegrationChanged(AfterAll(w, polls[..k]), polls[k])
    && Observed(polls[k]).Some? && Observed(polls[k]).value < t
  }

  /** The k-th poll stored a request of at least t. */
  predicate RaisesTo(w: Watermarks, polls: seq<Poll>, k: nat, t: int)
    requires k < |polls|
  {
    && Resyncs(AfterAll(w, polls[..k]), polls[k])
    && Observed(polls[k]).Some? && Observed(polls[k]).value >= t
  }

  /** Between i and j some poll lowered the watermark below t, and none after it raised it back. */
  ghost predicate Reopened(w: Watermarks, polls: seq<Poll>, i: nat, j: nat, t: int)
    requires i <= j <= |polls|
  {
    exists k :: i <= k < j && LowersBelow(w, polls, k, t) && forall m :: k < m < j ==> !RaisesTo(w, polls, m, t)
  }

  predicate Covers(r: Option<int>, t: int) { r.Some? && r.value >= t }

  /** One poll more: what it does to the watermark's covering t. */
  lemma {:induction false} CoverStep(w: Watermarks, polls: seq<Poll>, k: nat, t: int)
    requires k < |polls|
    ensures AfterAll(w, polls[..k + 1]) == After(AfterAll(w, polls[..k]), polls[k])
    ensures Covers(AfterAll(w, polls[..k + 1]).request, t)
        <==> RaisesTo(w, polls, k, t) || (Covers(AfterAll(w, polls[..k]).request, t) && !LowersBelow(w, polls, k, t))
  {
    assert polls[..k + 1][..k] == polls[..k];
  }

  /** A watermark that covers t at i stops covering it exactly when it is reopened. */
  lemma {:induction false} UncoveredIffReopened(w: Watermarks, polls: seq<Poll>, i: nat, j: nat, t: int)
    requires i <= j <= |polls| && Covers(AfterAll(w, polls[..i]).request, t)
    ensures Covers(AfterAll(w, polls[..j]).request, t) <==> !Reopened(w, polls, i, j, t)
    decreases j
  {
    if i < j {
      var n := j - 1;
      UncoveredIffReopened(w, polls, i, n, t);
      CoverStep(w, polls, n, t);
      if LowersBelow(w, polls, n, t) {
        assert Reopened(w, polls, i, j, t);
      } else if Reopened(w, polls, i, n, t) && !RaisesTo(w, polls, n, t) {
        var k :| i <= k < n && LowersBelow(w, polls, k, t) && forall m :: k < m < n ==> !RaisesTo(w, polls, m, t);
        forall m | k < m < j ensures !RaisesTo(w, polls, m, t) {
          assert m < n || m == n;
        }
      }
    }
  }

  /** After a request t has started a resync, seeing it again starts another one by itself exactly when, in between, an
      integration change stored an older request and nothing raised the watermark back to t. */
  lemma {:induction false} RequestFiresAgainIff(w: Watermarks, polls: seq<Poll>, i: nat, j: nat)
    requires i < j < |polls| && Observed(polls[i]).Some? && Observed(polls[j]) == Observed(polls[i])
    requires Resyncs(AfterAll(w, polls[..i]), polls[i])
    ensures RequestIsNewer(AfterAll(w, polls[..j]), polls[j])
        <==> Reopened(w, polls, i + 1, j, Observed(polls[i]).value)
  {
    var t := Observed(polls[i]).value;
    CoverStep(w, polls, i, t);
    UncoveredIffReopened(w, polls, i + 1, j, t);
  }

  /** Requests that never go back are never reopened. */
  lemma {:induction false} NeverBackNeverReopens(w: Watermarks, polls: seq<Poll>, i: nat, j: nat)
    requires NeverBack(w, polls) && i < j < |polls| && Observed(polls[i]).Some?
    ensures !Reopened(w, polls, i + 1, j, Observed(polls[i]).value)
  {
    assert FloorFrom(Observed(polls[i]), polls, i);
  }

  /** One request that starts two resyncs on its own: the integration changes while an older request is seen, and the
      newer one counts as new again. */
  lemma {:induction false} OldRequestReopensNewer(i0: int, i1: int, older: int, newer: int)
    requires i0 != i1 && older < newer
    ensures var w := Watermarks(Some(i0), Some(older));
            var again := Poll(Integration(Some(i1)), ResyncRequest(Some(newer)));
            var polls := [Poll(Integration(Some(i0)), ResyncRequest(Some(newer))),
                          Poll(Integration(Some(i1)), ResyncRequest(Some(older))), again];
            && Resyncs(w, polls[0]) && !IntegrationChanged(w, polls[0])
            && Resyncs(AfterAll(w, polls[..2]), again) && !IntegrationChanged(AfterAll(w, polls[..2]), again)
  {
    var w := Watermarks(Some(i0), Some(older));
    var polls := [Poll(Integration(Some(i0)), ResyncRequest(Some(newer))),
                  Poll(Integration(Some(i1)), ResyncRequest(Some(older))),
                  Poll(Integration(Some(i1)), ResyncRequest(Some(newer)))];
    assert polls[..2][..1] == polls[..1] && polls[..1][..0] == [];
    assert AfterAll(w, polls[..1]) == Watermarks(Some(i0), Some(newer));
  }
}
