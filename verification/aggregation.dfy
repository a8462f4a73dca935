/**
 * The aggregator: one status callback per configured kind arrives, each is
 * appended to a buffer local to the call, and the completion fires when the
 * buffer holds as many results as there are configured kinds. Also the
 * reduction of a result list to "everything authorized".
 */
module Aggregation {
  import opened PermissionKinds
  import opened Wrappers

  /** The index of the first result whose status is not authorized, if any. */
  function FirstNotAuthorized(results: seq<PermissionResult>): (r: Option<nat>)
    ensures r.None? <==> forall i :: 0 <= i < |results| ==> results[i].status == Authorized
    ensures r.Some? ==>
              && r.value < |results|
              && results[r.value].status != Authorized
              && forall i :: 0 <= i < r.value ==> results[i].status == Authorized
  {
    if results == [] then None
    else if results[0].status != Authorized then Some(0)
    else
      match FirstNotAuthorized(results[1..])
      case None => None
      case Some(k) => Some(k + 1)
  }

  /**
   * True iff no result differs from authorized; unknown, unauthorized and
   * disabled all count against it, and an empty list is vacuously authorized.
   */
  function AllAuthorized(results: seq<PermissionResult>): (all: bool)
    ensures all <==> forall i :: 0 <= i < |results| ==> results[i].status == Authorized
    ensures results == [] ==> all
  {
    FirstNotAuthorized(results).None?
  }

  /** The verdict depends only on which results arrived, not on their order. */
  lemma AllAuthorizedIgnoresOrder(a: seq<PermissionResult>, b: seq<PermissionResult>)
    requires multiset(a) == multiset(b)
    ensures AllAuthorized(a) == AllAuthorized(b)
  {
    if !AllAuthorized(a) {
      var k := FirstNotAuthorized(a).value;
      assert a[k] in multiset(b);
    }
    if !AllAuthorized(b) {
      var k := FirstNotAuthorized(b).value;
      assert b[k] in multiset(a);
    }
  }

  /** The results delivered during the query loop: every kind but notifications, in order. */
  function Synchronous(snapshot: seq<PermissionResult>): (r: seq<PermissionResult>)
    ensures forall i :: 0 <= i < |r| ==> r[i].kind != Notifications
  {
    if snapshot == [] then []
    else
      var last := snapshot[|snapshot| - 1];
      Synchronous(snapshot[..|snapshot| - 1]) + (if last.kind == Notifications then [] else [last])
  }

  /** The results delivered later: the notifications query answers asynchronously. */
  function Deferred(snapshot: seq<PermissionResult>): (r: seq<PermissionResult>)
    ensures forall i :: 0 <= i < |r| ==> r[i].kind == Notifications
  {
    if snapshot == [] then []
    else
      var last := snapshot[|snapshot| - 1];
      Deferred(snapshot[..|snapshot| - 1]) + (if last.kind == Notifications then [last] else [])
  }

  /** Extending the configuration prefix by one result extends exactly one of the two streams. */
  lemma SplitStep(snapshot: seq<PermissionResult>, i: nat)
    requires i < |snapshot|
    ensures Synchronous(snapshot[..i + 1]) ==
      Synchronous(snapshot[..i]) + (if snapshot[i].kind == Notifications then [] else [snapshot[i]])
    ensures Deferred(snapshot[..i + 1]) ==
      Deferred(snapshot[..i]) + (if snapshot[i].kind == Notifications then [snapshot[i]] else [])
  {
    assert snapshot[..i + 1][..i] == snapshot[..i];
  }

  /**
   * The order in which one aggregation pass receives the results of the
   * configured kinds (`snapshot`, in configuration order).
   */
  function ArrivalOrder(snapshot: seq<PermissionResult>): (r: seq<PermissionResult>)
    ensures |r| == |snapshot|
  {
    SplitIsPermutation(snapshot);
    assert |multiset(Synchronous(snapshot) + Deferred(snapshot))| == |multiset(snapshot)|;
    Synchronous(snapshot) + Deferred(snapshot)
  }

  /** The two streams together hold every result of the configuration, each once. */
  lemma {:induction false} SplitIsPermutation(snapshot: seq<PermissionResult>)
    ensures multiset(Synchronous(snapshot)) + multiset(Deferred(snapshot)) == multiset(snapshot)
  {
    if snapshot != [] {
      var init, last := snapshot[..|snapshot| - 1], snapshot[|snapshot| - 1];
      SplitIsPermutation(init);
      assert snapshot == init + [last];
      if last.kind == Notifications {
        assert Synchronous(snapshot) == Synchronous(init);
        assert Deferred(snapshot) == Deferred(init) + [last];
      } else {
        assert Synchronous(snapshot) == Synchronous(init) + [last];
        assert Deferred(snapshot) == Deferred(init);
      }
    }
  }

  /** Without notifications the query loop delivers everything, in configuration order. */
  lemma {:induction false} NoNotificationsNoneDeferred(snapshot: seq<PermissionResult>)
    requires forall i :: 0 <= i < |snapshot| ==> snapshot[i].kind != Notifications
    ensures Synchronous(snapshot) == snapshot && Deferred(snapshot) == []
  {
    if snapshot != [] {
      var init := snapshot[..|snapshot| - 1];
      NoNotificationsNoneDeferred(init);
      assert snapshot == init + [snapshot[|snapshot| - 1]];
    }
  }

  /**
   * Arrival order is a permutation of configuration order in which the
   * notifications result comes last; without notifications it is exactly
   * configuration order.
   */
  lemma ArrivalOrderProperties(snapshot: seq<PermissionResult>)
    ensures multiset(ArrivalOrder(snapshot)) == multiset(snapshot)
    ensures |ArrivalOrder(snapshot)| == |snapshot|
    ensures forall i, j ::
              0 <= i < j < |ArrivalOrder(snapshot)| && ArrivalOrder(snapshot)[i].kind == Notifications ==>
                ArrivalOrder(snapshot)[j].kind == Notifications
    ensures (forall i :: 0 <= i < |snapshot| ==> snapshot[i].kind != Notifications) ==> ArrivalOrder(snapshot) == snapshot
  {
    SplitIsPermutation(snapshot);
    assert |multiset(ArrivalOrder(snapshot))| == |multiset(snapshot)|;
    if forall i :: 0 <= i < |snapshot| ==> snapshot[i].kind != Notifications {
      NoNotificationsNoneDeferred(snapshot);
    }
  }

  /**
   * The completion closure of one aggregation pass, run over the callbacks in
   * the order they arrive. Each arrival is appended to a buffer local to the
   * call; the completion fires when the buffer size equals `expected`. It
   * therefore fires at most once, exactly when at least `expected` >= 1
   * callbacks arrive, with the first `expected` arrivals in arrival order.
   * With nothing configured it never fires.
   */
  method CollectResults(expected: nat, arrivals: seq<PermissionResult>) returns (completions: seq<seq<PermissionResult>>)
    ensures |completions| <= 1
    ensures |completions| == 1 <==> 0 < expected <= |arrivals|
    ensures |completions| == 1 ==> completions[0] == arrivals[..expected] && |completions[0]| == expected
  {
    var results: seq<PermissionResult> := [];
    completions := [];
    var i := 0;
    while i < |arrivals|
      invariant 0 <= i <= |arrivals|
      invariant results == arrivals[..i]
      invariant completions == if 0 < expected <= i then [arrivals[..expected]] else []
    {
      results := results + [arrivals[i]];
      if |results| == expected {
        completions := completions + [results];
      }
      i := i + 1;
    }
  }

  /**
   * When the callbacks are a delivery of the configured kinds (each configured
   * kind answers exactly once, in any order), there are as many arrivals as
   * configured kinds, the pass completes iff something is configured, and the
   * completed list is the whole delivery, one result per configured kind.
   */
  lemma DeliveryCompletesOnce(configured: seq<PermissionType>, arrivals: seq<PermissionResult>)
    requires multiset(KindsOf(arrivals)) == multiset(configured)
    ensures |arrivals| == |configured|
    ensures (0 < |configured| <= |arrivals|) <==> configured != []
    ensures arrivals[..|configured|] == arrivals
    ensures multiset(KindsOf(arrivals[..|configured|])) == multiset(configured)
  {
    assert |multiset(KindsOf(arrivals))| == |multiset(configured)|;
    assert arrivals[..|configured|] == arrivals;
  }

  /**
   * One aggregation pass under any schedule: whatever order the configured
   * kinds' callbacks run in, the completion fires exactly once when something
   * is configured, never otherwise, and carries the whole delivery.
   */
  method CollectDelivery(configured: seq<PermissionType>, arrivals: seq<PermissionResult>)
    returns (completions: seq<seq<PermissionResult>>)
    requires multiset(KindsOf(arrivals)) == multiset(configured)
    ensures completions == if configured == [] then [] else [arrivals]
  {
    DeliveryCompletesOnce(configured, arrivals);
    completions := CollectResults(|configured|, arrivals);
  }
}
