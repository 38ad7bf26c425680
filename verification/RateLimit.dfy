// The sliding-window rate limiter of src/auth/rate-limit.js.
module RateLimit {
  import opened Text

  // A rejected caller is told when to retry; with max 0 there is no oldest call to wait for.
  datatype Verdict = Accepted(remaining: nat) | Rejected(retryAfterMs: Option<int>)

  function Fresh(bucket: seq<int>, now: int, window: int): seq<int> {
    if bucket == [] then []
    else (if now - bucket[0] < window then [bucket[0]] else []) + Fresh(bucket[1..], now, window)
  }

  function Judge(bucket: seq<int>, now: int, window: int, max: nat): (seq<int>, Verdict) {
    var recent := Fresh(bucket, now, window);
    if |recent| >= max then
      (recent, Rejected(if recent == [] then None else Some(window - (now - recent[0]))))
    else (recent + [now], Accepted(max - |recent| - 1))
  }

  class Limiter {
    var buckets: map<string, seq<int>>

    constructor ()
      ensures buckets == map[]
    {
      buckets := map[];
    }

    method Limit(key: string, now: int, window: int, max: nat) returns (verdict: Verdict)
      modifies this
      ensures var current := if key in old(buckets) then old(buckets)[key] else [];
              && buckets == old(buckets)[key := Judge(current, now, window, max).0]
              && verdict == Judge(current, now, window, max).1
    {
      var current := if key in buckets then buckets[key] else [];
      var recent := Fresh(current, now, window);
      if |recent| >= max {
        buckets := buckets[key := recent];
        return Rejected(if recent == [] then None else Some(window - (now - recent[0])));
      }
      recent := recent + [now];
      buckets := buckets[key := recent];
      return Accepted(max - |recent|);
    }
  }

  // ---- Runs of one key: the times of its calls ----

  function Bucket(calls: seq<int>, window: int, max: nat): seq<int> {
    if calls == [] then []
    else
      var n := |calls| - 1;
      Judge(Bucket(calls[..n], window, max), calls[n], window, max).0
  }

  function VerdictOf(calls: seq<int>, window: int, max: nat): Verdict
    requires calls != []
  {
    var n := |calls| - 1;
    Judge(Bucket(calls[..n], window, max), calls[n], window, max).1
  }

  function AcceptedCalls(calls: seq<int>, window: int, max: nat): seq<int> {
    if calls == [] then []
    else
      var n := |calls| - 1;
      AcceptedCalls(calls[..n], window, max) + (if VerdictOf(calls, window, max).Accepted? then [calls[n]] else [])
  }

  predicate Ordered(times: seq<int>) {
    forall i, j :: 0 <= i <= j < |times| ==> times[i] <= times[j]
  }

  lemma {:induction false} FreshAppend(a: seq<int>, b: seq<int>, now: int, window: int)
    ensures Fresh(a + b, now, window) == Fresh(a, now, window) + Fresh(b, now, window)
  {
    if a == [] {
      assert a + b == b;
    } else {
      FreshAppend(a[1..], b, now, window);
      assert (a + b)[0] == a[0] && (a + b)[1..] == a[1..] + b;
      Associates(if now - a[0] < window then [a[0]] else [], Fresh(a[1..], now, window), Fresh(b, now, window));
    }
  }

  // Looking later keeps fewer: cleaning up on the way loses nothing.
  lemma {:induction false} FreshTwice(xs: seq<int>, earlier: int, later: int, window: int)
    requires earlier <= later
    ensures Fresh(Fresh(xs, earlier, window), later, window) == Fresh(xs, later, window)
  {
    if xs != [] {
      FreshTwice(xs[1..], earlier, later, window);
      FreshAppend(if earlier - xs[0] < window then [xs[0]] else [], Fresh(xs[1..], earlier, window), later, window);
    }
  }

  // The recent part of an ordered list is a suffix of it.
  lemma {:induction false} FreshIsSuffix(xs: seq<int>, now: int, window: int)
    requires Ordered(xs)
    ensures |Fresh(xs, now, window)| <= |xs|
    ensures Fresh(xs, now, window) == xs[|xs| - |Fresh(xs, now, window)|..]
    ensures forall i :: 0 <= i < |xs| ==>
              (now - xs[i] < window <==> i >= |xs| - |Fresh(xs, now, window)|)
  {
    if xs != [] {
      FreshIsSuffix(xs[1..], now, window);
      if now - xs[0] < window {
        assert forall i :: 0 <= i < |xs[1..]| ==> now - xs[1..][i] < window;
        assert xs == [xs[0]] + xs[1..];
      } else {
        assert forall i :: 1 <= i < |xs| ==> xs[i] == xs[1..][i - 1];
      }
    }
  }

  lemma {:induction false} AcceptedAreOrdered(calls: seq<int>, window: int, max: nat)
    requires Ordered(calls)
    ensures Ordered(AcceptedCalls(calls, window, max))
    ensures calls != [] ==> forall t :: t in AcceptedCalls(calls, window, max) ==> t <= calls[|calls| - 1]
    ensures calls == [] ==> AcceptedCalls(calls, window, max) == []
  {
    if calls != [] {
      var n := |calls| - 1;
      AcceptedAreOrdered(calls[..n], window, max);
      var before := AcceptedCalls(calls[..n], window, max);
      assert forall i :: 0 <= i < |before| ==> before[i] in before;
    }
  }

  // The bucket holds exactly the accepted calls that are still within the window.
  lemma {:induction false} BucketIsFreshAccepted(calls: seq<int>, now: int, window: int, max: nat)
    requires Ordered(calls + [now])
    ensures Fresh(Bucket(calls, window, max), now, window) == Fresh(AcceptedCalls(calls, window, max), now, window)
  {
    if calls != [] {
      var n := |calls| - 1;
      var last := calls[n];
      assert last == (calls + [now])[n] && now == (calls + [now])[n + 1];
      assert calls[..n] + [last] == calls;
      assert Ordered(calls[..n] + [last]) by {
        assert forall i :: 0 <= i < |calls| ==> calls[i] == (calls + [now])[i];
      }
      BucketIsFreshAccepted(calls[..n], last, window, max);
      var before := AcceptedCalls(calls[..n], window, max);
      var recent := Fresh(before, last, window);
      FreshTwice(before, last, now, window);
      FreshAppend(recent, [last], now, window);
      FreshAppend(before, [last], now, window);
      assert before + [] == before;
    }
  }

  // A call is accepted exactly when fewer than max accepted calls lie within the window before it.
  lemma {:induction false} AcceptedIffRoom(calls: seq<int>, now: int, window: int, max: nat)
    requires Ordered(calls + [now])
    ensures VerdictOf(calls + [now], window, max).Accepted?
            <==> |Fresh(AcceptedCalls(calls, window, max), now, window)| < max
  {
    assert (calls + [now])[..|calls|] == calls;
    BucketIsFreshAccepted(calls, now, window, max);
  }

  // Any interval shorter than the window contains at most max accepted calls of a key.
  lemma {:induction false} WindowBound(calls: seq<int>, window: int, max: nat, i: nat, j: nat)
    requires Ordered(calls)
    requires i <= j < |AcceptedCalls(calls, window, max)|
    requires AcceptedCalls(calls, window, max)[j] - AcceptedCalls(calls, window, max)[i] < window
    ensures j - i + 1 <= max
    decreases |calls|
  {
    var n := |calls| - 1;
    var before := AcceptedCalls(calls[..n], window, max);
    if j < |before| {
      WindowBound(calls[..n], window, max, i, j);
    } else {
      assert calls[..n] + [calls[n]] == calls;
      AcceptedIffRoom(calls[..n], calls[n], window, max);
      AcceptedAreOrdered(calls[..n], window, max);
      FreshIsSuffix(before, calls[n], window);
      if i < |before| {
        assert calls[n] - before[i] < window;
      }
    }
  }

  // ---- The time to retry is exact ----

  // Rejected calls leave the accepted ones as they are.
  lemma {:induction false} RejectedLeavesNothing(calls: seq<int>, now: int, window: int, max: nat)
    requires VerdictOf(calls + [now], window, max).Rejected?
    ensures AcceptedCalls(calls + [now], window, max) == AcceptedCalls(calls, window, max)
  {
    assert (calls + [now])[..|calls|] == calls;
    assert AcceptedCalls(calls, window, max) + [] == AcceptedCalls(calls, window, max);
  }

  // A retry at the announced time or later is accepted, one before it is rejected: the call that comes next
  // after a rejection is accepted if and only if it waits as long as it was told.
  lemma {:induction false} RetryAfterIsExact(calls: seq<int>, now: int, later: int, window: int, max: nat)
    requires Ordered(calls + [now] + [later]) && max > 0
    requires VerdictOf(calls + [now], window, max).Rejected?
    ensures VerdictOf(calls + [now], window, max).retryAfterMs.Some?
    ensures VerdictOf(calls + [now] + [later], window, max).Accepted?
            <==> later >= now + VerdictOf(calls + [now], window, max).retryAfterMs.value
  {
    var all := calls + [now];
    assert forall i :: 0 <= i < |all| ==> all[i] == (all + [later])[i];
    assert Ordered(all);
    assert all[..|calls|] == calls && now == (all + [later])[|calls|] && later == (all + [later])[|all|];
    var accepted := AcceptedCalls(calls, window, max);
    BucketIsFreshAccepted(calls, now, window, max);
    RejectedLeavesNothing(calls, now, window, max);
    AcceptedIffRoom(all, later, window, max);
    assert Ordered(calls) by { assert forall i :: 0 <= i < |calls| ==> calls[i] == all[i]; }
    AcceptedAreOrdered(calls, window, max);
    FreshBound(calls, now, window, max);
    FreshIsSuffix(accepted, now, window);
    FreshIsSuffix(accepted, later, window);
    var oldest := |accepted| - |Fresh(accepted, now, window)|;
    assert Fresh(accepted, now, window)[0] == accepted[oldest];
  }

  // Within the window there are never more than max accepted calls, so a rejection finds exactly max.
  lemma {:induction false} FreshBound(calls: seq<int>, now: int, window: int, max: nat)
    requires Ordered(calls) && (calls != [] ==> calls[|calls| - 1] <= now)
    ensures |Fresh(AcceptedCalls(calls, window, max), now, window)| <= max
  {
    var accepted := AcceptedCalls(calls, window, max);
    AcceptedAreOrdered(calls, window, max);
    FreshIsSuffix(accepted, now, window);
    var k := |Fresh(accepted, now, window)|;
    if k > 0 {
      assert accepted[|accepted| - 1] in accepted;
      WindowBound(calls, window, max, |accepted| - k, |accepted| - 1);
    }
  }

  // With max 0 every call is rejected and none is told when to retry.
  lemma {:induction false} ZeroNeverAccepts(calls: seq<int>, now: int, window: int)
    ensures VerdictOf(calls + [now], window, 0) == Rejected(None) && AcceptedCalls(calls, window, 0) == []
    decreases |calls|
  {
    assert (calls + [now])[..|calls|] == calls;
    ZeroBucket(calls, window);
  }

  lemma {:induction false} ZeroBucket(calls: seq<int>, window: int)
    ensures Bucket(calls, window, 0) == [] && AcceptedCalls(calls, window, 0) == []
  {
    if calls != [] { ZeroBucket(calls[..|calls| - 1], window); }
  }

  // An accepted call is told how many more the window has room for.
  lemma {:induction false} RemainingIsExact(calls: seq<int>, now: int, window: int, max: nat)
    requires Ordered(calls + [now]) && VerdictOf(calls + [now], window, max).Accepted?
    ensures VerdictOf(calls + [now], window, max).remaining + 1 + |Fresh(AcceptedCalls(calls, window, max), now, window)| == max
  {
    assert (calls + [now])[..|calls|] == calls;
    BucketIsFreshAccepted(calls, now, window, max);
  }

  // A call counts until the window has passed since it was made.
  lemma {:induction false} FreshIffWithinWindow(bucket: seq<int>, now: int, window: int)
    ensures forall t :: t in Fresh(bucket, now, window) <==> t in bucket && now < t + window
  {
    if bucket != [] {
      FreshIffWithinWindow(bucket[1..], now, window);
      assert bucket == [bucket[0]] + bucket[1..];
    }
  }
}
