/**
 * The tier-gated target projection applied to every call a subscriber reads:
 * a stable sort of the targets by `order` (unset counts as 0), cut to the
 * number of targets the subscriber's tier may see. It builds a view and never
 * changes the stored call.
 */
module Visibility {
  import opened Wrappers
  import opened Calls
  import opened UserModel

  /**
   * `subscription?.maxTargetsVisible || (subscription?.planTier === 'Regular' ? 2 : 6)`:
   * a non-zero override wins; otherwise Regular sees 2 and every other tier 6.
   */
  function VisibleLimit(sub: Option<Subscription>): (n: int)
    ensures n != 0
    ensures sub.Some? && sub.value.maxTargetsVisible.Some? && sub.value.maxTargetsVisible.value != 0
            ==> n == sub.value.maxTargetsVisible.value
    ensures (sub.None? || sub.value.maxTargetsVisible.None? || sub.value.maxTargetsVisible.value == 0)
            ==> (n == 2 || n == 6) && (n == 2 <==> sub.Some? && sub.value.planTier == Some(Regular))
  {
    var explicit := if sub.Some? then sub.value.maxTargetsVisible else None;
    if explicit.Some? && explicit.value != 0 then explicit.value
    else if sub.Some? && sub.value.planTier == Some(Regular) then 2
    else 6
  }

  /** `a.order || 0`. */
  function OrderKey(t: Target): int
  {
    match t.order
    case Some(k) => k
    case None => 0
  }

  predicate SortedByOrder(s: seq<Target>)
  {
    forall i, j :: 0 <= i < j < |s| ==> OrderKey(s[i]) <= OrderKey(s[j])
  }

  /** The targets of `s` whose order key is `k`, in their order in `s`. */
  function WithOrder(s: seq<Target>, k: int): (r: seq<Target>)
    ensures |r| <= |s|
  {
    if s == [] then []
    else (if OrderKey(s[0]) == k then [s[0]] else []) + WithOrder(s[1..], k)
  }

  lemma {:induction false} WithOrderAppend(a: seq<Target>, b: seq<Target>, k: int)
    ensures WithOrder(a + b, k) == WithOrder(a, k) + WithOrder(b, k)
  {
    if a == [] {
      assert a + b == b;
    } else {
      var head := if OrderKey(a[0]) == k then [a[0]] else [];
      assert (a + b)[0] == a[0];
      assert (a + b)[1..] == a[1..] + b;
      assert WithOrder(a + b, k) == head + WithOrder(a[1..] + b, k);
      WithOrderAppend(a[1..], b, k);
      assert WithOrder(a, k) == head + WithOrder(a[1..], k);
    }
  }

  lemma {:induction false} WithOrderAbsent(s: seq<Target>, k: int)
    requires forall j :: 0 <= j < |s| ==> OrderKey(s[j]) != k
    ensures WithOrder(s, k) == []
  {
    if s != [] { WithOrderAbsent(s[1..], k); }
  }

  /** Inserts `t` after every element whose key is not greater than its own, so equal keys keep arrival order. */
  function InsertByOrder(t: Target, s: seq<Target>): (r: seq<Target>)
    ensures multiset(r) == multiset(s) + multiset{t}
    ensures |r| == |s| + 1
  {
    if s == [] then [t]
    else if OrderKey(t) < OrderKey(s[0]) then [t] + s
    else
      assert s == [s[0]] + s[1..];
      [s[0]] + InsertByOrder(t, s[1..])
  }

  lemma {:induction false} InsertKeepsSorted(t: Target, s: seq<Target>)
    requires SortedByOrder(s)
    ensures SortedByOrder(InsertByOrder(t, s))
  {
    if s != [] && OrderKey(t) >= OrderKey(s[0]) {
      var rest := InsertByOrder(t, s[1..]);
      InsertKeepsSorted(t, s[1..]);
      forall x | x in rest ensures OrderKey(s[0]) <= OrderKey(x) {
        assert x in multiset(rest);
        assert x in multiset(s[1..]) || x == t;
      }
      assert InsertByOrder(t, s) == [s[0]] + rest;
    }
  }

  /** The stable sort of the targets by order key (insertion sort, the reference for `Array.prototype.sort`). */
  function SortByOrder(ts: seq<Target>): (r: seq<Target>)
    ensures SortedByOrder(r)
    ensures multiset(r) == multiset(ts) && |r| == |ts|
  {
    if ts == [] then []
    else
      assert ts == ts[..|ts| - 1] + [ts[|ts| - 1]];
      InsertKeepsSorted(ts[|ts| - 1], SortByOrder(ts[..|ts| - 1]));
      InsertByOrder(ts[|ts| - 1], SortByOrder(ts[..|ts| - 1]))
  }

  lemma {:induction false} InsertKeepsEqualKeysInOrder(t: Target, s: seq<Target>, k: int)
    requires SortedByOrder(s)
    ensures WithOrder(InsertByOrder(t, s), k) == WithOrder(s, k) + (if OrderKey(t) == k then [t] else [])
  {
    if s == [] {
    } else if OrderKey(t) < OrderKey(s[0]) {
      assert ([t] + s)[1..] == s;
      if OrderKey(t) == k {
        WithOrderAbsent(s, k);
      }
    } else {
      assert SortedByOrder(s[1..]) by {
        forall i, j | 0 <= i < j < |s[1..]| ensures OrderKey(s[1..][i]) <= OrderKey(s[1..][j]) {
          assert s[1..][i] == s[i + 1] && s[1..][j] == s[j + 1];
        }
      }
      InsertKeepsEqualKeysInOrder(t, s[1..], k);
      var rest := InsertByOrder(t, s[1..]);
      var head := if OrderKey(s[0]) == k then [s[0]] else [];
      assert InsertByOrder(t, s) == [s[0]] + rest;
      assert ([s[0]] + rest)[0] == s[0] && ([s[0]] + rest)[1..] == rest;
      assert WithOrder(InsertByOrder(t, s), k) == head + WithOrder(rest, k);
      assert WithOrder(s, k) == head + WithOrder(s[1..], k);
    }
  }

  /** Stability: for every order key, the targets with that key appear in the sorted list in their original order. */
  lemma {:induction false} SortIsStable(ts: seq<Target>, k: int)
    ensures WithOrder(SortByOrder(ts), k) == WithOrder(ts, k)
  {
    if ts != [] {
      var init, last := ts[..|ts| - 1], ts[|ts| - 1];
      var sortedInit := SortByOrder(init);
      var tail := if OrderKey(last) == k then [last] else [];
      calc {
        WithOrder(SortByOrder(ts), k);
        WithOrder(InsertByOrder(last, sortedInit), k);
        { InsertKeepsEqualKeysInOrder(last, sortedInit, k); }
        WithOrder(sortedInit, k) + tail;
        { SortIsStable(init, k); }
        WithOrder(init, k) + tail;
        { assert WithOrder([last], k) == tail + WithOrder([], k); }
        WithOrder(init, k) + WithOrder([last], k);
        { WithOrderAppend(init, [last], k); }
        WithOrder(init + [last], k);
        { assert init + [last] == ts; }
        WithOrder(ts, k);
      }
    }
  }

  /** Targets already in order come back unchanged. */
  lemma {:induction false} SortOfSortedIsIdentity(ts: seq<Target>)
    requires SortedByOrder(ts)
    ensures SortByOrder(ts) == ts
  {
    if ts != [] {
      var init, last := ts[..|ts| - 1], ts[|ts| - 1];
      SortOfSortedIsIdentity(init);
      InsertAtEnd(last, init);
      assert init + [last] == ts;
    }
  }

  lemma {:induction false} InsertAtEnd(t: Target, s: seq<Target>)
    requires forall j :: 0 <= j < |s| ==> OrderKey(s[j]) <= OrderKey(t)
    ensures InsertByOrder(t, s) == s + [t]
  {
    if s != [] {
      InsertAtEnd(t, s[1..]);
      assert [s[0]] + (s[1..] + [t]) == s + [t];
    }
  }

  /** `array.slice(0, end)`: a negative end counts back from the end of the array. */
  function SliceTo(s: seq<Target>, end: int): (r: seq<Target>)
    ensures r <= s
    ensures end >= 0 ==> |r| == if end < |s| then end else |s|
    ensures end < 0 ==> |r| == if |s| + end > 0 then |s| + end else 0
  {
    if end >= 0 then (if end < |s| then s[..end] else s)
    else if |s| + end > 0 then s[..|s| + end]
    else []
  }

  /** The targets a subscriber with subscription `sub` is shown. */
  function ProjectTargets(ts: seq<Target>, sub: Option<Subscription>): (r: seq<Target>)
    ensures r <= SortByOrder(ts)
    ensures SortedByOrder(r) && multiset(r) <= multiset(ts)
    ensures VisibleLimit(sub) > 0 ==> |r| == if VisibleLimit(sub) < |ts| then VisibleLimit(sub) else |ts|
    ensures VisibleLimit(sub) >= |ts| ==> r == SortByOrder(ts) && multiset(r) == multiset(ts)
  {
    var r := SliceTo(SortByOrder(ts), VisibleLimit(sub));
    assert SortByOrder(ts) == r + SortByOrder(ts)[|r|..];
    assert multiset(SortByOrder(ts)) == multiset(r) + multiset(SortByOrder(ts)[|r|..]);
    r
  }

  /** The call as a subscriber sees it; the stored call is not touched. */
  function ProjectCall(c: Call, sub: Option<Subscription>): (r: Call)
    ensures r.(targetPrices := c.targetPrices) == c
    ensures |r.targetPrices| <= |c.targetPrices|
  {
    c.(targetPrices := ProjectTargets(c.targetPrices, sub))
  }

  function ProjectCalls(calls: seq<Call>, sub: Option<Subscription>): (r: seq<Call>)
    ensures |r| == |calls|
    ensures forall i :: 0 <= i < |calls| ==> r[i] == ProjectCall(calls[i], sub)
  {
    seq(|calls|, i requires 0 <= i < |calls| => ProjectCall(calls[i], sub))
  }

  /** A projection keeps, for every order key, a prefix of that key's targets in their stored order. */
  lemma ProjectionKeepsOrderWithinKeys(ts: seq<Target>, sub: Option<Subscription>, k: int)
    ensures WithOrder(ProjectTargets(ts, sub), k) <= WithOrder(ts, k)
  {
    var r := ProjectTargets(ts, sub);
    var s := SortByOrder(ts);
    assert s == r + s[|r|..];
    WithOrderAppend(r, s[|r|..], k);
    SortIsStable(ts, k);
  }

  /** With a negative override the projection drops targets from the end instead of returning none. */
  lemma NegativeLimitDropsFromEnd(ts: seq<Target>, sub: Option<Subscription>)
    requires VisibleLimit(sub) < 0
    ensures |ProjectTargets(ts, sub)| == if |ts| + VisibleLimit(sub) > 0 then |ts| + VisibleLimit(sub) else 0
  {
  }

  /**
   * Six targets ordered 1..6: a Regular subscriber without override sees the
   * first two, a Premium one sees all six.
   */
  lemma SixTargetScenario(ts: seq<Target>, regular: Subscription, premium: Subscription)
    requires |ts| == 6 && forall j :: 0 <= j < 6 ==> ts[j].order == Some(j + 1)
    requires regular.planTier == Some(Regular) && regular.maxTargetsVisible.None?
    requires premium.planTier == Some(Premium) && premium.maxTargetsVisible.None?
    ensures ProjectTargets(ts, Some(regular)) == ts[..2]
    ensures ProjectTargets(ts, Some(premium)) == ts
  {
    SortOfSortedIsIdentity(ts);
  }
}
