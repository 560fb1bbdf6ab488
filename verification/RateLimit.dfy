/** Per-user token buckets and the idempotency cache (pkg/ratelimit/ratelimit.go). Time is in seconds. */
module RateLimit {
  import opened Lists

  datatype Bucket = Bucket(tokens: real, last: real)

  datatype Limits = Limits(rate: real, burst: real)

  type Buckets = map<string, Bucket>

  // ---------- one call ----------

  /** What accrues between two moments. */
  function Accrued(l: Limits, a: real, b: real): real { (b - a) * l.rate }

  function Refilled(l: Limits, b: Bucket, now: real): real {
    var t := b.tokens + Accrued(l, b.last, now);
    if t > l.burst then l.burst else t
  }

  predicate Passes(l: Limits, bs: Buckets, user: string, now: real) {
    user == "" || user !in bs || Refilled(l, bs[user], now) >= 1.0
  }

  function After(l: Limits, bs: Buckets, user: string, now: real): Buckets {
    if user == "" then bs
    else if user !in bs then bs[user := Bucket(l.burst - 1.0, now)]
    else
      var t := Refilled(l, bs[user], now);
      bs[user := Bucket(if t < 1.0 then t else t - 1.0, now)]
  }

  class UserLimiter {
    const limits: Limits
    var buckets: Buckets

    constructor (rate: real, burst: real)
      ensures limits == Limits(rate, burst) && buckets == map[]
    {
      limits, buckets := Limits(rate, burst), map[];
    }

    method Allow(user: string, now: real) returns (ok: bool)
      modifies this
      ensures ok == Passes(limits, old(buckets), user, now)
      ensures buckets == After(limits, old(buckets), user, now)
    {
      if user == "" { return true; }
      if user !in buckets {
        buckets := buckets[user := Bucket(limits.burst - 1.0, now)];
        return true;
      }
      var b := buckets[user];
      var tokens := b.tokens + Accrued(limits, b.last, now);
      if tokens > limits.burst { tokens := limits.burst; }
      assert tokens == Refilled(limits, b, now);
      if tokens < 1.0 {
        buckets := buckets[user := Bucket(tokens, now)];
        return false;
      }
      buckets := buckets[user := Bucket(tokens - 1.0, now)];
      return true;
    }
  }

  // ---------- any sequence of calls ----------

  datatype Call = Call(user: string, at: real)

  predicate InOrder(calls: seq<Call>) { forall i, j :: 0 <= i < j < |calls| ==> calls[i].at <= calls[j].at }

  /** How many calls of the user between t1 and t2 are allowed. */
  function Allowed(l: Limits, bs: Buckets, calls: seq<Call>, user: string, t1: real, t2: real): nat
    decreases |calls|
  {
    if calls == [] then 0
    else
      var c := calls[0];
      (if c.user == user && t1 <= c.at <= t2 && Passes(l, bs, c.user, c.at) then 1 else 0)
      + Allowed(l, After(l, bs, c.user, c.at), calls[1..], user, t1, t2)
  }

  /** The user's bucket is between empty and full, and was last used before the calls that follow. */
  predicate BucketOk(l: Limits, bs: Buckets, user: string, calls: seq<Call>) {
    user in bs ==>
      && 0.0 <= bs[user].tokens <= l.burst
      && (calls != [] ==> bs[user].last <= calls[0].at)
  }

  lemma Gains(l: Limits, a: real, b: real)
    requires l.rate >= 0.0 && a <= b
    ensures Accrued(l, a, b) >= 0.0
  {
  }

  lemma GainsAdd(l: Limits, a: real, b: real, c: real)
    ensures Accrued(l, a, c) == Accrued(l, a, b) + Accrued(l, b, c)
  {
  }

  lemma {:induction false} NoneLater(l: Limits, bs: Buckets, calls: seq<Call>, user: string, t1: real, t2: real)
    requires InOrder(calls) && (calls != [] ==> calls[0].at > t2)
    ensures Allowed(l, bs, calls, user, t1, t2) == 0
    decreases |calls|
  {
    if calls != [] {
      var c := calls[0];
      NoneLater(l, After(l, bs, c.user, c.at), calls[1..], user, t1, t2);
    }
  }

  /** One call: what is left in the bucket, and one token less when it passes. */
  lemma OneCall(l: Limits, bs: Buckets, user: string, now: real)
    requires l.burst >= 1.0 && l.rate >= 0.0 && user != "" && user in bs && bs[user].last <= now
    requires 0.0 <= bs[user].tokens <= l.burst
    ensures var b := After(l, bs, user, now)[user]; var spent := if Passes(l, bs, user, now) then 1.0 else 0.0;
            && b.last == now && 0.0 <= b.tokens && b.tokens + spent <= l.burst
            && b.tokens + spent <= bs[user].tokens + Accrued(l, bs[user].last, now)
  {
    Gains(l, bs[user].last, now);
  }

  /** Up to t2 a bucket gives out no more than it holds and what it gains until then. */
  lemma {:induction false} SpendsWhatItHas(l: Limits, bs: Buckets, calls: seq<Call>, user: string, t1: real, t2: real)
    requires l.burst >= 1.0 && l.rate >= 0.0 && user != "" && user in bs && InOrder(calls)
    requires BucketOk(l, bs, user, calls) && bs[user].last <= t2
    ensures Allowed(l, bs, calls, user, t1, t2) as real <= bs[user].tokens + Accrued(l, bs[user].last, t2)
    decreases |calls|
  {
    Gains(l, bs[user].last, t2);
    if calls != [] {
      var c := calls[0];
      var next := After(l, bs, c.user, c.at);
      if c.user != user {
        SpendsWhatItHas(l, next, calls[1..], user, t1, t2);
      } else if c.at <= t2 {
        OneCall(l, bs, user, c.at);
        SpendsWhatItHas(l, next, calls[1..], user, t1, t2);
        GainsAdd(l, bs[user].last, c.at, t2);
      } else {
        NoneLater(l, bs, calls, user, t1, t2);
      }
    }
  }

  /** The first call of a user passes and leaves the rest of the burst. */
  lemma FirstCall(l: Limits, bs: Buckets, user: string, now: real)
    requires user != "" && user !in bs
    ensures Passes(l, bs, user, now) && After(l, bs, user, now)[user] == Bucket(l.burst - 1.0, now)
  {
  }

  /** In any window a user gets at most the burst and what accrues during the window. */
  lemma {:induction false} WindowBound(l: Limits, bs: Buckets, calls: seq<Call>, user: string, t1: real, t2: real)
    requires l.burst >= 1.0 && l.rate >= 0.0 && user != "" && InOrder(calls) && t1 <= t2
    requires BucketOk(l, bs, user, calls)
    ensures Allowed(l, bs, calls, user, t1, t2) as real <= l.burst + Accrued(l, t1, t2)
    decreases |calls|
  {
    Gains(l, t1, t2);
    if calls != [] {
      var c := calls[0];
      var next := After(l, bs, c.user, c.at);
      if c.user != user {
        WindowBound(l, next, calls[1..], user, t1, t2);
      } else {
        if user in bs { OneCall(l, bs, user, c.at); } else { FirstCall(l, bs, user, c.at); }
        if t1 <= c.at <= t2 {
          SpendsWhatItHas(l, next, calls[1..], user, t1, t2);
          GainsAdd(l, t1, c.at, t2);
          Gains(l, t1, c.at);
        } else {
          WindowBound(l, next, calls[1..], user, t1, t2);
        }
      }
    }
  }

  /** The calls of a window stay within the burst and the rate. */
  predicate WithinRate(l: Limits, calls: seq<Call>, user: string, t1: real, t2: real) {
    Allowed(l, map[], calls, user, t1, t2) as real <= l.burst + Accrued(l, t1, t2)
  }

  /** The promise of a rate limiter, for every user and every sequence of calls. */
  ghost predicate KeepsToRate(l: Limits) {
    forall calls: seq<Call>, user: string, t1: real, t2: real :: InOrder(calls) && user != "" && t1 <= t2 ==>
      WithinRate(l, calls, user, t1, t2)
  }

  lemma FirstCallPasses(l: Limits, t2: real)
    requires 0.0 <= t2
    ensures Allowed(l, map[], [Call("u", 0.0)], "u", 0.0, t2) == 1
  {
    assert [Call("u", 0.0)][1..] == [];
  }

  /** How long the first call alone takes to exceed limits that drain. */
  function DrainTime(l: Limits): real
    requires l.rate < 0.0 && l.burst >= 0.0
  {
    l.burst / -l.rate
  }

  lemma BrokenPromise(l: Limits)
    requires l.burst < 1.0 || l.rate < 0.0
    ensures !KeepsToRate(l)
  {
    var calls := [Call("u", 0.0)];
    var t2 := if l.burst < 1.0 then 0.0 else DrainTime(l);
    FirstCallPasses(l, t2);
    assert l.burst >= 1.0 ==> Accrued(l, 0.0, t2) == -l.burst;
    assert InOrder(calls) && !WithinRate(l, calls, "u", 0.0, t2);
  }

  /** The promise holds exactly for limits that allow a call at all and do not drain with time. */
  lemma KeepsToRateIff(l: Limits)
    ensures KeepsToRate(l) <==> l.burst >= 1.0 && l.rate >= 0.0
  {
    if l.burst >= 1.0 && l.rate >= 0.0 {
      forall calls: seq<Call>, user: string, t1: real, t2: real | InOrder(calls) && user != "" && t1 <= t2
        ensures WithinRate(l, calls, user, t1, t2)
      {
        WindowBound(l, map[], calls, user, t1, t2);
      }
    } else {
      BrokenPromise(l);
    }
  }

  // ---------- which calls pass ----------

  /** The buckets after the first k calls of a new limiter. */
  function BucketsAt(l: Limits, calls: seq<Call>, k: nat): Buckets
    requires k <= |calls|
  {
    if k == 0 then map[] else After(l, BucketsAt(l, calls, k - 1), calls[k - 1].user, calls[k - 1].at)
  }

  predicate CallPasses(l: Limits, calls: seq<Call>, k: nat)
    requires k < |calls|
  {
    Passes(l, BucketsAt(l, calls, k), calls[k].user, calls[k].at)
  }

  /** How many of the user's calls from the j-th up to the k-th have passed. */
  function Passed(l: Limits, calls: seq<Call>, user: string, j: nat, k: nat): nat
    requires j <= k <= |calls|
    decreases k
  {
    if j == k then 0
    else Passed(l, calls, user, j, k - 1) + if calls[k - 1].user == user && CallPasses(l, calls, k - 1) then 1 else 0
  }

  /** What the limits leave for a moment, counted from the j-th call on. */
  function LeftSince(l: Limits, calls: seq<Call>, user: string, j: nat, k: nat, now: real): real
    requires j < k <= |calls|
  {
    l.burst + Accrued(l, calls[j].at, now) - Passed(l, calls, user, j, k) as real
  }

  /** What the user's bucket holds at a moment, before it is cut to the burst. */
  function Held(l: Limits, calls: seq<Call>, user: string, k: nat, now: real): real
    requires k <= |calls| && user in BucketsAt(l, calls, k)
  {
    var b := BucketsAt(l, calls, k)[user];
    b.tokens + Accrued(l, b.last, now)
  }

  predicate Earlier(calls: seq<Call>, user: string, j: nat, k: nat)
    requires k <= |calls|
  {
    j < k && calls[j].user == user
  }

  lemma {:induction false} KnownIffCalled(l: Limits, calls: seq<Call>, user: string, k: nat)
    requires k <= |calls| && user != ""
    ensures user in BucketsAt(l, calls, k) <==> exists j: nat :: Earlier(calls, user, j, k)
  {
    if k > 0 {
      var m := k - 1;
      KnownIffCalled(l, calls, user, m);
      if calls[m].user == user { assert Earlier(calls, user, m, k); }
      if j: nat :| Earlier(calls, user, j, m) { assert Earlier(calls, user, j, k); }
      if j: nat :| Earlier(calls, user, j, k) && j < m { assert Earlier(calls, user, j, m); }
    }
  }

  /** One call more, as it counts from an earlier call on. */
  lemma LeftAfterCall(l: Limits, calls: seq<Call>, user: string, j: nat, k: nat, now: real)
    requires j < k < |calls|
    ensures LeftSince(l, calls, user, j, k + 1, now) == LeftSince(l, calls, user, j, k, calls[k].at)
      + Accrued(l, calls[k].at, now) - if calls[k].user == user && CallPasses(l, calls, k) then 1.0 else 0.0
  {
    GainsAdd(l, calls[j].at, calls[k].at, now);
  }

  lemma HeldAfterCall(l: Limits, calls: seq<Call>, user: string, k: nat, now: real)
    requires k < |calls| && user != "" && calls[k].user == user && user in BucketsAt(l, calls, k)
    ensures var held, spent := Held(l, calls, user, k, calls[k].at), if CallPasses(l, calls, k) then 1.0 else 0.0;
            && user in BucketsAt(l, calls, k + 1)
            && Held(l, calls, user, k + 1, now) == (if held > l.burst then l.burst else held) - spent + Accrued(l, calls[k].at, now)
            && (CallPasses(l, calls, k) <==> (if held > l.burst then l.burst else held) >= 1.0)
  {
  }

  /** The bucket holds the least of what is left since any earlier call of the user. */
  ghost predicate HoldsLeast(l: Limits, calls: seq<Call>, user: string, k: nat, now: real)
    requires k <= |calls| && user in BucketsAt(l, calls, k)
  {
    && (forall j: nat :: Earlier(calls, user, j, k) ==> LeftSince(l, calls, user, j, k, now) >= Held(l, calls, user, k, now))
    && exists j: nat :: Earlier(calls, user, j, k) && LeftSince(l, calls, user, j, k, now) == Held(l, calls, user, k, now)
  }

  lemma {:induction false} BucketIsLeast(l: Limits, calls: seq<Call>, user: string, k: nat, now: real)
    requires k <= |calls| && user != "" && user in BucketsAt(l, calls, k)
    ensures HoldsLeast(l, calls, user, k, now)
    decreases k
  {
    if calls[k - 1].user != user {
      BucketIsLeast(l, calls, user, k - 1, calls[k - 1].at);
      OtherCall(l, calls, user, k - 1, now);
    } else if user in BucketsAt(l, calls, k - 1) {
      BucketIsLeast(l, calls, user, k - 1, calls[k - 1].at);
      OwnCall(l, calls, user, k - 1, now);
    } else {
      KnownIffCalled(l, calls, user, k - 1);
      FirstOwnCall(l, calls, user, k - 1, now);
    }
  }

  lemma OtherCall(l: Limits, calls: seq<Call>, user: string, k: nat, now: real)
    requires k < |calls| && user != "" && calls[k].user != user && user in BucketsAt(l, calls, k)
    requires HoldsLeast(l, calls, user, k, calls[k].at)
    ensures HoldsLeast(l, calls, user, k + 1, now)
  {
    var b, n := BucketsAt(l, calls, k)[user], k + 1;
    GainsAdd(l, b.last, calls[k].at, now);
    forall j: nat | Earlier(calls, user, j, n)
      ensures LeftSince(l, calls, user, j, n, now) >= Held(l, calls, user, n, now)
    {
      assert Earlier(calls, user, j, k);
      LeftAfterCall(l, calls, user, j, k, now);
    }
    var at := calls[k].at;
    var j: nat :| Earlier(calls, user, j, k) && LeftSince(l, calls, user, j, k, at) == Held(l, calls, user, k, at);
    LeftAfterCall(l, calls, user, j, k, now);
    assert Earlier(calls, user, j, k + 1);
  }

  lemma OwnCall(l: Limits, calls: seq<Call>, user: string, k: nat, now: real)
    requires k < |calls| && user != "" && calls[k].user == user && user in BucketsAt(l, calls, k)
    requires HoldsLeast(l, calls, user, k, calls[k].at)
    ensures user in BucketsAt(l, calls, k + 1) && HoldsLeast(l, calls, user, k + 1, now)
  {
    var n := k + 1;
    HeldAfterCall(l, calls, user, k, now);
    LeftSinceItself(l, calls, user, k, now);
    forall j: nat | Earlier(calls, user, j, n)
      ensures LeftSince(l, calls, user, j, n, now) >= Held(l, calls, user, n, now)
    {
      if j < k {
        assert Earlier(calls, user, j, k);
        LeftAfterCall(l, calls, user, j, k, now);
      }
    }
    var at := calls[k].at;
    var j: nat :| Earlier(calls, user, j, k) && LeftSince(l, calls, user, j, k, at) == Held(l, calls, user, k, at);
    LeftAfterCall(l, calls, user, j, k, now);
    assert Earlier(calls, user, j, k + 1) && Earlier(calls, user, k, k + 1);
  }

  lemma LeftSinceItself(l: Limits, calls: seq<Call>, user: string, k: nat, now: real)
    requires k < |calls| && calls[k].user == user
    ensures LeftSince(l, calls, user, k, k + 1, now) ==
      l.burst + Accrued(l, calls[k].at, now) - if CallPasses(l, calls, k) then 1.0 else 0.0
  {
    assert Passed(l, calls, user, k, k) == 0;
  }

  lemma EarlierOrItself(calls: seq<Call>, user: string, j: nat, k: nat)
    requires k < |calls| && Earlier(calls, user, j, k + 1)
    ensures j == k || Earlier(calls, user, j, k)
  {
  }

  lemma FirstOwnCall(l: Limits, calls: seq<Call>, user: string, k: nat, now: real)
    requires k < |calls| && user != "" && calls[k].user == user && user !in BucketsAt(l, calls, k)
    requires forall j: nat :: !Earlier(calls, user, j, k)
    ensures user in BucketsAt(l, calls, k + 1) && HoldsLeast(l, calls, user, k + 1, now)
  {
    var n := k + 1;
    LeftSinceItself(l, calls, user, k, now);
    forall j: nat | Earlier(calls, user, j, n) ensures j == k {
      EarlierOrItself(calls, user, j, k);
    }
    assert Earlier(calls, user, k, n);
  }

  /** With this call the user would still be within the burst and the rate, counted from any of its earlier calls. */
  ghost predicate StaysWithin(l: Limits, calls: seq<Call>, k: nat)
    requires k < |calls|
  {
    forall j: nat :: Earlier(calls, calls[k].user, j, k) ==>
      Passed(l, calls, calls[k].user, j, k) as real + 1.0 <= l.burst + Accrued(l, calls[j].at, calls[k].at)
  }

  /**
   * Of any sequence of calls exactly those pass that keep their user within the limits: a user's first
   * call always, and every later one if and only if, together with the calls that passed since any
   * earlier one, it is within the burst and what has accrued since. No call is refused needlessly.
   */
  lemma PassesIffWithin(l: Limits, calls: seq<Call>, k: nat)
    requires k < |calls| && calls[k].user != ""
    ensures CallPasses(l, calls, k) <==>
      (forall j: nat :: !Earlier(calls, calls[k].user, j, k)) || (l.burst >= 1.0 && StaysWithin(l, calls, k))
  {
    var user, now := calls[k].user, calls[k].at;
    KnownIffCalled(l, calls, user, k);
    if user in BucketsAt(l, calls, k) {
      BucketIsLeast(l, calls, user, k, now);
      HeldAfterCall(l, calls, user, k, now);
      assert forall j: nat :: Earlier(calls, user, j, k) ==>
        (LeftSince(l, calls, user, j, k, now) >= 1.0
         <==> Passed(l, calls, user, j, k) as real + 1.0 <= l.burst + Accrued(l, calls[j].at, now));
    }
  }

  // ---------- the idempotency cache ----------

  function Without(keys: seq<string>, key: string): seq<string> {
    if keys == [] then [] else (if keys[0] == key then [] else [keys[0]]) + Without(keys[1..], key)
  }

  /** The different keys of the uses, the latest first. */
  function Recent(uses: seq<string>): seq<string> {
    if uses == [] then []
    else
      var key := uses[|uses| - 1];
      [key] + Without(Recent(uses[..|uses| - 1]), key)
  }

  function Prefix(keys: seq<string>, n: nat): seq<string> { if |keys| <= n then keys else keys[..n] }

  class IdemCache {
    const capacity: nat
    var order: seq<string>
    ghost var uses: seq<string>

    /** What is kept is the most recently used keys, as many as fit. */
    ghost predicate Valid()
      reads this
    {
      order == Prefix(Recent(uses), capacity)
    }

    constructor (n: nat)
      ensures Valid() && capacity == n && uses == []
    {
      capacity, order, uses := n, [], [];
    }

    /** Whether the key is among the `capacity` keys used last; it becomes the latest one. */
    method SeenOrStore(key: string) returns (seen: bool)
      requires Valid()
      modifies this
      ensures Valid()
      ensures key == "" ==> !seen && uses == old(uses) && order == old(order)
      ensures key != "" ==> uses == old(uses) + [key] && (seen <==> key in Prefix(Recent(old(uses)), capacity))
    {
      if key == "" { return false; }
      ghost var recent := Recent(uses);
      assert (uses + [key])[..|uses|] == uses;
      assert Recent(uses + [key]) == [key] + Without(recent, key);
      seen := key in order;
      if seen {
        RecentIs(uses);
        MoveToFront(recent, capacity, key);
        order := [key] + Without(order, key);
      } else {
        PushToFront(recent, capacity, key);
        order := [key] + order;
        while |order| > capacity
          invariant uses == old(uses) && Prefix(order, capacity) == Prefix([key] + Without(recent, key), capacity)
        {
          order := order[..|order| - 1];
        }
      }
      uses := uses + [key];
    }
  }

  lemma {:induction false} WithoutMissing(keys: seq<string>, key: string)
    requires key !in keys
    ensures Without(keys, key) == keys
  {
    if keys != [] { WithoutMissing(keys[1..], key); }
  }

  lemma {:induction false} WithoutJoin(a: seq<string>, b: seq<string>, key: string)
    ensures Without(a + b, key) == Without(a, key) + Without(b, key)
  {
    if a == [] {
      assert a + b == b;
    } else {
      WithoutJoin(a[1..], b, key);
      assert (a + b)[1..] == a[1..] + b && (a + b)[0] == a[0];
      JoinThree([a[0]], Without(a[1..], key), Without(b, key));
    }
  }

  lemma {:induction false} WithoutLength(keys: seq<string>, key: string)
    requires key in keys && forall i, j :: 0 <= i < j < |keys| ==> keys[i] != keys[j]
    ensures |Without(keys, key)| == |keys| - 1
  {
    if keys[0] == key {
      WithoutMissing(keys[1..], key);
    } else {
      WithoutLength(keys[1..], key);
    }
  }

  /** A key that is not kept: what is kept behind it is what was kept before. */
  lemma PushToFront(recent: seq<string>, n: nat, key: string)
    requires key !in Prefix(recent, n)
    ensures Prefix([key] + Prefix(recent, n), n) == Prefix([key] + Without(recent, key), n)
  {
    if |recent| <= n {
      WithoutMissing(recent, key);
    } else {
      WithoutMissing(recent[..n], key);
      WithoutJoin(recent[..n], recent[n..], key);
      assert recent == recent[..n] + recent[n..];
    }
  }

  predicate NoRepeats(keys: seq<string>) { forall i, j :: 0 <= i < j < |keys| ==> keys[i] != keys[j] }

  lemma {:induction false} WithoutIs(keys: seq<string>, key: string)
    ensures forall k :: k in Without(keys, key) <==> k in keys && k != key
    ensures NoRepeats(keys) ==> NoRepeats(Without(keys, key))
  {
    if keys != [] {
      WithoutIs(keys[1..], key);
      assert keys == [keys[0]] + keys[1..];
      if NoRepeats(keys) { assert keys[0] !in keys[1..]; }
    }
  }

  lemma {:induction false} RecentIs(uses: seq<string>)
    ensures NoRepeats(Recent(uses)) && forall k :: k in Recent(uses) <==> k in uses
  {
    if uses != [] {
      var before, key := uses[..|uses| - 1], uses[|uses| - 1];
      RecentIs(before);
      WithoutIs(Recent(before), key);
      var rest := Without(Recent(before), key);
      assert uses == before + [key] && Recent(uses) == [key] + rest;
      forall i, j | 0 <= i < j < |Recent(uses)| ensures Recent(uses)[i] != Recent(uses)[j] {
        assert Recent(uses)[j] == rest[j - 1] && rest[j - 1] in rest;
        if i > 0 { assert Recent(uses)[i] == rest[i - 1]; }
      }
    }
  }

  /** A key that is kept: the others keep their places behind it. */
  lemma MoveToFront(recent: seq<string>, n: nat, key: string)
    requires NoRepeats(recent) && key in Prefix(recent, n)
    ensures [key] + Without(Prefix(recent, n), key) == Prefix([key] + Without(recent, key), n)
  {
    if |recent| <= n {
      WithoutLength(recent, key);
    } else {
      var a, b := recent[..n], recent[n..];
      assert recent == a + b;
      assert key !in b by {
        var i :| 0 <= i < n && a[i] == key;
        forall j | 0 <= j < |b| ensures b[j] != key { assert b[j] == recent[n + j] && recent[i] == key; }
      }
      WithoutLength(a, key);
      WithoutMissing(b, key);
      WithoutJoin(a, b, key);
    }
  }
}
