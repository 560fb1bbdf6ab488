/** Distance of a hand from seven different pairs, and from winning in either way (internal/mahjong/analysis/analysis.go). */
module PairDistance {
  import opened Blocks
  import opened HandForm
  import opened Shanten

  // ---------- what the number means ----------

  /** A choice of kinds. */
  type Choice = p: seq<bool> | |p| == KINDS witness seq(KINDS, _ => false)

  function Chosen(p: Choice, n: nat): nat
    requires n <= KINDS
  {
    if n == 0 then 0 else Chosen(p, n - 1) + (if p[n - 1] then 1 else 0)
  }

  /** How many tiles the hand lacks for a pair of every chosen kind. */
  function Lacks(c: Counts, p: Choice, n: nat): nat
    requires n <= KINDS
  {
    if n == 0 then 0 else Lacks(c, p, n - 1) + (if p[n - 1] && c[n - 1] < 2 then 2 - c[n - 1] else 0)
  }

  /** The least number of tiles that are missing for pairs of seven different kinds. */
  ghost predicate IsPairDistance(c: Counts, d: int) {
    && (forall p: Choice :: Chosen(p, KINDS) == 7 ==> d <= Lacks(c, p, KINDS))
    && exists p: Choice :: Chosen(p, KINDS) == 7 && d == Lacks(c, p, KINDS)
  }

  // ---------- what the engine counts ----------

  function KindsTo(c: Counts, n: nat): (r: nat)
    requires n <= KINDS
    ensures r <= n
  {
    if n == 0 then 0 else KindsTo(c, n - 1) + (if c[n - 1] > 0 then 1 else 0)
  }

  function PairsTo(c: Counts, n: nat): (r: nat)
    requires n <= KINDS
    ensures r <= KindsTo(c, n)
  {
    if n == 0 then 0 else PairsTo(c, n - 1) + (if c[n - 1] >= 2 then 1 else 0)
  }

  function PairScore(c: Counts): int {
    7 - PairsTo(c, KINDS) + (if KindsTo(c, KINDS) < 7 then 7 - KindsTo(c, KINDS) else 0)
  }

  /** No choice lacks less than what its kinds cannot contribute. */
  lemma {:induction false} ChoiceLacks(c: Counts, p: Choice, n: nat)
    requires n <= KINDS
    ensures Lacks(c, p, n) >= Chosen(p, n) - PairsTo(c, n)
    ensures Lacks(c, p, n) >= 2 * Chosen(p, n) - PairsTo(c, n) - KindsTo(c, n)
  {
    if n > 0 { ChoiceLacks(c, p, n - 1); }
  }

  /** Chooses all pairs, so many single tiles and so many kinds that are not in the hand. */
  lemma {:induction false} Choose(c: Counts, n: nat, singles: nat, absent: nat) returns (p: Choice)
    requires n <= KINDS && singles <= KindsTo(c, n) - PairsTo(c, n) && absent <= n - KindsTo(c, n)
    ensures Chosen(p, n) == PairsTo(c, n) + singles + absent && Lacks(c, p, n) == singles + 2 * absent
  {
    if n == 0 {
      p := seq(KINDS, _ => false);
    } else {
      var last := c[n - 1];
      var single := last == 1 && singles > 0;
      var none := last == 0 && absent > 0;
      var q := Choose(c, n - 1, if single then singles - 1 else singles, if none then absent - 1 else absent);
      p := q[n - 1 := last >= 2 || single || none];
      SameBefore(c, p, q, n - 1);
    }
  }

  lemma {:induction false} SameBefore(c: Counts, p: Choice, q: Choice, n: nat)
    requires n <= KINDS && p[..n] == q[..n]
    ensures Chosen(p, n) == Chosen(q, n) && Lacks(c, p, n) == Lacks(c, q, n)
  {
    if n > 0 {
      assert p[n - 1] == p[..n][n - 1] == q[n - 1];
      assert p[..n - 1] == p[..n][..n - 1] == q[..n - 1];
      SameBefore(c, p, q, n - 1);
    }
  }

  /** The engine's count is the distance exactly when no more than seven kinds are paired. */
  lemma PairScoreIsDistance(c: Counts)
    ensures IsPairDistance(c, PairScore(c)) <==> PairsTo(c, KINDS) <= 7
  {
    var pairs, kinds := PairsTo(c, KINDS), KindsTo(c, KINDS);
    if pairs <= 7 {
      var p := Choose(c, KINDS, if kinds < 7 then kinds - pairs else 7 - pairs, if kinds < 7 then 7 - kinds else 0);
      assert Chosen(p, KINDS) == 7 && Lacks(c, p, KINDS) == PairScore(c);
      forall q: Choice | Chosen(q, KINDS) == 7 ensures PairScore(c) <= Lacks(c, q, KINDS) { ChoiceLacks(c, q, KINDS); }
    } else {
      assert PairScore(c) < 0;
    }
  }

  lemma PairDistanceUnique(c: Counts, d: int, e: int)
    requires IsPairDistance(c, d) && IsPairDistance(c, e)
    ensures d == e
  {
    var p: Choice :| Chosen(p, KINDS) == 7 && d == Lacks(c, p, KINDS);
    var q: Choice :| Chosen(q, KINDS) == 7 && e == Lacks(c, q, KINDS);
  }

  // ---------- hands of a real size ----------

  lemma {:induction false} PairsFit(c: Counts, n: nat)
    requires n <= KINDS
    ensures 2 * PairsTo(c, n) <= TotalTo(c, n)
    ensures 2 * PairsTo(c, n) == TotalTo(c, n) ==> forall k :: 0 <= k < n ==> c[k] == 0 || c[k] == 2
  {
    if n > 0 { PairsFit(c, n - 1); }
  }

  lemma {:induction false} ListPairs(c: Counts, n: nat) returns (ps: seq<nat>)
    requires n <= KINDS && forall k :: 0 <= k < n ==> c[k] == 0 || c[k] == 2
    ensures PairSum(c, n, ps) && |ps| == PairsTo(c, n)
  {
    if n == 0 {
      ps := [];
    } else {
      ps := ListPairs(c, n - 1);
      ps := MorePairs(c, n - 1, ps, if c[n - 1] == 2 then 1 else 0);
    }
  }

  /** Fourteen tiles that lack nothing are seven pairs. */
  lemma NothingLacks(c: Counts)
    requires Total(c) == 14 && PairScore(c) <= 0
    ensures IsSevenPairs(c)
  {
    PairsFit(c, KINDS);
    var ps := ListPairs(c, KINDS);
    assert |ps| == 7;
  }

  // ---------- the methods ----------

  method SevenPairsShanten(c: Counts) returns (n: int)
    ensures n == PairScore(c) - 1
    ensures IsPairDistance(c, n + 1) <==> PairsTo(c, KINDS) <= 7
  {
    var pairs, kinds := 0, 0;
    for k := 0 to KINDS
      invariant pairs == PairsTo(c, k) && kinds == KindsTo(c, k)
    {
      if c[k] > 0 { kinds := kinds + 1; }
      if c[k] >= 2 { pairs := pairs + 1; }
    }
    var needPairs, needKinds := 7 - pairs, 7 - kinds;
    if needKinds < 0 { needKinds := 0; }
    PairScoreIsDistance(c);
    return needPairs + needKinds - 1;
  }

  /** What the overall distance is for a hand with no more than seven kinds paired. */
  ghost predicate IsDistance(c: Counts, n: int) {
    if Total(c) == 0 then n == 8
    else if Total(c) == 14 && WinningShape(c, 0) then n == -1
    else exists s, d :: IsShanten(c, s) && IsPairDistance(c, d) && n == Min(s, d - 1)
  }

  /** A winning hand is found by the winning test, any other by the nearer of the two shapes. */
  method Distance(c: Counts) returns (n: int)
    ensures PairsTo(c, KINDS) <= 7 ==> IsDistance(c, n)
    ensures PairsTo(c, KINDS) > 7 ==> n == 6 - PairsTo(c, KINDS)
  {
    PairsFit(c, KINDS);
    var total := TotalCount(c);
    if total == 0 { return 8; }
    if total % 3 == 2 {
      var won := IsWinning(c);
      if won {
        WinningHasFourteen(c);
        return -1;
      }
    }
    var std := StandardShanten(c);
    var qd := SevenPairsShanten(c);
    assert IsShanten(c, std);
    if qd < std { return qd; }
    return std;
  }

  lemma WinningHasFourteen(c: Counts)
    requires WinningShape(c, 0)
    ensures Total(c) == 14
  {
    if IsSevenPairs(c) {
      var qs: seq<nat> :| |qs| == 7 && PairSum(c, KINDS, qs);
      PairsTotal(c, qs);
    } else {
      PairAndMeldsTotal(c, 4);
    }
  }

  // ---------- what the extreme values say ----------

  lemma DistanceIs(c: Counts, n: int) returns (s: int)
    requires 13 <= Total(c) <= 14 && IsDistance(c, n) && !WinningShape(c, 0)
    ensures IsShanten(c, s) && IsPairDistance(c, PairScore(c)) && n == Min(s, PairScore(c) - 1)
  {
    var d: int;
    s, d :| IsShanten(c, s) && IsPairDistance(c, d) && n == Min(s, d - 1);
    PairsFit(c, KINDS);
    PairScoreIsDistance(c);
    PairDistanceUnique(c, d, PairScore(c));
  }

  /** Fourteen tiles, at most four of a kind: -1 exactly for a winning hand. */
  lemma MinusOneWins(c: Counts, n: int)
    requires IsDistance(c, n) && Total(c) == 14 && AtMostFour(c)
    ensures n == -1 <==> WinningShape(c, 0)
  {
    if !WinningShape(c, 0) {
      var s := DistanceIs(c, n);
      WinningIsMinusOne(c, s);
      if PairScore(c) <= 0 { NothingLacks(c); }
    }
  }

  /** Thirteen tiles: never below 0, and 0 exactly when one tile completes a standard hand or seven different pairs. */
  lemma ZeroLacksOne(c: Counts, n: int)
    requires IsDistance(c, n) && Total(c) == 13
    ensures n >= 0 && (n == 0 <==> Waiting(c) || IsPairDistance(c, 1))
  {
    if WinningShape(c, 0) { WinningHasFourteen(c); }
    var s := DistanceIs(c, n);
    ReadyIsZero(c, s);
    PairsFit(c, KINDS);
    if IsPairDistance(c, 1) { PairDistanceUnique(c, 1, PairScore(c)); }
  }

  // ---------- four of a kind ----------

  lemma {:induction false} EvenPairs(c: Counts, n: nat)
    requires n <= KINDS && forall k :: 0 <= k < n ==> c[k] == 0 || c[k] == 2
    ensures 2 * PairsTo(c, n) == TotalTo(c, n)
  {
    if n > 0 { EvenPairs(c, n - 1); }
  }

  /** Seven pairs that win lack nothing by this count exactly when no kind occurs four times. */
  lemma FourCountsOnce(c: Counts)
    requires IsSevenPairs(c)
    ensures IsPairDistance(c, 0) <==> forall k :: 0 <= k < KINDS ==> c[k] != 4
  {
    var qs: seq<nat> :| |qs| == 7 && PairSum(c, KINDS, qs);
    PairsTotal(c, qs);
    PairsFit(c, KINDS);
    PairScoreIsDistance(c);
    if IsPairDistance(c, 0) { PairDistanceUnique(c, 0, PairScore(c)); }
    if forall k :: 0 <= k < KINDS ==> c[k] != 4 { EvenPairs(c, KINDS); }
  }

  /** Four of the first kind and pairs of the next five. */
  function FourAndFive(): Counts { seq(KINDS, k => if k == 0 then 4 else if k <= 5 then 2 else 0) }

  lemma FourAndFiveIsSeven(c: Counts, ps: seq<nat>)
    requires c == FourAndFive() && ps == [0, 0, 1, 2, 3, 4, 5]
    ensures IsSevenPairs(c)
  {
    forall k | 0 <= k < KINDS ensures PairsOf(ps, k) <= 2 && c[k] == 2 * PairsOf(ps, k) { PairsOfSeven(ps, k); }
  }

  /** A winning hand that still lacks something by the count of different pairs. */
  lemma FourIsTwoPairs()
    ensures IsSevenPairs(FourAndFive()) && WinningShape(FourAndFive(), 0) && !IsPairDistance(FourAndFive(), 0)
  {
    var c := FourAndFive();
    FourAndFiveIsSeven(c, [0, 0, 1, 2, 3, 4, 5]);
    assert c[0] == 4;
    FourCountsOnce(c);
  }

  lemma PairsOfSeven(ps: seq<nat>, k: int)
    requires ps == [0, 0, 1, 2, 3, 4, 5]
    ensures PairsOf(ps, k) == if k == 0 then 2 else if 1 <= k <= 5 then 1 else 0
  {
    assert PairsOf(ps[6..], k) == if k == 5 then 1 else 0;
    assert PairsOf(ps[5..], k) == (if k == 4 then 1 else 0) + PairsOf(ps[6..], k) by { assert ps[5..][1..] == ps[6..]; }
    assert PairsOf(ps[4..], k) == (if k == 3 then 1 else 0) + PairsOf(ps[5..], k) by { assert ps[4..][1..] == ps[5..]; }
    assert PairsOf(ps[3..], k) == (if k == 2 then 1 else 0) + PairsOf(ps[4..], k) by { assert ps[3..][1..] == ps[4..]; }
    assert PairsOf(ps[2..], k) == (if k == 1 then 1 else 0) + PairsOf(ps[3..], k) by { assert ps[2..][1..] == ps[3..]; }
    assert PairsOf(ps[1..], k) == (if k == 0 then 1 else 0) + PairsOf(ps[2..], k) by { assert ps[1..][1..] == ps[2..]; }
    assert PairsOf(ps, k) == (if k == 0 then 1 else 0) + PairsOf(ps[1..], k);
  }
}
