/** Winning shapes of a hand (internal/mahjong/hu/hu.go). */
module HandForm {
  import opened Blocks

  /** The table is a disjoint union of exactly `need` triplets and runs. */
  ghost predicate MeldsCover(c: Counts, need: int) {
    exists ms: seq<Block> :: |ms| == need && AllMelds(ms) && Covers(ms, c)
  }

  /** The table is a pair together with exactly `need` triplets and runs. */
  ghost predicate PairAndMelds(c: Counts, need: int) {
    exists p: int :: PairAt(c, p) && MeldsCover(Take(c, Head(p)), need)
  }

  predicate PairAt(c: Counts, p: int) { 0 <= p < KINDS && c[p] >= 2 }

  predicate AtMostFour(c: Counts) { forall k :: 0 <= k < KINDS ==> c[k] <= 4 }

  function PairsOf(ps: seq<nat>, k: int): nat {
    if ps == [] then 0 else (if ps[0] == k then 1 else 0) + PairsOf(ps[1..], k)
  }

  /** The table is the union of seven pairs, no kind giving more than two of them. */
  ghost predicate IsSevenPairs(c: Counts) {
    exists ps: seq<nat> :: |ps| == 7
      && (forall i :: 0 <= i < |ps| ==> ps[i] < KINDS)
      && forall k :: 0 <= k < KINDS ==> PairsOf(ps, k) <= 2 && c[k] == 2 * PairsOf(ps, k)
  }

  /** What a winning concealed hand is, next to `openMelds` melds already laid out. */
  ghost predicate WinningShape(c: Counts, openMelds: int) {
    && 0 <= openMelds <= 4
    && AtMostFour(c)
    && (PairAndMelds(c, 4 - openMelds) || (openMelds == 0 && IsSevenPairs(c)))
  }

  // ---------- facts about covers ----------

  lemma {:induction false} MeldSizes(ms: seq<Block>)
    requires AllMelds(ms)
    ensures SizeAll(ms) == 3 * |ms| && MeldCount(ms) == |ms| && SetCount(ms) == 0 && HeadCount(ms) == 0
  {
    if ms != [] { MeldSizes(ms[1..]); }
  }

  lemma CoverTotal(c: Counts, need: int)
    requires MeldsCover(c, need)
    ensures Total(c) == 3 * need
  {
    var ms :| |ms| == need && AllMelds(ms) && Covers(ms, c);
    MeldSizes(ms);
    FitTotal(ms, c);
  }

  lemma TakeCovers(c: Counts, b: Block, need: int)
    requires Exists(b) && IsMeld(b) && CanTake(c, b)
    requires MeldsCover(Take(c, b), need - 1)
    ensures MeldsCover(c, need)
  {
    var ms :| |ms| == need - 1 && AllMelds(ms) && Covers(ms, Take(c, b));
    var all := [b] + ms;
    forall k | 0 <= k < KINDS ensures UseAll(all, k) == c[k] {
      assert all[1..] == ms;
    }
    assert AllMelds(all);
  }

  predicate Smallest(c: Counts, i: int) {
    0 <= i < KINDS && c[i] > 0 && forall k :: 0 <= k < i ==> c[k] == 0
  }

  /** Whatever covers the smallest kind present starts there, so only two choices are left. */
  lemma CoverFromSmallest(c: Counts, need: int, i: int)
    requires MeldsCover(c, need) && Smallest(c, i)
    ensures
      || (c[i] >= 3 && MeldsCover(Take(c, Triplet(i)), need - 1))
      || (Exists(Run(i)) && CanTake(c, Run(i)) && MeldsCover(Take(c, Run(i)), need - 1))
  {
    var ms :| |ms| == need && AllMelds(ms) && Covers(ms, c);
    var j := SomeUser(ms, i);
    var b := ms[j];
    forall k | 0 <= k < KINDS ensures Uses(b, k) + UseAll(Without(ms, j), k) == c[k] {
      WithoutUse(ms, j, k);
      assert UseAll(ms, k) == c[k];
    }
    assert b.at == i by {
      assert b.at <= i && Uses(b, b.at) > 0;
    }
    assert CanTake(c, b);
    assert Covers(Without(ms, j), Take(c, b));
  }

  // ---------- the searches ----------

  /** `c.Total()`: the loop adds up the table. */
  method TotalCount(c: Counts) returns (n: nat)
    ensures n == Total(c)
  {
    n := 0;
    for i := 0 to KINDS
      invariant n == TotalTo(c, i)
    {
      n := n + c[i];
    }
  }

  method NextNonZero(c: Counts) returns (i: int)
    ensures i == -1 || Smallest(c, i)
    ensures i == -1 <==> forall k :: 0 <= k < KINDS ==> c[k] == 0
  {
    for k := 0 to KINDS
      invariant forall m :: 0 <= m < k ==> c[m] == 0
    {
      if c[k] > 0 { return k; }
    }
    return -1;
  }

  /**
   * Branching only on the smallest kind present is sound and complete: the answer is yes exactly
   * when some choice of `need` melds uses up the table.
   */
  method MeldN(c: Counts, need: int) returns (ok: bool)
    ensures ok <==> MeldsCover(c, need)
    decreases if need < 0 then 0 else need + 1
  {
    var total := TotalCount(c);
    if need < 0 || total != need * 3 {
      if MeldsCover(c, need) { CoverTotal(c, need); }
      return false;
    }
    var i := NextNonZero(c);
    if i < 0 {
      TotalZero(c, KINDS);
      assert Covers([], c);
      assert AllMelds([]);
      assert need == 0;
      return true;
    }
    TotalPositive(c, KINDS, i);
    if i >= SUITED {
      if c[i] >= 3 {
        ok := MeldN(Take(c, Triplet(i)), need - 1);
        if ok { TakeCovers(c, Triplet(i), need); }
        if MeldsCover(c, need) { CoverFromSmallest(c, need, i); }
        return ok;
      }
      if MeldsCover(c, need) { CoverFromSmallest(c, need, i); }
      return false;
    }
    var r := i % 9;
    var base := i / 9 * 9;
    if c[i] >= 3 {
      ok := MeldN(Take(c, Triplet(i)), need - 1);
      if ok {
        TakeCovers(c, Triplet(i), need);
        return true;
      }
    }
    for start := r - 2 to r + 1
      invariant start > r && Exists(Run(i)) && CanTake(c, Run(i)) ==> !MeldsCover(Take(c, Run(i)), need - 1)
    {
      if 0 <= start <= 6 {
        var a := base + start;
        if c[a] >= 1 && c[a + 1] >= 1 && c[a + 2] >= 1 {
          assert CanTake(c, Run(a));
          ok := MeldN(Take(c, Run(a)), need - 1);
          if ok {
            TakeCovers(c, Run(a), need);
            return true;
          }
        }
      }
    }
    if MeldsCover(c, need) { CoverFromSmallest(c, need, i); }
    return false;
  }

  /** Tries every kind as the pair. */
  method StandardFormMelds(c: Counts, meldsNeeded: int) returns (ok: bool)
    ensures ok <==> 0 <= meldsNeeded <= 4 && PairAndMelds(c, meldsNeeded)
  {
    if meldsNeeded < 0 || meldsNeeded > 4 { return false; }
    for i := 0 to KINDS
      invariant forall p :: 0 <= p < i && PairAt(c, p) ==> !MeldsCover(Take(c, Head(p)), meldsNeeded)
    {
      if c[i] >= 2 {
        assert PairAt(c, i);
        var found := MeldN(Take(c, Head(i)), meldsNeeded);
        if found { return true; }
      }
    }
    return false;
  }

  lemma PairAndMeldsTotal(c: Counts, need: int)
    requires PairAndMelds(c, need)
    ensures Total(c) == 2 + 3 * need
  {
    var p: int :| PairAt(c, p) && MeldsCover(Take(c, Head(p)), need);
    CoverTotal(Take(c, Head(p)), need);
    TotalTake(c, Head(p));
  }

  method StandardForm(c: Counts) returns (ok: bool)
    ensures ok <==> PairAndMelds(c, 4)
  {
    if PairAndMelds(c, 4) { PairAndMeldsTotal(c, 4); }
    var total := TotalCount(c);
    if total != 14 { return false; }
    ok := StandardFormMelds(c, 4);
  }

  method StandardFormWithOpenMelds(c: Counts, openMelds: int) returns (ok: bool)
    ensures ok <==> 0 <= openMelds <= 4 && PairAndMelds(c, 4 - openMelds)
  {
    if openMelds < 0 || openMelds > 4 { return false; }
    if PairAndMelds(c, 4 - openMelds) { PairAndMeldsTotal(c, 4 - openMelds); }
    var total := TotalCount(c);
    if total != 14 - openMelds * 3 { return false; }
    ok := StandardFormMelds(c, 4 - openMelds);
  }

  /** Pairs counted the way the loop does: one for two tiles, two for four. */
  ghost predicate PairSum(c: Counts, n: nat, ps: seq<nat>)
    requires n <= KINDS
  {
    && (forall i :: 0 <= i < |ps| ==> ps[i] < n)
    && forall k :: 0 <= k < n ==> PairsOf(ps, k) <= 2 && c[k] == 2 * PairsOf(ps, k)
  }

  lemma {:induction false} PairsOfAppend(ps: seq<nat>, q: nat, k: int)
    ensures PairsOf(ps + [q], k) == PairsOf(ps, k) + (if q == k then 1 else 0)
  {
    if ps != [] {
      PairsOfAppend(ps[1..], q, k);
      assert (ps + [q])[1..] == ps[1..] + [q];
    } else {
      assert ps + [q] == [q];
    }
  }

  lemma {:induction false} PairsOfFresh(ps: seq<nat>, k: int)
    requires forall i :: 0 <= i < |ps| ==> ps[i] < k
    ensures PairsOf(ps, k) == 0
  {
    if ps != [] { PairsOfFresh(ps[1..], k); }
  }

  /** Adds the pairs of kind n to those of the smaller kinds. */
  lemma {:induction false} MorePairs(c: Counts, n: nat, ps: seq<nat>, add: nat) returns (qs: seq<nat>)
    requires n < KINDS && PairSum(c, n, ps) && c[n] == 2 * add && add <= 2
    ensures PairSum(c, n + 1, qs) && |qs| == |ps| + add
    decreases add
  {
    PairsOfFresh(ps, n);
    if add == 0 {
      qs := ps;
    } else {
      qs := MorePairs(c[n := c[n] - 2], n, ps, add - 1);
      var before := qs;
      qs := qs + [n];
      forall k | 0 <= k <= n ensures PairsOf(qs, k) == PairsOf(before, k) + (if k == n then 1 else 0) {
        PairsOfAppend(before, n, k);
      }
    }
  }

  lemma {:induction false} PairsTotal(c: Counts, ps: seq<nat>)
    requires PairSum(c, KINDS, ps)
    ensures Total(c) == 2 * |ps|
    decreases |ps|
  {
    if ps == [] {
      TotalZero(c, KINDS);
    } else {
      assert PairsOf(ps, ps[0]) > 0;
      var rest := Take(c, Head(ps[0]));
      TotalTake(c, Head(ps[0]));
      forall k | 0 <= k < KINDS ensures PairsOf(ps[1..], k) <= 2 && rest[k] == 2 * PairsOf(ps[1..], k) {
        assert PairsOf(ps, k) <= 2;
      }
      PairsTotal(rest, ps[1..]);
    }
  }

  /** Counts two tiles as one pair and four as two; any other number refuses the hand. */
  method SevenPairs(c: Counts) returns (ok: bool)
    ensures ok <==> IsSevenPairs(c)
  {
    var total := TotalCount(c);
    if IsSevenPairs(c) {
      var qs: seq<nat> :| |qs| == 7 && PairSum(c, KINDS, qs);
      PairsTotal(c, qs);
    }
    if total != 14 { return false; }
    var pairs, quads := 0, 0;
    ghost var ps: seq<nat> := [];
    for k := 0 to KINDS
      invariant PairSum(c, k, ps) && pairs + quads == |ps|
    {
      if c[k] == 2 {
        pairs := pairs + 1;
        ps := MorePairs(c, k, ps, 1);
      } else if c[k] == 4 {
        quads := quads + 2;
        ps := MorePairs(c, k, ps, 2);
      } else if c[k] != 0 {
        return false;
      } else {
        ps := MorePairs(c, k, ps, 0);
      }
    }
    PairsTotal(c, ps);
    return pairs + quads == 7;
  }

  method IsWinning(c: Counts) returns (ok: bool)
    ensures ok <==> WinningShape(c, 0)
  {
    if IsSevenPairs(c) {
      var qs: seq<nat> :| |qs| == 7 && PairSum(c, KINDS, qs);
      PairsTotal(c, qs);
    }
    if PairAndMelds(c, 4) { PairAndMeldsTotal(c, 4); }
    var total := TotalCount(c);
    if total != 14 { return false; }
    for k := 0 to KINDS
      invariant forall m :: 0 <= m < k ==> c[m] <= 4
    {
      if c[k] > 4 { return false; }
    }
    ok := SevenPairs(c);
    if !ok { ok := StandardForm(c); }
  }

  /** The engine's winning test decides WinningShape for every table and every number of melds. */
  method IsWinningWithOpenMelds(c: Counts, openMelds: int) returns (ok: bool)
    ensures ok <==> WinningShape(c, openMelds)
  {
    if openMelds < 0 || openMelds > 4 { return false; }
    if openMelds == 0 {
      ok := IsWinning(c);
      return;
    }
    if PairAndMelds(c, 4 - openMelds) { PairAndMeldsTotal(c, 4 - openMelds); }
    var total := TotalCount(c);
    if total != 14 - openMelds * 3 { return false; }
    for k := 0 to KINDS
      invariant forall m :: 0 <= m < k ==> c[m] <= 4
    {
      if c[k] > 4 { return false; }
    }
    ok := StandardFormWithOpenMelds(c, openMelds);
  }
}
