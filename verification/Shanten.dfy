/** Distance of a hand from ready (internal/mahjong/analysis/analysis.go). */
module Shanten {
  import opened Blocks
  import opened HandForm

  function Min(a: int, b: int): int { if a <= b then a else b }

  /** The value of a leaf of the search: sets count only as far as melds are still missing. */
  function Score(melds: nat, sets: int, pair: bool): int {
    8 - melds * 2 - (if sets > 4 - melds then 4 - melds else sets) - (if pair then 1 else 0)
  }

  // ---------- what the number means ----------

  /** A way to cut part of the hand into blocks, with one head at most. */
  ghost predicate Cut(bs: seq<Block>, c: Counts) {
    AllExist(bs) && Fits(bs, c) && HeadCount(bs) <= 1
  }

  function CutScore(bs: seq<Block>): int {
    Score(MeldCount(bs), SetCount(bs), HeadCount(bs) >= 1)
  }

  /** The least score over all ways to cut, never below -1. */
  ghost predicate IsShanten(c: Counts, n: int) {
    && (forall bs: seq<Block> :: Cut(bs, c) ==> n <= CutScore(bs) || n == -1)
    && n >= -1
    && exists bs: seq<Block> :: Cut(bs, c) && (n == CutScore(bs) || (n == -1 && CutScore(bs) < -1))
  }

  // ---------- what is left to gain at a node of the search ----------

  /** The state of the search with its partial result. */
  datatype Node = Node(melds: nat, sets: nat, pair: bool)

  function After(n: Node, b: Block): Node {
    if IsMeld(b) then n.(melds := n.melds + 1)
    else if b.Head? then n.(pair := true)
    else n.(sets := n.sets + 1)
  }

  /** Cuts of what is left that respect a head chosen earlier. */
  ghost predicate CutFrom(bs: seq<Block>, c: Counts, n: Node) {
    Cut(bs, c) && (n.pair ==> HeadCount(bs) == 0)
  }

  function ScoreFrom(bs: seq<Block>, n: Node): int {
    Score(n.melds + MeldCount(bs), n.sets + SetCount(bs), n.pair || HeadCount(bs) >= 1)
  }

  function Drop(c: Counts, i: nat): (r: Counts)
    requires i < KINDS && c[i] > 0
    ensures Plus(r, i) == c
  {
    c[i := c[i] - 1]
  }

  lemma TotalDrop(c: Counts, i: nat)
    requires i < KINDS && c[i] > 0
    ensures Total(Drop(c, i)) == Total(c) - 1
  {
    TotalPlus(Drop(c, i), i, KINDS);
  }

  /** The block exists, its tiles are there, and it is not a second head. */
  ghost predicate Offered(c: Counts, n: Node, b: Block) {
    Exists(b) && CanTake(c, b) && !(b.Head? && n.pair)
  }

  /** The guards of the six branches say exactly whether the block is offered. */
  lemma Offers(c: Counts, i: nat)
    requires Smallest(c, i)
    ensures CanTake(c, Triplet(i)) <==> c[i] >= 3
    ensures CanTake(c, Head(i)) <==> c[i] >= 2
    ensures CanTake(c, Twin(i)) <==> c[i] >= 2
    ensures Exists(Run(i)) ==> (CanTake(c, Run(i)) <==> c[i + 1] > 0 && c[i + 2] > 0)
    ensures Exists(Edge(i)) ==> (CanTake(c, Edge(i)) <==> c[i + 1] > 0)
    ensures Exists(Gap(i)) ==> (CanTake(c, Gap(i)) <==> c[i + 2] > 0)
  {
  }

  /** Every way to go on after taking block b scores at least v. */
  ghost predicate NotBelow(c: Counts, n: Node, b: Block, v: int)
  {
    Offered(c, n, b) ==>
      forall bs: seq<Block> :: CutFrom(bs, Take(c, b), After(n, b)) ==> v <= ScoreFrom(bs, After(n, b))
  }

  /** Putting block b in front of a cut of the rest gives a cut with the same score. */
  lemma TakeThenCut(c: Counts, n: Node, b: Block, bs: seq<Block>)
    requires Offered(c, n, b)
    requires CutFrom(bs, Take(c, b), After(n, b))
    ensures CutFrom([b] + bs, c, n) && ScoreFrom([b] + bs, n) == ScoreFrom(bs, After(n, b))
  {
    assert ([b] + bs)[1..] == bs;
    forall k | 0 <= k < KINDS ensures UseAll([b] + bs, k) <= c[k] {
      assert UseAll(bs, k) <= Take(c, b)[k];
    }
  }

  /** A cut either has a block that starts at the smallest kind, or leaves a tile of it over. */
  lemma CutAtSmallest(c: Counts, n: Node, i: int, bs: seq<Block>) returns (j: nat)
    requires Smallest(c, i) && CutFrom(bs, c, n)
    ensures j < |bs| ==>
      && bs[j].at == i && Offered(c, n, bs[j])
      && CutFrom(Without(bs, j), Take(c, bs[j]), After(n, bs[j]))
      && ScoreFrom(Without(bs, j), After(n, bs[j])) == ScoreFrom(bs, n)
    ensures j >= |bs| ==> CutFrom(bs, Drop(c, i), n)
  {
    if UseAll(bs, i) == 0 {
      j := |bs|;
      forall k | 0 <= k < KINDS ensures UseAll(bs, k) <= Drop(c, i)[k] {
        assert UseAll(bs, k) <= c[k];
      }
      return;
    }
    j := SomeUser(bs, i);
    forall k | 0 <= k < KINDS ensures Uses(bs[j], k) + UseAll(Without(bs, j), k) <= c[k] {
      WithoutUse(bs, j, k);
      assert UseAll(bs, k) <= c[k];
    }
    WithoutTally(bs, j);
    assert bs[j].at == i by {
      assert bs[j].at <= i && Uses(bs[j], bs[j].at) > 0;
    }
    assert CanTake(c, bs[j]);
    assert AllExist(Without(bs, j));
  }

  lemma FirstIsUsed(bs: seq<Block>)
    requires AllExist(bs) && bs != []
    ensures 0 <= bs[0].at < KINDS && UseAll(bs, bs[0].at) > 0
  {
  }

  lemma OnlyEmptyCut(c: Counts, n: Node)
    requires forall k :: 0 <= k < KINDS ==> c[k] == 0
    ensures CutFrom([], c, n) && ScoreFrom([], n) == Score(n.melds, n.sets, n.pair)
    ensures forall bs: seq<Block> :: CutFrom(bs, c, n) ==> bs == []
  {
    forall bs: seq<Block> | CutFrom(bs, c, n) ensures bs == [] {
      if bs != [] {
        FirstIsUsed(bs);
        assert false;
      }
    }
  }

  lemma StillNotBelow(c: Counts, n: Node, b: Block, v: int, w: int)
    requires NotBelow(c, n, b, v) && w <= v
    ensures NotBelow(c, n, b, w)
  {
  }

  /** Some way to go on scores exactly v. */
  ghost predicate Attained(c: Counts, n: Node, v: int) {
    exists bs: seq<Block> :: CutFrom(bs, c, n) && ScoreFrom(bs, n) == v
  }

  ghost predicate BoundsAll(c: Counts, n: Node, v: int) {
    forall bs: seq<Block> :: CutFrom(bs, c, n) ==> v <= ScoreFrom(bs, n)
  }

  /** The branches at the smallest kind, together, reach every cut. */
  lemma BranchesReachAll(c: Counts, n: Node, i: int, v: int)
    requires Smallest(c, i)
    requires BoundsAll(Drop(c, i), n, v)
    requires forall b: Block :: b.at == i ==> NotBelow(c, n, b, v)
    ensures BoundsAll(c, n, v)
  {
    forall bs: seq<Block> | CutFrom(bs, c, n) ensures v <= ScoreFrom(bs, n) {
      var j := CutAtSmallest(c, n, i, bs);
      if j < |bs| {
        assert NotBelow(c, n, bs[j], v);
      }
    }
  }

  /** The bounds left by the six branches and by dropping a tile bound every cut. */
  lemma AllBranches(c: Counts, n: Node, i: int, v: seq<int>, w: int)
    requires Smallest(c, i) && |v| == 6 && forall j :: 0 <= j < 6 ==> w <= v[j]
    requires NotBelow(c, n, Triplet(i), v[0]) && NotBelow(c, n, Run(i), v[1]) && NotBelow(c, n, Head(i), v[2])
    requires NotBelow(c, n, Twin(i), v[3]) && NotBelow(c, n, Edge(i), v[4]) && NotBelow(c, n, Gap(i), v[5])
    requires BoundsAll(Drop(c, i), n, w)
    ensures BoundsAll(c, n, w)
  {
    forall b: Block | b.at == i ensures NotBelow(c, n, b, w) {
      var j := match b case Triplet(_) => 0 case Run(_) => 1 case Head(_) => 2
                       case Twin(_) => 3 case Edge(_) => 4 case Gap(_) => 5;
      StillNotBelow(c, n, b, v[j], w);
    }
    BranchesReachAll(c, n, i, w);
  }

  class Search {
    var best: int

    constructor ()
      ensures best == 8
    {
      best := 8;
    }

    /**
     * One call of the recursive search. It lowers `best` to the least score that any way to go on
     * cutting `cur` can give, if that is lower.
     */
    method Walk(cur: Counts, from: nat, n: Node)
      requires from <= KINDS && forall k :: 0 <= k < from ==> cur[k] == 0
      modifies this
      ensures best <= old(best) && BoundsAll(cur, n, best)
      ensures best == old(best) || Attained(cur, n, best)
      decreases Total(cur), 2
    {
      var idx := from;
      while idx < KINDS && cur[idx] == 0
        invariant idx <= KINDS && forall k :: 0 <= k < idx ==> cur[k] == 0
      {
        idx := idx + 1;
      }
      if idx >= KINDS {
        OnlyEmptyCut(cur, n);
        var taatsu: int := n.sets;
        if taatsu > 4 - n.melds { taatsu := 4 - n.melds; }
        var pairUsed := if n.pair then 1 else 0;
        var sh := 8 - n.melds * 2 - taatsu - pairUsed;
        if sh < best { best := sh; }
        return;
      }
      Expand(cur, idx, n);
    }

    /** The branches at the smallest kind present: every block that starts there, then dropping a tile. */
    method Expand(cur: Counts, idx: nat, n: Node)
      requires Smallest(cur, idx)
      modifies this
      ensures best <= old(best) && BoundsAll(cur, n, best)
      ensures best == old(best) || Attained(cur, n, best)
      decreases Total(cur), 1
    {
      var suited := idx < SUITED;
      var pos := idx % 9;
      Offers(cur, idx);
      TryIf(cur[idx] >= 3, cur, idx, n, Triplet(idx));
      ghost var v1 := best;
      TryIf(suited && pos <= 6 && cur[idx + 1] > 0 && cur[idx + 2] > 0, cur, idx, n, Run(idx));
      ghost var v2 := best;
      TryIf(!n.pair && cur[idx] >= 2, cur, idx, n, Head(idx));
      ghost var v3 := best;
      TryIf(cur[idx] >= 2, cur, idx, n, Twin(idx));
      ghost var v4 := best;
      TryIf(suited && pos <= 7 && cur[idx + 1] > 0, cur, idx, n, Edge(idx));
      ghost var v5 := best;
      TryIf(suited && pos <= 6 && cur[idx + 2] > 0, cur, idx, n, Gap(idx));
      ghost var v6 := best;
      var next := Drop(cur, idx);
      TotalDrop(cur, idx);
      Walk(next, idx, n);
      DropThenCut(cur, n, idx);
      AllBranches(cur, n, idx, [v1, v2, v3, v4, v5, v6], best);
    }

    /** The branch that takes one block at the smallest kind, if the guard offers it. */
    method TryIf(guard: bool, cur: Counts, idx: nat, n: Node, b: Block)
      requires Smallest(cur, idx) && b.at == idx
      requires guard <==> Offered(cur, n, b)
      modifies this
      ensures best <= old(best) && NotBelow(cur, n, b, best)
      ensures best == old(best) || Attained(cur, n, best)
      decreases Total(cur), 0
    {
      if guard {
        TotalTake(cur, b);
        Walk(Take(cur, b), idx, After(n, b));
        if best != old(best) {
          ghost var bs: seq<Block> :| CutFrom(bs, Take(cur, b), After(n, b)) && ScoreFrom(bs, After(n, b)) == best;
          TakeThenCut(cur, n, b, bs);
        }
      }
    }
  }

  /** A cut of the hand with one tile less is a cut of the hand. */
  lemma DropThenCut(c: Counts, n: Node, i: nat)
    requires i < KINDS && c[i] > 0
    ensures forall bs: seq<Block> :: CutFrom(bs, Drop(c, i), n) ==> CutFrom(bs, c, n)
  {
    forall bs: seq<Block> | CutFrom(bs, Drop(c, i), n) ensures Fits(bs, c) {
      forall k | 0 <= k < KINDS ensures UseAll(bs, k) <= c[k] {
        assert UseAll(bs, k) <= Drop(c, i)[k];
      }
    }
  }

  /** `standardShanten`: the search finds the least score over all cuts. */
  method StandardShanten(c: Counts) returns (n: int)
    ensures IsShanten(c, n)
  {
    var search := new Search();
    var root := Node(0, 0, false);
    search.Walk(c, 0, root);
    forall bs: seq<Block> ensures CutFrom(bs, c, root) <==> Cut(bs, c) {}
    if search.best == 8 {
      assert CutFrom([], c, root) && ScoreFrom([], root) == 8;
    }
    assert Attained(c, root, search.best);
    ghost var bs: seq<Block> :| CutFrom(bs, c, root) && ScoreFrom(bs, root) == search.best;
    assert Cut(bs, c) && CutScore(bs) == search.best;
    if search.best < -1 { return -1; }
    return search.best;
  }

  /** There is only one such number. */
  lemma ShantenUnique(c: Counts, n: int, m: int)
    requires IsShanten(c, n) && IsShanten(c, m)
    ensures n == m
  {
    var bs: seq<Block> :| Cut(bs, c) && (n == CutScore(bs) || (n == -1 && CutScore(bs) < -1));
    var ds: seq<Block> :| Cut(ds, c) && (m == CutScore(ds) || (m == -1 && CutScore(ds) < -1));
  }

  // ---------- what the extreme values say ----------

  lemma {:induction false} SizeByKind(bs: seq<Block>)
    requires AllExist(bs)
    ensures SizeAll(bs) == 3 * MeldCount(bs) + 2 * SetCount(bs) + 2 * HeadCount(bs)
    ensures |bs| == MeldCount(bs) + SetCount(bs) + HeadCount(bs)
  {
    if bs != [] { SizeByKind(bs[1..]); }
  }

  /** A standard winning shape is a cut of everything into four melds and a head. */
  ghost predicate FullCut(bs: seq<Block>, c: Counts) {
    AllExist(bs) && Covers(bs, c) && MeldCount(bs) == 4 && HeadCount(bs) == 1 && SetCount(bs) == 0
  }

  lemma {:induction false} FindHead(bs: seq<Block>) returns (j: nat)
    requires HeadCount(bs) >= 1
    ensures j < |bs| && bs[j].Head?
  {
    if bs[0].Head? { j := 0; } else { j := FindHead(bs[1..]); j := j + 1; }
  }

  lemma {:induction false} FindSet(bs: seq<Block>) returns (j: nat)
    requires SetCount(bs) >= 1
    ensures j < |bs| && IsSet(bs[j])
  {
    if IsSet(bs[0]) { j := 0; } else { j := FindSet(bs[1..]); j := j + 1; }
  }

  lemma {:induction false} OnlyMelds(bs: seq<Block>)
    requires AllExist(bs) && HeadCount(bs) == 0 && SetCount(bs) == 0
    ensures AllMelds(bs) && |bs| == MeldCount(bs)
  {
    if bs != [] { OnlyMelds(bs[1..]); }
  }

  lemma FullCutIsStandard(c: Counts, bs: seq<Block>)
    requires FullCut(bs, c)
    ensures PairAndMelds(c, 4)
  {
    var j := FindHead(bs);
    var p := bs[j].at;
    var ms := Without(bs, j);
    WithoutTally(bs, j);
    OnlyMelds(ms);
    forall k | 0 <= k < KINDS ensures Uses(bs[j], k) + UseAll(ms, k) == c[k] {
      WithoutUse(bs, j, k);
      assert UseAll(bs, k) == c[k];
    }
    assert PairAt(c, p);
    assert Covers(ms, Take(c, Head(p)));
    assert MeldsCover(Take(c, Head(p)), 4);
  }

  lemma StandardHasFullCut(c: Counts) returns (bs: seq<Block>)
    requires PairAndMelds(c, 4)
    ensures FullCut(bs, c)
  {
    var p: int :| PairAt(c, p) && MeldsCover(Take(c, Head(p)), 4);
    var ms :| |ms| == 4 && AllMelds(ms) && Covers(ms, Take(c, Head(p)));
    MeldSizes(ms);
    bs := [Head(p)] + ms;
    assert bs[1..] == ms;
  }

  /** For 14 tiles the number is -1 exactly for the standard winning shapes. */
  lemma WinningIsMinusOne(c: Counts, n: int)
    requires IsShanten(c, n) && Total(c) == 14
    ensures n == -1 <==> PairAndMelds(c, 4)
  {
    if PairAndMelds(c, 4) {
      var bs := StandardHasFullCut(c);
      assert Cut(bs, c) && CutScore(bs) == -1;
    }
    if n == -1 {
      var bs: seq<Block> :| Cut(bs, c) && (n == CutScore(bs) || (n == -1 && CutScore(bs) < -1));
      SizeByKind(bs);
      FitTotal(bs, c);
      FullCutIsStandard(c, bs);
    }
  }

  /** Swapping block j for another one changes the use of every kind by the difference. */
  lemma SwapBlock(bs: seq<Block>, j: nat, b: Block) returns (ds: seq<Block>)
    requires j < |bs| && AllExist(bs) && Exists(b)
    ensures AllExist(ds)
    ensures forall k :: UseAll(ds, k) + Uses(bs[j], k) == UseAll(bs, k) + Uses(b, k)
    ensures MeldCount(ds) + (if IsMeld(bs[j]) then 1 else 0) == MeldCount(bs) + (if IsMeld(b) then 1 else 0)
    ensures SetCount(ds) + (if IsSet(bs[j]) then 1 else 0) == SetCount(bs) + (if IsSet(b) then 1 else 0)
    ensures HeadCount(ds) + (if bs[j].Head? then 1 else 0) == HeadCount(bs) + (if b.Head? then 1 else 0)
  {
    ds := [b] + Without(bs, j);
    assert ds[1..] == Without(bs, j);
    WithoutTally(bs, j);
    forall k ensures UseAll(ds, k) + Uses(bs[j], k) == UseAll(bs, k) + Uses(b, k) {
      WithoutUse(bs, j, k);
    }
  }

  /** The set that is left of a meld when one of its tiles is taken away. */
  function Broken(b: Block, i: int): (r: Block)
    requires Exists(b) && IsMeld(b) && Uses(b, i) > 0
    ensures Exists(r) && IsSet(r)
    ensures forall k :: Uses(r, k) + (if k == i then 1 else 0) == Uses(b, k)
  {
    if b.Triplet? then Twin(i)
    else if i == b.at then Edge(i + 1)
    else if i == b.at + 1 then Gap(b.at)
    else Edge(b.at)
  }

  /** A tile that finishes a set: every kind of set has one, even at the edge of its suit. */
  function Missing(b: Block): (i: int)
    requires Exists(b) && IsSet(b)
    ensures 0 <= i < KINDS
  {
    match b
    case Twin(a) => a
    case Gap(a) => a + 1
    case Edge(a) => if a % 9 <= 6 then a + 2 else a - 1
    case _ => 0
  }

  function Finished(b: Block): (r: Block)
    requires Exists(b) && IsSet(b)
    ensures Exists(r) && IsMeld(r)
    ensures forall k :: Uses(r, k) == Uses(b, k) + (if k == Missing(b) then 1 else 0)
  {
    match b
    case Twin(a) => Triplet(a)
    case Gap(a) => Run(a)
    case Edge(a) => if a % 9 <= 6 then Run(a) else Run(a - 1)
    case _ => b
  }

  /** Waiting: some single tile turns the hand into a standard winning shape. */
  ghost predicate Waiting(c: Counts) {
    exists i: nat :: i < KINDS && PairAndMelds(Plus(c, i), 4)
  }

  lemma WaitingHasZeroCut(c: Counts, i: nat) returns (ds: seq<Block>)
    requires i < KINDS && PairAndMelds(Plus(c, i), 4)
    ensures Cut(ds, c) && CutScore(ds) == 0
  {
    var bs := StandardHasFullCut(Plus(c, i));
    assert UseAll(bs, i) == Plus(c, i)[i];
    var j := SomeUser(bs, i);
    if bs[j].Head? {
      ds := Without(bs, j);
      WithoutTally(bs, j);
      forall k | 0 <= k < KINDS ensures UseAll(ds, k) <= c[k] {
        WithoutUse(bs, j, k);
        assert UseAll(bs, k) == Plus(c, i)[k];
      }
    } else {
      assert IsMeld(bs[j]) by {
        if IsSet(bs[j]) { WithoutTally(bs, j); }
      }
      ds := SwapBlock(bs, j, Broken(bs[j], i));
      forall k | 0 <= k < KINDS ensures UseAll(ds, k) <= c[k] {
        assert UseAll(bs, k) == Plus(c, i)[k];
      }
    }
  }

  lemma ZeroCutWaits(c: Counts, bs: seq<Block>)
    requires Total(c) == 13 && Cut(bs, c) && CutScore(bs) <= 0
    ensures Waiting(c)
  {
    SizeByKind(bs);
    FitTotal(bs, c);
    if HeadCount(bs) == 0 {
      assert MeldCount(bs) == 4 && SetCount(bs) == 0;
      LeftOver(c, bs);
      var i: nat :| i < KINDS && UseAll(bs, i) < c[i];
      var all := [Head(i)] + bs;
      assert all[1..] == bs;
      TotalPlus(c, i, KINDS);
      forall k | 0 <= k < KINDS ensures UseAll(all, k) <= Plus(c, i)[k] {
        assert UseAll(bs, k) <= c[k];
      }
      FitTotal(all, Plus(c, i));
      FullCutIsStandard(Plus(c, i), all);
    } else {
      assert MeldCount(bs) == 3 && SetCount(bs) == 1;
      var j := FindSet(bs);
      var i := Missing(bs[j]);
      var all := SwapBlock(bs, j, Finished(bs[j]));
      forall k | 0 <= k < KINDS ensures UseAll(all, k) == Plus(c, i)[k] {
        assert UseAll(bs, k) == c[k];
      }
      FullCutIsStandard(Plus(c, i), all);
    }
  }

  lemma LeftOver(c: Counts, bs: seq<Block>)
    requires AllExist(bs) && Fits(bs, c) && SizeAll(bs) < Total(c)
    ensures exists i: nat :: i < KINDS && UseAll(bs, i) < c[i]
  {
    FitTotal(bs, c);
    var k :| 0 <= k < KINDS && UseAll(bs, k) != c[k];
    assert UseAll(bs, k) <= c[k];
    var i: nat := k;
    assert UseAll(bs, i) < c[i];
  }

  /** For 13 tiles the number is never -1, and it is 0 exactly when the hand waits for some tile. */
  lemma ReadyIsZero(c: Counts, n: int)
    requires IsShanten(c, n) && Total(c) == 13
    ensures n >= 0 && (n == 0 <==> Waiting(c))
  {
    var bs: seq<Block> :| Cut(bs, c) && (n == CutScore(bs) || (n == -1 && CutScore(bs) < -1));
    SizeByKind(bs);
    FitTotal(bs, c);
    if n == 0 { ZeroCutWaits(c, bs); }
    if Waiting(c) {
      var i: nat :| i < KINDS && PairAndMelds(Plus(c, i), 4);
      var ds := WaitingHasZeroCut(c, i);
    }
  }
}
