/** Listing the ways to cut a hand (internal/mahjong/guobiao/jingji/mcr_matchers.go). */
module Decomps {
  import opened Blocks
  import opened HandForm

  /** Triplets and runs in order of their first tile. */
  predicate Ascending(ms: seq<Block>) {
    forall i, j :: 0 <= i < j < |ms| ==> ms[i].at <= ms[j].at
  }

  /** A cut into exactly `need` melds, written in ascending order. */
  predicate OrderedCut(ms: seq<Block>, c: Counts, need: nat) {
    |ms| == need && AllMelds(ms) && Covers(ms, c) && Ascending(ms)
  }

  predicate Distinct<T(==)>(s: seq<T>) {
    forall i, j :: 0 <= i < j < |s| ==> s[i] != s[j]
  }

  /** The list holds every ordered cut once and nothing else. */
  ghost predicate ListsCuts(out: seq<seq<Block>>, c: Counts, need: nat) {
    Distinct(out) && forall ms: seq<Block> :: ms in out <==> OrderedCut(ms, c, need)
  }

  /** Cuts that begin with block b. */
  ghost predicate ListsCutsFrom(out: seq<seq<Block>>, c: Counts, need: nat, b: Block) {
    Distinct(out) && forall ms: seq<Block> :: ms in out <==> OrderedCut(ms, c, need) && ms != [] && ms[0] == b
  }

  /** The first block of an ordered cut starts at the smallest kind present. */
  lemma FirstStartsAtSmallest(ms: seq<Block>, c: Counts, need: nat, i: int)
    requires OrderedCut(ms, c, need) && Smallest(c, i)
    ensures ms != [] && ms[0].at == i
  {
    var j := SomeUser(ms, i);
    assert ms[0].at <= ms[j].at <= i;
    assert Uses(ms[0], ms[0].at) > 0;
    assert UseAll(ms, ms[0].at) == c[ms[0].at];
  }

  /** Taking off the first block of an ordered cut, and putting it back. */
  lemma OrderedCutStep(m: Block, tail: seq<Block>, c: Counts, need: nat)
    requires Smallest(c, m.at) && Exists(m) && IsMeld(m) && CanTake(c, m) && need > 0
    ensures OrderedCut([m] + tail, c, need) <==> OrderedCut(tail, Take(c, m), need - 1)
  {
    var all := [m] + tail;
    assert all[1..] == tail;
    var rest := Take(c, m);
    assert forall k :: 0 <= k < KINDS ==> UseAll(all, k) == Uses(m, k) + UseAll(tail, k);
    assert Covers(all, c) <==> Covers(tail, rest) by {
      if Covers(all, c) {
        forall k | 0 <= k < KINDS ensures UseAll(tail, k) == rest[k] { assert UseAll(all, k) == c[k]; }
      }
    }
    assert AllMelds(all) <==> AllMelds(tail) by {
      if AllMelds(all) { assert forall j :: 0 <= j < |tail| ==> tail[j] == all[j + 1]; }
    }
    if OrderedCut(all, c, need) {
      forall x, y | 0 <= x < y < |tail| ensures tail[x].at <= tail[y].at {
        assert all[x + 1].at <= all[y + 1].at;
      }
    }
    if OrderedCut(tail, rest, need - 1) {
      forall j | 0 <= j < |tail| ensures m.at <= tail[j].at {
        UsedKind(tail, j);
        assert UseAll(tail, tail[j].at) == rest[tail[j].at];
      }
    }
  }

  lemma {:induction false} UsedKind(ms: seq<Block>, j: nat)
    requires AllMelds(ms) && j < |ms|
    ensures 0 <= ms[j].at < KINDS && UseAll(ms, ms[j].at) > 0
  {
    if j > 0 {
      assert AllMelds(ms[1..]);
      UsedKind(ms[1..], j - 1);
    }
  }

  /** Appends every tail behind the same first block. */
  method AppendBehind(m: Block, tails: seq<seq<Block>>, c: Counts, need: nat) returns (out: seq<seq<Block>>)
    requires Smallest(c, m.at) && Exists(m) && IsMeld(m) && CanTake(c, m) && need > 0
    requires ListsCuts(tails, Take(c, m), need - 1)
    ensures ListsCutsFrom(out, c, need, m)
  {
    out := [];
    for i := 0 to |tails|
      invariant |out| == i && forall j :: 0 <= j < i ==> out[j] == [m] + tails[j]
    {
      out := out + [[m] + tails[i]];
    }
    forall x, y | 0 <= x < y < |out| ensures out[x] != out[y] {
      assert out[x][1..] == tails[x] && out[y][1..] == tails[y];
    }
    forall ms: seq<Block> ensures ms in out <==> OrderedCut(ms, c, need) && ms != [] && ms[0] == m {
      if ms in out {
        var j :| 0 <= j < |out| && out[j] == ms;
        assert tails[j] in tails;
        OrderedCutStep(m, tails[j], c, need);
      }
      if OrderedCut(ms, c, need) && ms != [] && ms[0] == m {
        assert ms == [m] + ms[1..];
        OrderedCutStep(m, ms[1..], c, need);
        var j :| 0 <= j < |tails| && tails[j] == ms[1..];
        assert out[j] == ms;
      }
    }
  }

  /** Cuts that begin with one of the blocks in bs. */
  ghost predicate ListsCutsAmong(out: seq<seq<Block>>, c: Counts, need: nat, bs: set<Block>) {
    Distinct(out) && forall ms: seq<Block> :: ms in out <==> OrderedCut(ms, c, need) && ms != [] && ms[0] in bs
  }

  lemma JoinLists(out: seq<seq<Block>>, more: seq<seq<Block>>, c: Counts, need: nat, bs: set<Block>, b: Block)
    requires ListsCutsAmong(out, c, need, bs) && ListsCutsFrom(more, c, need, b) && b !in bs
    ensures ListsCutsAmong(out + more, c, need, bs + {b})
  {
    var all := out + more;
    forall x, y | 0 <= x < y < |all| ensures all[x] != all[y] {
      if x < |out| <= y {
        assert out[x] in out && more[y - |out|] in more;
      } else if x < |out| {
        assert all[x] == out[x] && all[y] == out[y];
      } else {
        assert all[x] == more[x - |out|] && all[y] == more[y - |out|];
      }
    }
  }

  method EnumerateMelds(c: Counts, need: nat) returns (out: seq<seq<Block>>)
    ensures ListsCuts(out, c, need)
    decreases need
  {
    if need == 0 {
      var total := TotalCount(c);
      if total == 0 {
        EmptyCut(c);
        return [[]];
      }
      if Covers([], c) { TotalZero(c, KINDS); }
      return [];
    }
    var i := NextNonZero(c);
    if i < 0 {
      forall ms: seq<Block> | OrderedCut(ms, c, need) ensures false {
        CutNeedsTiles(ms, c, need);
      }
      return [];
    }
    out := [];
    ghost var tried: set<Block> := {};
    if c[i] >= 3 {
      var m := Triplet(i);
      var tails := EnumerateMelds(Take(c, m), need - 1);
      var more := AppendBehind(m, tails, c, need);
      JoinLists(out, more, c, need, tried, m);
      out := out + more;
      tried := tried + {m};
    }
    if i < SUITED {
      var r := i % 9;
      var base := i / 9 * 9;
      for start := r - 2 to r + 1
        invariant ListsCutsAmong(out, c, need, tried)
        invariant Triplet(i) in tried <==> c[i] >= 3
        invariant forall b: Block :: b in tried ==> b == Triplet(i) || b == Run(i)
        invariant Run(i) in tried <==> start > r && Exists(Run(i)) && CanTake(c, Run(i))
      {
        if 0 <= start <= 6 {
          var a := base + start;
          if c[a] > 0 && c[a + 1] > 0 && c[a + 2] > 0 {
            assert start == r;
            var m := Run(a);
            var tails := EnumerateMelds(Take(c, m), need - 1);
            var more := AppendBehind(m, tails, c, need);
            JoinLists(out, more, c, need, tried, m);
            out := out + more;
            tried := tried + {m};
          }
        }
      }
    }
    forall ms: seq<Block> | OrderedCut(ms, c, need) ensures ms[0] in tried {
      FirstStartsAtSmallest(ms, c, need, i);
      TakesFirst(ms, c);
    }
  }

  lemma CutNeedsTiles(ms: seq<Block>, c: Counts, need: nat)
    requires OrderedCut(ms, c, need) && need > 0
    ensures exists k :: 0 <= k < KINDS && c[k] > 0
  {
    UsedKind(ms, 0);
    assert UseAll(ms, ms[0].at) == c[ms[0].at];
  }

  lemma EmptyCut(c: Counts)
    requires Total(c) == 0
    ensures forall ms: seq<Block> :: ms in [[]] <==> OrderedCut(ms, c, 0)
  {
    forall k | 0 <= k < KINDS ensures c[k] == 0 {
      if c[k] > 0 { TotalPositive(c, KINDS, k); }
    }
    assert OrderedCut([], c, 0);
  }

  lemma TakesFirst(ms: seq<Block>, c: Counts)
    requires ms != [] && Covers(ms, c)
    ensures CanTake(c, ms[0])
  {
    forall k | 0 <= k < KINDS ensures Uses(ms[0], k) <= c[k] {
      assert UseAll(ms, k) == c[k];
    }
  }

  // ---------- whole hands ----------

  /** Melds on the table keep whatever the caller knows about them; the others come from the search. */
  datatype Meld<O> = Open(o: O) | Closed(b: Block)

  datatype Decomp<O> = Decomp(pair: int, melds: seq<Meld<O>>)

  function Closing(ms: seq<Block>): (r: seq<Meld>)
    ensures |r| == |ms| && forall i :: 0 <= i < |ms| ==> r[i] == Closed(ms[i])
  {
    if ms == [] then [] else [Closed(ms[0])] + Closing(ms[1..])
  }

  /** The open melds first, then an ordered cut of what the pair leaves. */
  ghost predicate IsDecomp<O>(d: Decomp<O>, closed: Counts, open: seq<Meld<O>>, upTo: int) {
    && PairAt(closed, d.pair) && d.pair < upTo && |open| <= 4
    && exists ms: seq<Block> :: OrderedCut(ms, Take(closed, Head(d.pair)), 4 - |open|) && d.melds == open + Closing(ms)
  }

  lemma ClosingInjective<O>(open: seq<Meld<O>>, ms: seq<Block>, ns: seq<Block>)
    requires open + Closing<O>(ms) == open + Closing<O>(ns)
    ensures ms == ns
  {
    assert Closing<O>(ms) == (open + Closing<O>(ms))[|open|..];
    assert Closing<O>(ns) == (open + Closing<O>(ns))[|open|..];
    forall i | 0 <= i < |ms| ensures ms[i] == ns[i] {
      assert Closing<O>(ms)[i] == Closing<O>(ns)[i];
    }
  }

  /** Adds the cuts behind one pair. */
  method AddPair<O(==)>(out0: seq<Decomp<O>>, closed: Counts, open: seq<Meld<O>>, pair: nat, cuts: seq<seq<Block>>)
    returns (out: seq<Decomp<O>>)
    requires |open| <= 4 && PairAt(closed, pair)
    requires ListsCuts(cuts, Take(closed, Head(pair)), 4 - |open|)
    requires Distinct(out0) && forall d: Decomp<O> :: d in out0 <==> IsDecomp(d, closed, open, pair)
    ensures Distinct(out) && forall d: Decomp<O> :: d in out <==> IsDecomp(d, closed, open, pair + 1)
  {
    out := out0;
    for i := 0 to |cuts|
      invariant |out| == |out0| + i && out[..|out0|] == out0
      invariant forall j :: 0 <= j < i ==> out[|out0| + j] == Decomp(pair, open + Closing(cuts[j]))
    {
      out := out + [Decomp(pair, open + Closing(cuts[i]))];
    }
    forall x, y | 0 <= x < y < |out| ensures out[x] != out[y] {
      if y < |out0| {
        assert out0[x] == out[x] && out0[y] == out[y];
      } else if x < |out0| {
        assert out0[x] == out[x] && out0[x] in out0;
        var k := y - |out0|;
        assert out[|out0| + k] == Decomp(pair, open + Closing(cuts[k]));
      } else {
        var j, k := x - |out0|, y - |out0|;
        assert out[|out0| + j] == Decomp(pair, open + Closing(cuts[j]));
        assert out[|out0| + k] == Decomp(pair, open + Closing(cuts[k]));
        if out[x] == out[y] { ClosingInjective(open, cuts[j], cuts[k]); }
      }
    }
    forall d: Decomp<O> ensures d in out <==> IsDecomp(d, closed, open, pair + 1) {
      if d in out {
        var x :| 0 <= x < |out| && out[x] == d;
        if x < |out0| {
          assert out0[x] == d && d in out0;
          assert IsDecomp(d, closed, open, pair);
        } else {
          assert out[|out0| + (x - |out0|)] == d;
          assert cuts[x - |out0|] in cuts;
        }
      }
      if IsDecomp(d, closed, open, pair + 1) {
        if d.pair < pair {
          assert IsDecomp(d, closed, open, pair);
          var x :| 0 <= x < |out0| && out0[x] == d;
          assert out[x] == d;
        } else {
          var ms: seq<Block> :| OrderedCut(ms, Take(closed, Head(pair)), 4 - |open|) && d.melds == open + Closing(ms);
          var j :| 0 <= j < |cuts| && cuts[j] == ms;
          assert out[|out0| + j] == d;
        }
      }
    }
  }

  /**
   * The listing is exact: every pair with an ordered cut of the rest occurs, once, and nothing else
   * does. It is empty exactly when the winning test finds no standard form.
   */
  method EnumerateDecomps<O(==)>(closed: Counts, open: seq<Meld<O>>) returns (out: seq<Decomp<O>>)
    ensures Distinct(out) && forall d: Decomp<O> :: d in out <==> IsDecomp(d, closed, open, KINDS)
    ensures out != [] <==> |open| <= 4 && PairAndMelds(closed, 4 - |open|)
  {
    var need := 4 - |open|;
    if need < 0 { return []; }
    if PairAndMelds(closed, need) { PairAndMeldsTotal(closed, need); }
    forall d: Decomp<O> ensures IsDecomp(d, closed, open, KINDS) ==> PairAndMelds(closed, need) {
      if IsDecomp(d, closed, open, KINDS) { DecompIsStandard(d, closed, open); }
    }
    var total := TotalCount(closed);
    if total != 2 + need * 3 { return []; }
    out := [];
    for pair := 0 to KINDS
      invariant Distinct(out) && forall d: Decomp<O> :: d in out <==> IsDecomp(d, closed, open, pair)
    {
      if closed[pair] >= 2 {
        assert PairAt(closed, pair);
        var cuts := EnumerateMelds(Take(closed, Head(pair)), need);
        out := AddPair(out, closed, open, pair, cuts);
      } else {
        forall d: Decomp<O> ensures IsDecomp(d, closed, open, pair) <==> IsDecomp(d, closed, open, pair + 1) {}
      }
    }
    if out != [] {
      assert out[0] in out;
      DecompIsStandard(out[0], closed, open);
    }
    if PairAndMelds(closed, need) {
      var d := StandardHasDecomp(closed, open);
      assert d in out;
    }
  }

  lemma DecompIsStandard<O>(d: Decomp<O>, closed: Counts, open: seq<Meld<O>>)
    requires IsDecomp(d, closed, open, KINDS)
    ensures PairAndMelds(closed, 4 - |open|)
  {
    var ms: seq<Block> :| OrderedCut(ms, Take(closed, Head(d.pair)), 4 - |open|) && d.melds == open + Closing(ms);
    assert MeldsCover(Take(closed, Head(d.pair)), 4 - |open|);
  }

  lemma StandardHasDecomp<O>(closed: Counts, open: seq<Meld<O>>) returns (d: Decomp<O>)
    requires |open| <= 4 && PairAndMelds(closed, 4 - |open|)
    ensures IsDecomp(d, closed, open, KINDS)
  {
    var p: int :| PairAt(closed, p) && MeldsCover(Take(closed, Head(p)), 4 - |open|);
    var rest := Take(closed, Head(p));
    var ms: seq<Block> :| |ms| == 4 - |open| && AllMelds(ms) && Covers(ms, rest);
    var sorted := Arrange(ms, rest);
    d := Decomp(p, open + Closing(sorted));
  }

  // ---------- how often one decomposition is listed ----------

  /** Index of a block with the least start. */
  lemma {:induction false} LeastStart(ms: seq<Block>) returns (j: nat)
    requires ms != []
    ensures j < |ms| && forall k :: 0 <= k < |ms| ==> ms[j].at <= ms[k].at
  {
    j := 0;
    if |ms| > 1 {
      var k := LeastStart(ms[1..]);
      forall x | 1 <= x < |ms| ensures ms[k + 1].at <= ms[x].at { assert ms[1..][x - 1] == ms[x]; }
      if ms[k + 1].at < ms[0].at { j := k + 1; }
    }
  }

  lemma MultisetWithout(ms: seq<Block>, j: nat)
    requires j < |ms|
    ensures multiset(ms) == multiset{ms[j]} + multiset(Without(ms, j))
  {
    assert ms == ms[..j] + [ms[j]] + ms[j + 1..];
  }

  /** Every choice of melds that covers the table can be written in ascending order. */
  lemma {:induction false} Arrange(ms: seq<Block>, c: Counts) returns (sorted: seq<Block>)
    requires AllMelds(ms) && Covers(ms, c)
    ensures multiset(sorted) == multiset(ms) && OrderedCut(sorted, c, |ms|)
    decreases |ms|
  {
    if ms == [] { return []; }
    var j := LeastStart(ms);
    var m, rest := ms[j], Without(ms, j);
    forall k | 0 <= k < KINDS ensures Uses(m, k) + UseAll(rest, k) == c[k] {
      WithoutUse(ms, j, k);
      assert UseAll(ms, k) == c[k];
    }
    assert CanTake(c, m);
    var tail := Arrange(rest, Take(c, m));
    sorted := [m] + tail;
    MultisetWithout(ms, j);
    forall x | 0 <= x < |tail| ensures m.at <= tail[x].at {
      assert tail[x] in multiset(rest);
      var y :| 0 <= y < |rest| && rest[y] == tail[x];
      assert rest[y] in multiset(ms);
    }
    LeastFirst(c, m, tail, |rest|);
  }

  /** The meld that begins lowest in front of an ordered rest. */
  lemma LeastFirst(c: Counts, m: Block, tail: seq<Block>, n: nat)
    requires Exists(m) && IsMeld(m) && CanTake(c, m) && OrderedCut(tail, Take(c, m), n)
    requires forall x :: 0 <= x < |tail| ==> m.at <= tail[x].at
    ensures OrderedCut([m] + tail, c, n + 1)
  {
    var sorted := [m] + tail;
    assert sorted[1..] == tail;
    assert AllMelds(sorted) by { assert forall x :: 0 <= x < |tail| ==> sorted[x + 1] == tail[x]; }
    forall k | 0 <= k < KINDS ensures UseAll(sorted, k) == c[k] {
      assert UseAll(tail, k) == Take(c, m)[k];
    }
  }

  /** A triplet and a run that begin at the same kind. */
  predicate Clash(ms: seq<Block>, i: int) { Triplet(i) in ms && Run(i) in ms }

  /** The order of a decomposition: any listing with the same melds. */
  ghost predicate SameMelds(ms: seq<Block>, ns: seq<Block>, c: Counts, need: nat) {
    OrderedCut(ms, c, need) && OrderedCut(ns, c, need) && multiset(ms) == multiset(ns)
  }

  lemma TailMultiset(ms: seq<Block>)
    requires ms != []
    ensures multiset(ms[1..]) == multiset(ms) - multiset{ms[0]}
  {
    assert ms == [ms[0]] + ms[1..];
  }

  lemma FirstsAgree(ms: seq<Block>, ns: seq<Block>)
    requires ms != [] && ns != [] && AllMelds(ms) && Ascending(ms) && Ascending(ns)
    requires multiset(ms) == multiset(ns) && NoClash(ms)
    ensures ms[0] == ns[0]
  {
    assert ms[0] in multiset(ns) && ns[0] in multiset(ms);
    var x :| 0 <= x < |ns| && ns[x] == ms[0];
    var y :| 0 <= y < |ms| && ms[y] == ns[0];
    assert ms[0].at == ns[0].at;
    assert !Clash(ms, ms[0].at);
  }

  predicate NoClash(ms: seq<Block>) {
    forall b: Block :: b in ms ==> !Clash(ms, b.at)
  }

  lemma {:induction false} SortedUnique(ms: seq<Block>, ns: seq<Block>)
    requires AllMelds(ms) && Ascending(ms) && Ascending(ns)
    requires multiset(ms) == multiset(ns) && NoClash(ms)
    ensures ms == ns
    decreases |ms|
  {
    assert |ms| == |multiset(ms)| && |ns| == |multiset(ns)|;
    if ms != [] {
      FirstsAgree(ms, ns);
      TailMultiset(ms);
      TailMultiset(ns);
      SortedUnique(ms[1..], ns[1..]);
    }
  }

  lemma SwapIsListedToo(ms: seq<Block>, c: Counts, need: nat, i: int) returns (ns: seq<Block>)
    requires OrderedCut(ms, c, need) && Clash(ms, i)
    ensures SameMelds(ms, ns, c, need) && ns != ms
  {
    var x :| 0 <= x < |ms| && ms[x] == Triplet(i);
    var y :| 0 <= y < |ms| && ms[y] == Run(i);
    ns := ms[x := ms[y]][y := ms[x]];
    assert ns[x] == Run(i);
    SwapMultiset(ms, x, y);
    SameUse(ms, ns);
  }

  lemma SwapMultiset(ms: seq<Block>, x: nat, y: nat)
    requires x < |ms| && y < |ms| && x != y
    ensures multiset(ms[x := ms[y]][y := ms[x]]) == multiset(ms)
  {
  }

  /** The use of each kind depends only on which blocks there are. */
  lemma {:induction false} SameUse(ms: seq<Block>, ns: seq<Block>)
    requires multiset(ms) == multiset(ns)
    ensures forall k :: UseAll(ms, k) == UseAll(ns, k)
    decreases |ms|
  {
    assert |ms| == |multiset(ms)| && |ns| == |multiset(ns)|;
    if ms != [] {
      assert ms[0] in multiset(ns);
      var j :| 0 <= j < |ns| && ns[j] == ms[0];
      MultisetWithout(ns, j);
      TailMultiset(ms);
      assert multiset(Without(ns, j)) == multiset(ns) - multiset{ns[j]};
      SameUse(ms[1..], Without(ns, j));
      forall k ensures UseAll(ms, k) == UseAll(ns, k) {
        WithoutUse(ns, j, k);
      }
    }
  }

  /**
   * A decomposition is listed exactly once if and only if no kind begins both a triplet and a run
   * of it; otherwise it occurs in several orders.
   */
  lemma ListedOnceIff(ms: seq<Block>, c: Counts, need: nat)
    requires OrderedCut(ms, c, need)
    ensures (forall ns: seq<Block> :: SameMelds(ms, ns, c, need) ==> ns == ms) <==> NoClash(ms)
  {
    if NoClash(ms) {
      forall ns: seq<Block> | SameMelds(ms, ns, c, need) ensures ns == ms {
        SortedUnique(ms, ns);
      }
    } else {
      var b :| b in ms && Clash(ms, b.at);
      var i := b.at;
      var ns := SwapIsListedToo(ms, c, need, i);
    }
  }

  // ---------- which tables have a decomposition that is listed twice ----------

  lemma WithoutCovers(ms: seq<Block>, c: Counts, j: nat)
    requires AllMelds(ms) && Covers(ms, c) && j < |ms|
    ensures CanTake(c, ms[j]) && AllMelds(Without(ms, j)) && Covers(Without(ms, j), Take(c, ms[j]))
  {
    forall k | 0 <= k < KINDS ensures Uses(ms[j], k) + UseAll(Without(ms, j), k) == c[k] {
      WithoutUse(ms, j, k);
      assert UseAll(ms, k) == c[k];
    }
  }

  lemma StillThere(ms: seq<Block>, j: nat, b: Block) returns (k: nat)
    requires j < |ms| && b in ms && ms[j] != b
    ensures k < |Without(ms, j)| && Without(ms, j)[k] == b
  {
    var x :| 0 <= x < |ms| && ms[x] == b;
    k := if x < j then x else x - 1;
  }

  /** A triplet and a run of the same kind can be taken, one after the other. */
  predicate TakesBoth(c: Counts, i: int) {
    Exists(Triplet(i)) && Exists(Run(i)) && CanTake(c, Triplet(i)) && CanTake(Take(c, Triplet(i)), Run(i))
  }

  /** They can, and melds make up the rest. */
  ghost predicate BothAndMelds(c: Counts, need: nat, i: int) {
    TakesBoth(c, i) && MeldsCover(Take(Take(c, Triplet(i)), Run(i)), need - 2)
  }

  ghost predicate ListsTwice(c: Counts, need: nat) {
    exists ms: seq<Block>, ns: seq<Block> :: SameMelds(ms, ns, c, need) && ns != ms
  }

  lemma ClashTakes(ms: seq<Block>, c: Counts, need: nat, i: int)
    requires OrderedCut(ms, c, need) && Clash(ms, i)
    ensures BothAndMelds(c, need, i)
  {
    var x :| 0 <= x < |ms| && ms[x] == Triplet(i);
    WithoutCovers(ms, c, x);
    var rest := Without(ms, x);
    var y := StillThere(ms, x, Run(i));
    WithoutCovers(rest, Take(c, Triplet(i)), y);
    var last := Without(rest, y);
    assert |last| == need - 2 && AllMelds(last) && Covers(last, Take(Take(c, Triplet(i)), Run(i)));
  }

  lemma TakesClash(c: Counts, need: nat, i: int) returns (ms: seq<Block>)
    requires BothAndMelds(c, need, i)
    ensures OrderedCut(ms, c, need) && Clash(ms, i)
  {
    var r2 := Take(Take(c, Triplet(i)), Run(i));
    var bs: seq<Block> :| |bs| == need - 2 && AllMelds(bs) && Covers(bs, r2);
    var all := [Triplet(i)] + ([Run(i)] + bs);
    assert all[0] == Triplet(i) && all[1] == Run(i) && all[1..] == [Run(i)] + bs && all[1..][1..] == bs;
    forall k | 0 <= k < KINDS ensures UseAll(all, k) == c[k] { assert UseAll(bs, k) == r2[k]; }
    ms := Arrange(all, c);
    assert Triplet(i) in multiset(all) && Run(i) in multiset(all);
  }

  /**
   * A table has a decomposition that is listed more than once exactly when some kind gives a triplet
   * and a run and melds make up the rest.
   */
  lemma ListsTwiceIff(c: Counts, need: nat)
    ensures ListsTwice(c, need) <==> exists i :: BothAndMelds(c, need, i)
  {
    if ms: seq<Block>, ns: seq<Block> :| SameMelds(ms, ns, c, need) && ns != ms {
      ListedOnceIff(ms, c, need);
      var b :| b in ms && Clash(ms, b.at);
      ClashTakes(ms, c, need, b.at);
    }
    if i :| BothAndMelds(c, need, i) {
      var ms := TakesClash(c, need, i);
      var ns := SwapIsListedToo(ms, c, need, i);
    }
  }

  lemma UseOne(b: Block, k: int)
    ensures UseAll([b], k) == Uses(b, k)
  {
    assert [b][1..] == [];
  }

  /** Four of the lowest kind and one each of the next two: one decomposition, listed twice. */
  lemma ListedTwice()
    ensures var c: Counts := seq(KINDS, k => if k == 0 then 4 else if k <= 2 then 1 else 0);
            && SameMelds([Triplet(0), Run(0)], [Run(0), Triplet(0)], c, 2)
            && forall out: seq<seq<Block>> :: ListsCuts(out, c, 2) ==>
                 [Triplet(0), Run(0)] in out && [Run(0), Triplet(0)] in out
  {
    var a, b := [Triplet(0), Run(0)], [Run(0), Triplet(0)];
    assert a[1..] == [Run(0)] && b[1..] == [Triplet(0)];
    assert [Run(0)][1..] == [] && [Triplet(0)][1..] == [];
    forall k ensures UseAll([Run(0)], k) == Uses(Run(0), k) && UseAll([Triplet(0)], k) == Uses(Triplet(0), k) {
      UseOne(Run(0), k);
      UseOne(Triplet(0), k);
    }
    assert multiset(a) == multiset(b);
  }
}
