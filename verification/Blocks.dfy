/** Count tables over the 34 playable kinds, and the groups of tiles that a hand is cut into. */
module Blocks {

  const KINDS := 34
  const SUITED := 27

  type Counts = c: seq<nat> | |c| == KINDS witness seq(KINDS, _ => 0)

  function TotalTo(c: Counts, n: nat): nat
    requires n <= KINDS
  {
    if n == 0 then 0 else TotalTo(c, n - 1) + c[n - 1]
  }

  function Total(c: Counts): nat { TotalTo(c, KINDS) }

  /**
   * Triplet and Run are the finished melds, Head is the pair of a winning hand, and the last three
   * are the two-tile sets that one more tile can finish.
   */
  datatype Block =
    | Triplet(at: int)
    | Run(at: int)
    | Head(at: int)
    | Twin(at: int)
    | Edge(at: int)
    | Gap(at: int)

  /** The blocks that exist: runs and their parts stay inside one suit and never use honors. */
  predicate Exists(b: Block) {
    match b
    case Triplet(i) => 0 <= i < KINDS
    case Head(i) => 0 <= i < KINDS
    case Twin(i) => 0 <= i < KINDS
    case Run(i) => 0 <= i < SUITED && i % 9 <= 6
    case Gap(i) => 0 <= i < SUITED && i % 9 <= 6
    case Edge(i) => 0 <= i < SUITED && i % 9 <= 7
  }

  /** How many tiles of kind k the block takes. */
  function Uses(b: Block, k: int): nat {
    match b
    case Triplet(i) => if k == i then 3 else 0
    case Run(i) => if i <= k <= i + 2 then 1 else 0
    case Head(i) => if k == i then 2 else 0
    case Twin(i) => if k == i then 2 else 0
    case Edge(i) => if i <= k <= i + 1 then 1 else 0
    case Gap(i) => if k == i || k == i + 2 then 1 else 0
  }

  function Size(b: Block): nat {
    if b.Triplet? || b.Run? then 3 else 2
  }

  predicate IsMeld(b: Block) { b.Triplet? || b.Run? }

  predicate IsSet(b: Block) { b.Twin? || b.Edge? || b.Gap? }

  predicate AllExist(bs: seq<Block>) { forall i :: 0 <= i < |bs| ==> Exists(bs[i]) }

  predicate AllMelds(bs: seq<Block>) { forall i :: 0 <= i < |bs| ==> Exists(bs[i]) && IsMeld(bs[i]) }

  function UseAll(bs: seq<Block>, k: int): nat {
    if bs == [] then 0 else Uses(bs[0], k) + UseAll(bs[1..], k)
  }

  function SizeAll(bs: seq<Block>): nat {
    if bs == [] then 0 else Size(bs[0]) + SizeAll(bs[1..])
  }

  function MeldCount(bs: seq<Block>): nat {
    if bs == [] then 0 else (if IsMeld(bs[0]) then 1 else 0) + MeldCount(bs[1..])
  }

  function SetCount(bs: seq<Block>): nat {
    if bs == [] then 0 else (if IsSet(bs[0]) then 1 else 0) + SetCount(bs[1..])
  }

  function HeadCount(bs: seq<Block>): nat {
    if bs == [] then 0 else (if bs[0].Head? then 1 else 0) + HeadCount(bs[1..])
  }

  /** The blocks take exactly the tiles of the table. */
  predicate Covers(bs: seq<Block>, c: Counts) {
    forall k :: 0 <= k < KINDS ==> UseAll(bs, k) == c[k]
  }

  /** The blocks can all be taken from the table at once. */
  predicate Fits(bs: seq<Block>, c: Counts) {
    forall k :: 0 <= k < KINDS ==> UseAll(bs, k) <= c[k]
  }

  function Without(bs: seq<Block>, j: nat): (r: seq<Block>)
    requires j < |bs|
    ensures |r| == |bs| - 1
  {
    bs[..j] + bs[j + 1..]
  }

  lemma {:induction false} WithoutUse(bs: seq<Block>, j: nat, k: int)
    requires j < |bs|
    ensures UseAll(bs, k) == Uses(bs[j], k) + UseAll(Without(bs, j), k)
  {
    if j > 0 {
      WithoutUse(bs[1..], j - 1, k);
      assert Without(bs, j)[1..] == Without(bs[1..], j - 1);
    } else {
      assert Without(bs, 0) == bs[1..];
    }
  }

  lemma {:induction false} WithoutTally(bs: seq<Block>, j: nat)
    requires j < |bs|
    ensures MeldCount(bs) == (if IsMeld(bs[j]) then 1 else 0) + MeldCount(Without(bs, j))
    ensures SetCount(bs) == (if IsSet(bs[j]) then 1 else 0) + SetCount(Without(bs, j))
    ensures HeadCount(bs) == (if bs[j].Head? then 1 else 0) + HeadCount(Without(bs, j))
    ensures SizeAll(bs) == Size(bs[j]) + SizeAll(Without(bs, j))
  {
    if j > 0 {
      WithoutTally(bs[1..], j - 1);
      assert Without(bs, j)[1..] == Without(bs[1..], j - 1);
    } else {
      assert Without(bs, 0) == bs[1..];
    }
  }

  /** A kind that is used is used by some block. */
  lemma {:induction false} SomeUser(bs: seq<Block>, k: int) returns (j: nat)
    requires UseAll(bs, k) > 0
    ensures j < |bs| && Uses(bs[j], k) > 0
  {
    if Uses(bs[0], k) > 0 {
      j := 0;
    } else {
      j := SomeUser(bs[1..], k);
      j := j + 1;
    }
  }

  predicate CanTake(c: Counts, b: Block) {
    forall k :: 0 <= k < KINDS ==> Uses(b, k) <= c[k]
  }

  /** The table after the block is taken out. */
  function Take(c: Counts, b: Block): (r: Counts)
    requires CanTake(c, b)
    ensures forall k :: 0 <= k < KINDS ==> r[k] == c[k] - Uses(b, k)
  {
    seq(KINDS, k requires 0 <= k < KINDS => c[k] - Uses(b, k))
  }

  lemma {:induction false} TotalOfTake(c: Counts, b: Block, n: nat)
    requires Exists(b) && CanTake(c, b) && n <= KINDS
    ensures TotalTo(Take(c, b), n) == TotalTo(c, n) - UsesBelow(b, n)
    ensures n == KINDS ==> UsesBelow(b, n) == Size(b)
  {
    if n > 0 {
      TotalOfTake(c, b, n - 1);
      var rest := Take(c, b);
      assert rest[n - 1] == c[n - 1] - Uses(b, n - 1);
    }
  }

  /** How many tiles the block takes among the kinds below n. */
  function UsesBelow(b: Block, n: nat): nat {
    match b
    case Triplet(i) => if i < n then 3 else 0
    case Head(i) => if i < n then 2 else 0
    case Twin(i) => if i < n then 2 else 0
    case Run(i) => if i + 2 < n then 3 else if i + 1 < n then 2 else if i < n then 1 else 0
    case Edge(i) => if i + 1 < n then 2 else if i < n then 1 else 0
    case Gap(i) => if i + 2 < n then 2 else if i < n then 1 else 0
  }

  lemma TotalTake(c: Counts, b: Block)
    requires Exists(b) && CanTake(c, b)
    ensures Total(Take(c, b)) == Total(c) - Size(b)
  {
    TotalOfTake(c, b, KINDS);
  }

  lemma {:induction false} TotalZero(c: Counts, n: nat)
    requires n <= KINDS && forall k :: 0 <= k < n ==> c[k] == 0
    ensures TotalTo(c, n) == 0
  {
    if n > 0 { TotalZero(c, n - 1); }
  }

  lemma {:induction false} TotalPositive(c: Counts, n: nat, k: nat)
    requires k < n <= KINDS && c[k] > 0
    ensures TotalTo(c, n) >= c[k]
  {
    if k < n - 1 { TotalPositive(c, n - 1, k); }
  }

  /** Blocks that fit use no more tiles than there are, and all of them only if they cover. */
  lemma {:induction false} FitTotal(bs: seq<Block>, c: Counts)
    requires AllExist(bs) && Fits(bs, c)
    ensures SizeAll(bs) <= Total(c)
    ensures SizeAll(bs) == Total(c) <==> Covers(bs, c)
    decreases |bs|
  {
    if bs == [] {
      if Covers(bs, c) {
        TotalZero(c, KINDS);
      } else {
        var k :| 0 <= k < KINDS && c[k] != 0;
        TotalPositive(c, KINDS, k);
      }
    } else {
      forall k | 0 <= k < KINDS ensures Uses(bs[0], k) <= c[k] {
        assert UseAll(bs, k) <= c[k];
      }
      var rest := Take(c, bs[0]);
      TotalTake(c, bs[0]);
      forall k | 0 <= k < KINDS
        ensures UseAll(bs[1..], k) <= rest[k]
        ensures UseAll(bs[1..], k) == rest[k] <==> UseAll(bs, k) == c[k]
      {
        assert UseAll(bs, k) <= c[k];
      }
      FitTotal(bs[1..], rest);
    }
  }

  /** One tile more of kind i. */
  function Plus(c: Counts, i: nat): (r: Counts)
    requires i < KINDS
  {
    c[i := c[i] + 1]
  }

  lemma {:induction false} TotalPlus(c: Counts, i: nat, n: nat)
    requires i < KINDS && n <= KINDS
    ensures TotalTo(Plus(c, i), n) == TotalTo(c, n) + (if i < n then 1 else 0)
  {
    if n > 0 { TotalPlus(c, i, n - 1); }
  }
}
