/** Which hands wait for a last tile (internal/mahjong/hu/ting.go). */
module Ting {
  import opened Blocks
  import opened HandForm

  /** Some one tile completes the concealed hand. */
  ghost predicate IsReady(c: Counts) {
    exists i: nat :: i < KINDS && WinningShape(Plus(c, i), 0)
  }

  lemma PlusTotal(c: Counts, i: nat, n: nat)
    requires i < KINDS && n <= KINDS
    ensures TotalTo(Plus(c, i), n) == TotalTo(c, n) + if i < n then 1 else 0
  {
    if n > 0 { PlusTotal(c, i, n - 1); }
  }

  /**
   * A ready concealed hand has exactly thirteen tiles; so a seat that has laid out a meld, and holds
   * fewer, is never ready by this test, whatever it waits for.
   */
  lemma ReadyHasThirteen(c: Counts)
    requires IsReady(c)
    ensures Total(c) == 13
  {
    var i: nat :| i < KINDS && WinningShape(Plus(c, i), 0);
    PlusTotal(c, i, KINDS);
    WinningTotal(Plus(c, i));
  }

  lemma WinningTotal(c: Counts)
    requires WinningShape(c, 0)
    ensures Total(c) == 14
  {
    if PairAndMelds(c, 4) {
      PairAndMeldsTotal(c, 4);
    } else {
      var ps: seq<nat> :| |ps| == 7 && (forall i :: 0 <= i < |ps| ==> ps[i] < KINDS)
        && forall k :: 0 <= k < KINDS ==> PairsOf(ps, k) <= 2 && c[k] == 2 * PairsOf(ps, k);
      assert PairSum(c, KINDS, ps);
      PairsTotal(c, ps);
    }
  }

  // ---------- hands beside melds ----------

  /** Some one tile wins with the concealed hand and so many melds laid out. */
  ghost predicate WaitsBeside(c: Counts, openMelds: int) {
    exists i: nat :: i < KINDS && WinningShape(Plus(c, i), openMelds)
  }

  lemma WaitingTotal(c: Counts, openMelds: int)
    requires WaitsBeside(c, openMelds)
    ensures Total(c) == 13 - 3 * openMelds
  {
    var i: nat :| i < KINDS && WinningShape(Plus(c, i), openMelds);
    PlusTotal(c, i, KINDS);
    if openMelds == 0 { WinningTotal(Plus(c, i)); } else { PairAndMeldsTotal(Plus(c, i), 4 - openMelds); }
  }

  /**
   * For a hand of the size that goes with its melds, the engine's test and waiting agree exactly when
   * no meld is laid out or the hand does not wait.
   */
  lemma TestAgreesIff(c: Counts, openMelds: int)
    requires 0 <= openMelds <= 4 && Total(c) == 13 - 3 * openMelds
    ensures (IsReady(c) <==> WaitsBeside(c, openMelds)) <==> openMelds == 0 || !WaitsBeside(c, openMelds)
  {
    if IsReady(c) { ReadyHasThirteen(c); }
    if openMelds == 0 && WaitsBeside(c, 0) {
      var i: nat :| i < KINDS && WinningShape(Plus(c, i), 0);
    }
  }

  /** Two triplets, a pair, and the first two tiles of a run. */
  function TenTiles(): Counts {
    seq(KINDS, i => if i == 3 || i == 4 then 3 else if i == 5 then 2 else if i <= 1 then 1 else 0)
  }

  lemma TenTilesUse(ms: seq<Block>, k: nat)
    requires ms == [Triplet(3), Triplet(4), Run(0)] && k < KINDS && PairAt(Plus(TenTiles(), 2), 5)
    ensures UseAll(ms, k) == Take(Plus(TenTiles(), 2), Head(5))[k]
  {
    assert ms[1..][1..] == ms[2..] && ms[2..][1..] == [];
    assert UseAll(ms[2..], k) == Uses(ms[2], k);
    assert UseAll(ms[1..], k) == Uses(ms[1], k) + UseAll(ms[2..], k);
  }

  /** Beside a pong this hand waits for the end of its run, and the engine's test does not see it. */
  lemma WaitsUnseen()
    ensures WinningShape(Plus(TenTiles(), 2), 1) && WaitsBeside(TenTiles(), 1) && !IsReady(TenTiles())
  {
    var c := Plus(TenTiles(), 2);
    var ms := [Triplet(3), Triplet(4), Run(0)];
    forall k | 0 <= k < KINDS ensures UseAll(ms, k) == Take(c, Head(5))[k] { TenTilesUse(ms, k); }
    assert PairAt(c, 5) && MeldsCover(Take(c, Head(5)), 3);
    WaitingTotal(TenTiles(), 1);
    if IsReady(TenTiles()) { ReadyHasThirteen(TenTiles()); }
  }

  /** The kinds that complete the hand, in index order. */
  method TingTiles(c: Counts) returns (out: seq<nat>)
    ensures forall i: nat :: i in out <==> i < KINDS && WinningShape(Plus(c, i), 0)
    ensures forall i, j :: 0 <= i < j < |out| ==> out[i] < out[j]
  {
    out := [];
    var total := TotalCount(c);
    if total != 13 {
      forall i: nat | i < KINDS ensures !WinningShape(Plus(c, i), 0) {
        if WinningShape(Plus(c, i), 0) { ReadyHasThirteen(c); }
      }
      return;
    }
    for k := 0 to KINDS
      invariant forall i: nat :: i in out <==> i < k && WinningShape(Plus(c, i), 0)
      invariant forall i :: 0 <= i < |out| ==> out[i] < k
      invariant forall i, j :: 0 <= i < j < |out| ==> out[i] < out[j]
    {
      var wins := false;
      if c[k] < 4 {
        wins := IsWinning(Plus(c, k));
      } else {
        assert Plus(c, k)[k] > 4;
      }
      if wins { out := out + [k]; }
    }
  }

  method IsTing(c: Counts) returns (ok: bool)
    ensures ok <==> IsReady(c)
  {
    var tiles := TingTiles(c);
    if tiles != [] { assert tiles[0] in tiles; }
    ok := tiles != [];
  }
}
