/** Whether a Sichuan hand wins on a tile (internal/mahjong/sichuan/xuezhandaodi/xzdd.go). */
module SichuanWin {
  import opened Tiles
  import opened Blocks
  import opened HandForm

  datatype MeldKind = Pong | Chi | ZhiGang | BuGang | AnGang

  /** A meld laid out on the table and the seat whose discard it used, -1 for none. */
  datatype Meld = Meld(kind: MeldKind, tiles: seq<Tile>, source: int)

  function TileAt(i: nat): Tile
    requires i < KINDS
  {
    FromIndex(i).value
  }

  /** How many tiles of the hand have the index; flowers have none that counts. */
  function NumAt(h: seq<Tile>, i: nat): nat {
    if h == [] then 0 else (if !IsFlower(h[0]) && Index(h[0]) == i then 1 else 0) + NumAt(h[1..], i)
  }

  /** How many tiles of each playable kind the hand holds. */
  function HandCounts(h: seq<Tile>): Counts {
    seq(KINDS, i requires 0 <= i < KINDS => NumAt(h, i))
  }

  /** For real tiles the table holds the number of copies of each kind. */
  lemma {:induction false} CountsAreCopies(h: seq<Tile>, i: nat)
    requires i < KINDS && forall k :: 0 <= k < |h| ==> Valid(h[k])
    ensures NumAt(h, i) == Num(h, TileAt(i))
  {
    IndexRoundTrip(TileAt(i), i);
    if h != [] {
      IndexRoundTrip(h[0], i);
      CountsAreCopies(h[1..], i);
    }
  }

  predicate HoldsSuit(c: Counts, suit: int) {
    0 <= suit <= 2 && exists i :: suit * 9 <= i < suit * 9 + 9 && c[i] > 0
  }

  function CountOpen(ms: seq<Meld>): nat {
    if ms == [] then 0 else (if |ms[0].tiles| >= 3 then 1 else 0) + CountOpen(ms[1..])
  }

  /** `missing` is the declared missing suit, or -1 while none is declared. */
  ghost predicate CheckHu(h: seq<Tile>, target: Tile, missing: int, melds: seq<Meld>) {
    && target != NO_TILE
    && 0 <= Index(target) < KINDS
    && var closed := Plus(HandCounts(h), Index(target));
       && !HoldsSuit(closed, missing)
       && WinningShape(closed, CountOpen(melds))
  }

  lemma {:induction false} NumAtRemove(h: seq<Tile>, x: Tile, i: nat)
    requires x in h
    ensures NumAt(h, i) == NumAt(RemoveOne(h, x), i) + if !IsFlower(x) && Index(x) == i then 1 else 0
  {
    if h[0] != x { NumAtRemove(h[1..], x, i); }
  }

  lemma {:induction false} NumAtSame(g: seq<Tile>, h: seq<Tile>, i: nat)
    requires SameTiles(g, h)
    ensures NumAt(g, i) == NumAt(h, i)
    decreases |g|
  {
    if g == [] {
      SameLength(g, h);
    } else {
      RemoveSame(g, h, g[0]);
      assert RemoveOne(g, g[0]) == g[1..];
      NumAtRemove(h, g[0], i);
      NumAtSame(g[1..], RemoveOne(h, g[0]), i);
    }
  }

  /** The answer depends on the hand only through the bag of its tiles. */
  lemma CheckHuSameBag(g: seq<Tile>, h: seq<Tile>, target: Tile, missing: int, melds: seq<Meld>)
    requires SameTiles(g, h)
    ensures CheckHu(g, target, missing, melds) == CheckHu(h, target, missing, melds)
  {
    forall i: nat | i < KINDS ensures NumAt(g, i) == NumAt(h, i) { NumAtSame(g, h, i); }
    assert HandCounts(g) == HandCounts(h);
  }

  lemma {:induction false} NumAtAppend(h: seq<Tile>, x: Tile, i: nat)
    ensures NumAt(h + [x], i) == NumAt(h, i) + if !IsFlower(x) && Index(x) == i then 1 else 0
  {
    if h == [] {
      assert h + [x] == [x];
    } else {
      NumAtAppend(h[1..], x, i);
      assert (h + [x])[1..] == h[1..] + [x];
    }
  }

  /** The loop over the hand that fills the table. */
  method Count(h: seq<Tile>) returns (c: Counts)
    ensures c == HandCounts(h)
  {
    c := seq(KINDS, _ => 0);
    for n := 0 to |h|
      invariant forall k: nat :: k < KINDS ==> c[k] == NumAt(h[..n], k)
    {
      var t := h[n];
      assert h[..n + 1] == h[..n] + [t];
      if !IsFlower(t) && 0 <= Index(t) < KINDS {
        c := Plus(c, Index(t));
      }
      forall k: nat | k < KINDS ensures c[k] == NumAt(h[..n + 1], k) {
        NumAtAppend(h[..n], t, k);
      }
    }
    assert h[..|h|] == h;
  }

  method DecideHu(h: seq<Tile>, target: Tile, missing: int, melds: seq<Meld>) returns (ok: bool)
    ensures ok <==> CheckHu(h, target, missing, melds)
  {
    if target == NO_TILE || !(0 <= Index(target) < KINDS) {
      return false;
    }
    var counts := Count(h);
    var closed := Plus(counts, Index(target));
    if HoldsSuit(closed, missing) { return false; }
    ok := IsWinningWithOpenMelds(closed, CountOpen(melds));
  }
}
