/** The wall and the hand as the engine holds them (internal/mahjong/wall/wall.go, internal/mahjong/hand/hand.go). */
module Walls {
  import opened Tiles
  import opened Blocks
  import opened SichuanWin

  /** The tiles in order and a cursor: what lies before the cursor has been drawn. */
  class Wall {
    var tiles: seq<Tile>
    var pos: nat

    ghost predicate Valid()
      reads this
    {
      pos <= |tiles|
    }

    /** The tiles still to be drawn, in order. */
    ghost function Left(): seq<Tile>
      reads this
      requires Valid()
    {
      tiles[pos..]
    }

    constructor FromOrdered(ts: seq<Tile>)
      ensures Valid() && Left() == ts
    {
      tiles, pos := ts, 0;
    }

    method Remaining() returns (n: nat)
      requires Valid()
      ensures n == |Left()|
    {
      n := |tiles| - pos;
    }

    method Draw() returns (t: Option<Tile>)
      requires Valid()
      modifies this
      ensures Valid()
      ensures old(Left()) == [] ==> t == None && Left() == []
      ensures old(Left()) != [] ==> t.Some? && [t.value] + Left() == old(Left())
    {
      if pos == |tiles| { return None; }
      t := Some(tiles[pos]);
      pos := pos + 1;
    }

    /** Undoes a draw, even with another tile, and also when nothing was drawn yet. */
    method PushFront(t: Tile)
      requires Valid()
      modifies this
      ensures Valid() && Left() == [t] + old(Left())
    {
      if pos == 0 {
        tiles := [t] + tiles;
      } else {
        pos := pos - 1;
        tiles := tiles[pos := t];
      }
    }
  }

  /** Drawing and putting back leaves the wall as it was. */
  method DrawThenPutBack(w: Wall) returns (t: Option<Tile>)
    requires w.Valid()
    modifies w
    ensures w.Valid() && w.Left() == old(w.Left())
  {
    t := w.Draw();
    if t.Some? { w.PushFront(t.value); }
  }

  class Hand {
    var tiles: seq<Tile>

    constructor ()
      ensures tiles == []
    {
      tiles := [];
    }

    method Add(t: Tile)
      modifies this
      ensures tiles == old(tiles) + [t]
    {
      tiles := tiles + [t];
    }

    /** Takes the first tile of the kind; refused, with nothing changed, when there is none. */
    method Remove(t: Tile) returns (ok: bool)
      modifies this
      ensures ok <==> t in old(tiles)
      ensures tiles == RemoveOne(old(tiles), t)
      ensures !ok ==> tiles == old(tiles)
    {
      for i := 0 to |tiles|
        invariant t !in tiles[..i] && tiles == old(tiles)
      {
        if tiles[i] == t {
          RemoveAt(tiles, i, t);
          tiles := tiles[..i] + tiles[i + 1..];
          return true;
        }
      }
      RemoveMissing(tiles, t);
      return false;
    }

    method Counts() returns (c: Blocks.Counts)
      ensures c == HandCounts(tiles)
    {
      c := Count(tiles);
    }
  }

  lemma {:induction false} RemoveAt(h: seq<Tile>, i: nat, t: Tile)
    requires i < |h| && h[i] == t && t !in h[..i]
    ensures RemoveOne(h, t) == h[..i] + h[i + 1..]
  {
    if i > 0 {
      assert h[0] in h[..i] && h[1..][..i - 1] == h[..i][1..];
      RemoveAt(h[1..], i - 1, t);
    }
  }

  lemma {:induction false} RemoveMissing(h: seq<Tile>, t: Tile)
    requires t !in h
    ensures RemoveOne(h, t) == h
  {
    if h != [] { RemoveMissing(h[1..], t); }
  }

  // ---------- the 108-tile wall ----------

  /** Every suited tile four times and nothing else, in some order. */
  ghost predicate IsFullWall(w: seq<Tile>) {
    |w| == 108 && forall t: Tile :: Num(w, t) == Supply(t)
  }

  /** The suited tiles before (s, r) in suit and rank order. */
  predicate Before(t: Tile, s: nat, r: nat) { Suit(t) < s || (Suit(t) == s && Rank(t) < r) }

  method NewFull108() returns (tiles: seq<Tile>)
    ensures IsFullWall(tiles)
  {
    tiles := [];
    for s := 0 to 3
      invariant |tiles| == 36 * s
      invariant forall t: Tile :: Num(tiles, t) == if Before(t, s, 0) then Supply(t) else 0
    {
      for r := 1 to 10
        invariant |tiles| == 36 * s + 4 * (r - 1)
        invariant forall t: Tile :: Num(tiles, t) == if Before(t, s, r) then Supply(t) else 0
      {
        var x := New(s, r).value;
        ghost var before := tiles;
        for k := 0 to 4
          invariant |tiles| == |before| + k
          invariant forall t: Tile :: Num(tiles, t) == Num(before, t) + if t == x then k else 0
        {
          ghost var was := tiles;
          tiles := tiles + [x];
          forall t: Tile ensures Num(tiles, t) == Num(before, t) + if t == x then k + 1 else 0 {
            NumAppend(was, x, t);
          }
        }
        forall t: Tile ensures Num(tiles, t) == if Before(t, s, r + 1) then Supply(t) else 0 {
          if Suit(t) == s && Rank(t) == r { assert t == x; }
        }
      }
    }
  }
}
