/**
 * Claiming a chi. The Sichuan policy never offers one; these are the promises of the shared claim
 * code for a rule that does (internal/service/room/engine/engine_claim.go).
 */
module RoundChi {
  import opened Tiles
  import opened SichuanWin
  import opened Rounds
  import opened RoundTiles

  /** The hand supplies the rest of the sequence, tile for tile. */
  lemma HoldsIsWithin(h: seq<Tile>, claimed: Tile, ts: seq<Tile>)
    ensures HoldsChiRemainder(h, claimed, ts) <==> claimed in ts && Within(ChiRemainder(ts, claimed), h)
  {
    var need := ChiRemainder(ts, claimed);
    if HoldsChiRemainder(h, claimed, ts) {
      forall t: Tile ensures Num(need, t) <= Num(h, t) {
        NumMember(need, t);
        if t in need { var i :| 0 <= i < |need| && need[i] == t; }
      }
    }
  }

  /** Three consecutive tiles of one suit, honors included, that a claim of `claimed` completes, in any order. */
  ghost predicate ChiPossible(h: seq<Tile>, claimed: Tile, ts: seq<Tile>) {
    IsChiSequence(ts) && claimed in ts && Within(ChiRemainder(ts, claimed), h)
  }

  lemma TileOrNoneIs(suit: nat, rank: int)
    requires TileOrNone(suit, rank) != NO_TILE
    ensures Suit(TileOrNone(suit, rank)) == suit && Rank(TileOrNone(suit, rank)) == rank && Valid(TileOrNone(suit, rank))
  {
  }

  lemma ChiFromIs(suit: nat, start: int)
    requires ChiFrom(suit, start).Some? && NO_TILE !in ChiFrom(suit, start).value
    ensures var ts := ChiFrom(suit, start).value;
            IsChiSequence(ts) && (forall i :: 0 <= i < 3 ==> Suit(ts[i]) == suit && Rank(ts[i]) == start + i && Valid(ts[i]))
  {
    var ts := ChiFrom(suit, start).value;
    assert ts[0] in ts && ts[1] in ts && ts[2] in ts;
    TileOrNoneIs(suit, start);
    TileOrNoneIs(suit, start + 1);
    TileOrNoneIs(suit, start + 2);
  }

  /** A sequence that runs past the last rank of its suit has a gap that no hand can fill. */
  lemma TriedIsReal(h: seq<Tile>, claimed: Tile, start: int)
    requires claimed != NO_TILE && NO_TILE !in h && ChiAt(h, claimed, start).Some?
    ensures NO_TILE !in ChiAt(h, claimed, start).value
  {
    var ts := ChiAt(h, claimed, start).value;
    HoldsIsWithin(h, claimed, ts);
    NumRemove(ts, claimed, NO_TILE);
    NumMember(ts, NO_TILE);
    NumMember(h, NO_TILE);
    assert Num(ChiRemainder(ts, claimed), NO_TILE) <= Num(h, NO_TILE);
  }

  /** Whatever is resolved is a sequence that the hand and the claimed tile make up. */
  lemma ResolvedIsPossible(h: seq<Tile>, claimed: Tile, named: seq<Tile>)
    requires NO_TILE !in h && ResolveChi(h, claimed, named).Some?
    ensures ChiPossible(h, claimed, ResolveChi(h, claimed, named).value)
    ensures named != [] ==> ResolveChi(h, claimed, named).value == named
  {
    var ts := ResolveChi(h, claimed, named).value;
    HoldsIsWithin(h, claimed, ts);
    if named == [] {
      var low := Rank(claimed) - 2;
      var start := if ChiAt(h, claimed, low).Some? then low else if ChiAt(h, claimed, low + 1).Some? then low + 1 else low + 2;
      TriedIsReal(h, claimed, start);
      ChiFromIs(Suit(claimed), start);
    }
  }

  predicate RanksInOrder(ts: seq<Tile>, i: nat, j: nat, k: nat) {
    && |ts| == 3 && i < 3 && j < 3 && k < 3 && i != j && j != k && i != k
    && Suit(ts[0]) == Suit(ts[1]) == Suit(ts[2])
    && Rank(ts[j]) == Rank(ts[i]) + 1 && Rank(ts[k]) == Rank(ts[i]) + 2
  }

  lemma SequenceInOrder(ts: seq<Tile>) returns (i: nat, j: nat, k: nat)
    requires IsChiSequence(ts)
    ensures RanksInOrder(ts, i, j, k)
  {
    var a, b, c := Rank(ts[0]), Rank(ts[1]), Rank(ts[2]);
    if a < b && a < c {
      if b < c { i, j, k := 0, 1, 2; } else { i, j, k := 0, 2, 1; }
    } else if b < a && b < c {
      if a < c { i, j, k := 1, 0, 2; } else { i, j, k := 1, 2, 0; }
    } else {
      if a < b { i, j, k := 2, 0, 1; } else { i, j, k := 2, 1, 0; }
    }
  }

  lemma CountThree(ts: seq<Tile>, t: Tile)
    requires |ts| == 3
    ensures Num(ts, t) == (if ts[0] == t then 1 else 0) + (if ts[1] == t then 1 else 0) + (if ts[2] == t then 1 else 0)
  {
    assert ts[1..][1..] == ts[2..] && ts[2..][1..] == [];
    assert Num(ts[2..], t) == if ts[2] == t then 1 else 0;
    assert Num(ts[1..], t) == (if ts[1] == t then 1 else 0) + Num(ts[2..], t);
  }

  /** The same three tiles in another order. */
  lemma Reordered(sorted: seq<Tile>, ts: seq<Tile>, i: nat, j: nat, k: nat)
    requires |sorted| == 3 && |ts| == 3 && i < 3 && j < 3 && k < 3 && i != j && j != k && i != k
    requires sorted[0] == ts[i] && sorted[1] == ts[j] && sorted[2] == ts[k]
    ensures SameTiles(sorted, ts)
  {
    forall t: Tile ensures Num(sorted, t) == Num(ts, t) {
      CountThree(sorted, t);
      CountThree(ts, t);
    }
  }

  lemma HeldToo(h: seq<Tile>, claimed: Tile, sorted: seq<Tile>, ts: seq<Tile>)
    requires SameTiles(sorted, ts) && claimed in ts && Within(ChiRemainder(ts, claimed), h)
    ensures HoldsChiRemainder(h, claimed, sorted)
  {
    RemoveSame(sorted, ts, claimed);
    forall t: Tile ensures Num(ChiRemainder(sorted, claimed), t) <= Num(h, t) {
      assert Num(ChiRemainder(ts, claimed), t) <= Num(h, t);
    }
    HoldsIsWithin(h, claimed, sorted);
  }

  lemma ChiFromExists(suit: nat, ts: seq<Tile>, i: nat, j: nat, k: nat)
    requires RanksInOrder(ts, i, j, k) && Suit(ts[0]) == suit && forall x :: 0 <= x < |ts| ==> Valid(ts[x])
    ensures ChiFrom(suit, Rank(ts[i])).Some? && |ChiFrom(suit, Rank(ts[i])).value| == 3
    ensures var sorted := ChiFrom(suit, Rank(ts[i])).value; sorted[0] == ts[i] && sorted[1] == ts[j] && sorted[2] == ts[k]
  {
    assert Valid(ts[i]) && Valid(ts[k]) && Valid(ts[j]);
  }

  /** A possible sequence is one of the three that are tried, up to the order of its tiles. */
  lemma PossibleIsTried(h: seq<Tile>, claimed: Tile, ts: seq<Tile>) returns (start: nat)
    requires ChiPossible(h, claimed, ts)
    requires forall x :: 0 <= x < |ts| ==> Valid(ts[x])
    ensures Rank(claimed) - 2 <= start <= Rank(claimed) && ChiAt(h, claimed, start).Some?
  {
    var i, j, k := SequenceInOrder(ts);
    var x :| 0 <= x < |ts| && ts[x] == claimed;
    start := Rank(ts[i]);
    assert x == i || x == j || x == k;
    ChiFromExists(Suit(claimed), ts, i, j, k);
    var sorted := ChiFrom(Suit(claimed), start).value;
    Reordered(sorted, ts, i, j, k);
    HeldToo(h, claimed, sorted, ts);
  }

  lemma TriedIsValid(h: seq<Tile>, claimed: Tile, start: int)
    requires claimed != NO_TILE && NO_TILE !in h && ChiAt(h, claimed, start).Some?
    ensures forall x :: 0 <= x < |ChiAt(h, claimed, start).value| ==> Valid(ChiAt(h, claimed, start).value[x])
  {
    TriedIsReal(h, claimed, start);
    ChiFromIs(Suit(claimed), start);
  }

  /** Without named tiles a sequence is found exactly when the hand allows one. */
  lemma ResolveFindsChi(h: seq<Tile>, claimed: Tile)
    requires claimed != NO_TILE && NO_TILE !in h
    ensures ResolveChi(h, claimed, []).Some? <==>
      exists ts :: (forall x :: 0 <= x < |ts| ==> Valid(ts[x])) && ChiPossible(h, claimed, ts)
  {
    if ts :| (forall x :: 0 <= x < |ts| ==> Valid(ts[x])) && ChiPossible(h, claimed, ts) {
      var start := PossibleIsTried(h, claimed, ts);
      assert start == Rank(claimed) - 2 || start == Rank(claimed) - 1 || start == Rank(claimed);
    }
    if ResolveChi(h, claimed, []).Some? {
      ResolvedIsPossible(h, claimed, []);
      var low := Rank(claimed) - 2;
      TriedIsValid(h, claimed, if ChiAt(h, claimed, low).Some? then low else if ChiAt(h, claimed, low + 1).Some? then low + 1 else low + 2);
    }
  }

  /**
   * A chi that passes its guard and resolves finds its tiles: it is accepted, no tile appears or
   * disappears, and the claimer is to discard. It is refused, with nothing changed, when no sequence
   * resolves.
   */
  lemma ChiGoesThrough(rs: Round, seat: int, named: seq<Tile>)
    requires CanClaimChi(rs, seat) && DiscardOnOffer(rs) && NO_TILE !in rs.hands[seat] && rs.pendingDraw == NO_TILE
    ensures var o := ApplyChi(rs, seat, named);
            && (o.ok <==> ResolveChi(rs.hands[seat], rs.lastDiscard, named).Some?)
            && (!o.ok ==> o.rs == rs)
            && (o.ok ==> SameAmount(rs, o.rs) && o.rs.phase == DiscardPhase && o.rs.turn == seat)
  {
    var t := rs.lastDiscard;
    var tiles := ResolveChi(rs.hands[seat], t, named);
    if tiles.Some? {
      ResolvedIsPossible(rs.hands[seat], t, named);
      var own := ChiRemainder(tiles.value, t);
      var m := Meld(Chi, tiles.value, rs.lastDiscardSeat);
      forall u: Tile ensures Num(m.tiles, u) == Num(own, u) + (if u == t then 1 else 0) {
        NumRemove(tiles.value, t, u);
        NumMember(tiles.value, t);
      }
      MeldedTiles(rs, seat, own, m);
      BeginClaimIsClean(rs);
      ChiForm(rs, seat, named);
      assert SameTable(Melded(rs, seat, own, m), ClaimerDiscards(Melded(rs, seat, own, m), seat));
    }
  }

  lemma ChiForm(rs: Round, seat: int, named: seq<Tile>)
    requires CanClaimChi(rs, seat) && rs.currentDraw == NO_TILE
    requires var tiles := ResolveChi(rs.hands[seat], rs.lastDiscard, named);
             tiles.Some? && RemoveEach(rs.hands[seat], ChiRemainder(tiles.value, rs.lastDiscard)).1
    ensures var tiles := ResolveChi(rs.hands[seat], rs.lastDiscard, named).value;
            ApplyChi(rs, seat, named) ==
              Outcome(ClaimerDiscards(Melded(rs, seat, ChiRemainder(tiles, rs.lastDiscard), Meld(Chi, tiles, rs.lastDiscardSeat)), seat), true)
  {
  }
}
