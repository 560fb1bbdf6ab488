/** What a win is judged by: the tiles on the winner's side and the course of the hand. */
module RoundFans {
  import opened Tiles
  import opened Blocks
  import opened SichuanWin
  import opened SichuanScore
  import opened Rounds
  import opened RoundInv
  import opened RoundTiles
  import opened RoundRefusals

  /** The places of the seat's kongs on record. */
  function KongPlaces(gs: seq<GangRecord>, s: Seat): set<nat> { set i: nat | i < |gs| && gs[i].seat == s }

  function ConcealedPlaces(gs: seq<GangRecord>, s: Seat): set<nat> {
    set i: nat | i < |gs| && gs[i].seat == s && gs[i].reason == GangAn
  }

  lemma {:induction false} KongsAreCounted(gs: seq<GangRecord>, s: Seat)
    ensures KongsOf(gs, s) == |KongPlaces(gs, s)|
  {
    if gs != [] {
      var n := |gs| - 1;
      KongsAreCounted(gs[..n], s);
      var before := KongPlaces(gs[..n], s);
      assert KongPlaces(gs, s) == if gs[n].seat == s then before + {n} else before;
    }
  }

  lemma {:induction false} ConcealedAreCounted(gs: seq<GangRecord>, s: Seat)
    ensures ConcealedKongsOf(gs, s) == |ConcealedPlaces(gs, s)|
  {
    if gs != [] {
      var n := |gs| - 1;
      ConcealedAreCounted(gs[..n], s);
      var before := ConcealedPlaces(gs[..n], s);
      assert ConcealedPlaces(gs, s) == if gs[n].seat == s && gs[n].reason == GangAn then before + {n} else before;
    }
  }

  /** The table holds the winner's hand, the winning tile and the melds. */
  predicate HoldsAll(c: Counts, h: seq<Tile>, t: Tile, ms: seq<Meld>) {
    forall i: nat :: i < KINDS ==>
      c[i] == Num(h, TileAt(i)) + (if TileAt(i) == t then 1 else 0) + NumMelds(ms, TileAt(i))
  }

  predicate AllValid(ts: seq<Tile>) { forall i :: 0 <= i < |ts| ==> Valid(ts[i]) }

  lemma MeldIsReal(rs: Round, s: Seat, i: nat)
    requires Stocked(rs) && i < |rs.melds[s]|
    ensures AllValid(rs.melds[s][i].tiles)
  {
    var m := rs.melds[s][i];
    forall k | 0 <= k < |m.tiles| ensures Valid(m.tiles[k]) {
      var t := m.tiles[k];
      TileIsCounted(m.tiles, k);
      ReplaceMeld(rs.melds[s], i, m, t);
      TableUpdate(rs.melds, s, rs.melds[s], t);
      assert Amount(rs, t) <= Supply(t);
    }
  }

  lemma {:induction false} MeldsAreCounted(ms: seq<Meld>, i: nat)
    requires i < KINDS && forall k :: 0 <= k < |ms| ==> |ms[k].tiles| >= 3 && AllValid(ms[k].tiles)
    ensures MeldAt(ms, i) == NumMelds(ms, TileAt(i))
  {
    if ms != [] {
      var front, m := ms[..|ms| - 1], ms[|ms| - 1];
      MeldsAreCounted(front, i);
      CountsAreCopies(m.tiles, i);
      AppendMeld(front, m, TileAt(i));
      assert front + [m] == ms;
    }
  }

  lemma TableHoldsAll(rs: Round, s: Seat, t: Tile)
    requires Stocked(rs) && MeldsOk(rs.melds) && Valid(t)
    ensures HoldsAll(WinTable(rs.hands[s], t, rs.melds[s]), rs.hands[s], t, rs.melds[s])
  {
    PileIsReal(rs, rs.hands, s);
    forall k | 0 <= k < |rs.melds[s]| ensures |rs.melds[s][k].tiles| >= 3 && AllValid(rs.melds[s][k].tiles) {
      MeldIsReal(rs, s, k);
      assert MeldOk(rs.melds[s][k]);
    }
    forall i: nat | i < KINDS
      ensures WinTable(rs.hands[s], t, rs.melds[s])[i]
              == Num(rs.hands[s], TileAt(i)) + (if TileAt(i) == t then 1 else 0) + NumMelds(rs.melds[s], TileAt(i))
    {
      CountsAreCopies(rs.hands[s], i);
      MeldsAreCounted(rs.melds[s], i);
      IndexRoundTrip(t, i);
    }
  }

  /** The circumstances of a win of the seat now. */
  predicate SceneHolds(rs: Round, s: Seat, sc: Scene) {
    var claimed := rs.phase == ClaimPhase;
    && sc.dealer == (s == rs.dealerSeat) && sc.tsumo == !claimed && sc.lastTile == (rs.wall == [])
    && sc.openingDraw == (!claimed && s == rs.openingDrawSeat) && sc.dealerFirstDiscard == (claimed && rs.dealerFirstDiscardOpen)
    && sc.kongs == |KongPlaces(rs.gangs, s)| && sc.concealedKongs == |ConcealedPlaces(rs.gangs, s)|
    && sc.afterKong == (!claimed && rs.lastGangFollowUp) && sc.kongDiscard == (claimed && rs.lastDiscardAfterGang)
    && !sc.robbedKongOnRecord
  }

  /** The tile a seat may win on now. */
  function TileOnOffer(rs: Round): Tile { if rs.phase == ClaimPhase then rs.lastDiscard else rs.pendingDraw }

  lemma OfferIsReal(rs: Round, s: int)
    requires Inv(rs) && CanHu(rs, s)
    ensures 0 <= s < 4 && Valid(TileOnOffer(rs)) && WinTile(rs, s) == TileOnOffer(rs)
  {
    HuGuard(rs, s);
    if rs.phase == TsumoPhase { assert Amount(rs, rs.pendingDraw) <= Supply(rs.pendingDraw); }
  }

  /**
   * A win is judged by all tiles on the winner's side with the winning one, and by the circumstances:
   * dealer, own draw, first draw or first discard, last tile, kongs of the seat, and the kong just before.
   */
  lemma WinIsJudgedBy(rs: Round, s: int)
    requires Inv(rs) && Step(rs, DoHu(s)).ok
    ensures 0 <= s < 4 && exists c: Counts, sc: Scene ::
      HoldsAll(c, rs.hands[s], TileOnOffer(rs), rs.melds[s]) && SceneHolds(rs, s, sc) && WinFan(rs, s) == FanTotal(c, sc)
  {
    AcceptedIffAllowed(rs, DoHu(s));
    OfferIsReal(rs, s);
    JudgedBy(rs, s);
  }

  lemma JudgedBy(rs: Round, s: Seat)
    requires Inv(rs) && CanHu(rs, s) && Valid(TileOnOffer(rs)) && WinTile(rs, s) == TileOnOffer(rs)
    ensures HoldsAll(WinTable(rs.hands[s], TileOnOffer(rs), rs.melds[s]), rs.hands[s], TileOnOffer(rs), rs.melds[s])
    ensures SceneHolds(rs, s, SceneOf(rs, s))
    ensures WinFan(rs, s) == FanTotal(WinTable(rs.hands[s], TileOnOffer(rs), rs.melds[s]), SceneOf(rs, s))
  {
    HuGuard(rs, s);
    TableHoldsAll(rs, s, TileOnOffer(rs));
    KongsAreCounted(rs.gangs, s);
    ConcealedAreCounted(rs.gangs, s);
  }
}
