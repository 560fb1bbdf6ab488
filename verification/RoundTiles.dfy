/** No tile appears or disappears: every operation moves tiles, or puts named ones out of play. */
module RoundTiles {
  import opened Tiles
  import opened SichuanWin
  import opened Rounds
  import opened RoundInv

  ghost predicate SameAmount(a: Round, b: Round) {
    forall t: Tile :: Amount(a, t) == Amount(b, t)
  }

  lemma SameAmountStocked(a: Round, b: Round)
    requires SameAmount(a, b) && Stocked(a)
    ensures Stocked(b)
  {
    forall t: Tile ensures Amount(b, t) <= Supply(t) {
      assert Amount(a, t) == Amount(b, t);
    }
  }

  lemma DrawnTiles(rs: Round, t: Tile)
    requires rs.wall != [] && rs.wall[0] != NO_TILE && rs.pendingDraw == NO_TILE
    ensures var r1 := rs.(wall := rs.wall[1..]);
            Amount(OfferTsumo(r1, rs.wall[0]), t) == Amount(rs, t) == Amount(KeepDraw(r1, rs.wall[0]), t)
  {
    GiveCount(rs.hands, rs.turn, rs.wall[0], t);
  }

  /** A draw takes the first tile of the wall, if the hand is not over. */
  lemma DrawCases(rs: Round)
    requires Stocked(rs)
    ensures ShouldFinish(rs) ==> DrawForCurrentTurn(rs) == Outcome(FinishRound(rs), true)
    ensures !ShouldFinish(rs) ==>
      var r1, t := rs.(wall := rs.wall[1..]), rs.wall[0];
      && t != NO_TILE && Valid(t)
      && (DrawForCurrentTurn(rs) == Outcome(OfferTsumo(r1, t), true)
          || DrawForCurrentTurn(rs) == Outcome(KeepDraw(r1, t), true))
  {
    if !ShouldFinish(rs) { DrawTakesFirst(rs, rs.turn); }
  }

  lemma DrawTiles(rs: Round)
    requires Stocked(rs) && rs.pendingDraw == NO_TILE
    ensures DrawForCurrentTurn(rs).ok && SameAmount(rs, DrawForCurrentTurn(rs).rs)
  {
    DrawCases(rs);
    if !ShouldFinish(rs) {
      forall t: Tile ensures Amount(rs, t) == Amount(DrawForCurrentTurn(rs).rs, t) {
        DrawnTiles(rs, t);
      }
    }
  }

  /** Removing the last discard takes the offered tile off the pile. */
  lemma LastDiscardTiles(rs: Round, t: Tile)
    requires rs.lastDiscard != NO_TILE && 0 <= rs.lastDiscardSeat
    requires var pile := rs.discards[rs.lastDiscardSeat]; pile != [] && pile[|pile| - 1] == rs.lastDiscard
    ensures Amount(RemoveLastDiscard(rs, rs.lastDiscardSeat, rs.lastDiscard), t)
            == Amount(rs, t) - (if t == rs.lastDiscard then 1 else 0)
  {
    var s: Seat := rs.lastDiscardSeat;
    var pile := rs.discards[s];
    var r1 := RemoveLastDiscard(rs, s, rs.lastDiscard);
    assert pile == pile[..|pile| - 1] + [rs.lastDiscard];
    NumAppend(pile[..|pile| - 1], rs.lastDiscard, t);
    PileUpdate(rs.discards, s, pile[..|pile| - 1], t);
  }

  /** Tiles from the claimer's hand and the tile on offer become one meld. */
  ghost predicate ClaimedMeld(r0: Round, r3: Round, seat: Seat, own: seq<Tile>, m: Meld) {
    && RemoveEach(r0.hands[seat], own).1
    && (forall t: Tile :: Num(m.tiles, t) == Num(own, t) + (if t == r0.lastDiscard then 1 else 0))
    && r3 == RecordMeld(RemoveLastDiscard(r0.(hands := r0.hands[seat := RemoveEach(r0.hands[seat], own).0]),
                                          r0.lastDiscardSeat, r0.lastDiscard), seat, m)
  }

  lemma ClaimTiles(r0: Round, r3: Round, seat: Seat, own: seq<Tile>, m: Meld)
    requires ClaimedMeld(r0, r3, seat, own, m)
    requires r0.lastDiscard != NO_TILE && 0 <= r0.lastDiscardSeat
    requires var pile := r0.discards[r0.lastDiscardSeat]; pile != [] && pile[|pile| - 1] == r0.lastDiscard
    ensures SameAmount(r0, r3)
  {
    var r1 := r0.(hands := r0.hands[seat := RemoveEach(r0.hands[seat], own).0]);
    RemoveEachTakes(r0.hands[seat], own);
    forall t: Tile ensures Amount(r0, t) == Amount(r3, t) {
      PileUpdate(r0.hands, seat, r1.hands[seat], t);
      LastDiscardTiles(r1, t);
      RecordMeldCount(RemoveLastDiscard(r1, r0.lastDiscardSeat, r0.lastDiscard), seat, m, t);
    }
  }

  /** In a reachable claim window nothing has to be rewound. */
  lemma BeginClaimIsClean(rs: Round)
    requires rs.currentDraw == NO_TILE
    ensures BeginClaim(rs) == Outcome(CloseOpeningClaim(ClearClaimWindow(rs)), true)
  {
  }

  lemma {:induction false} CandidateIn(cs: seq<Candidate>, seat: int) returns (i: nat)
    requires CandidateOf(cs, seat).Some?
    ensures i < |cs| && cs[i] == CandidateOf(cs, seat).value && cs[i].seat == seat
  {
    if cs[0].seat == seat { i := 0; } else { i := CandidateIn(cs[1..], seat); i := i + 1; }
  }

  lemma CopiesCount(t: Tile, u: Tile)
    ensures Num([t], u) == if u == t then 1 else 0
    ensures Num([t, t], u) == if u == t then 2 else 0
    ensures Num([t, t, t], u) == if u == t then 3 else 0
    ensures Num([t, t, t, t], u) == if u == t then 4 else 0
  {
    NumSame([t], t, u);
    NumSame([t, t], t, u);
    NumSame([t, t, t], t, u);
    NumSame([t, t, t, t], t, u);
  }

  lemma Copies(t: Tile)
    ensures forall u: Tile :: Num([t], u) == (if u == t then 1 else 0)
    ensures forall u: Tile :: Num([t, t], u) == (if u == t then 2 else 0)
    ensures forall u: Tile :: Num([t, t, t], u) == (if u == t then 3 else 0)
    ensures forall u: Tile :: Num([t, t, t, t], u) == (if u == t then 4 else 0)
  {
    forall u: Tile
      ensures Num([t], u) == if u == t then 1 else 0
      ensures Num([t, t], u) == if u == t then 2 else 0
      ensures Num([t, t, t], u) == if u == t then 3 else 0
      ensures Num([t, t, t, t], u) == if u == t then 4 else 0
    {
      CopiesCount(t, u);
    }
  }

  /** A tile is on offer that some seat discarded. */
  predicate DiscardOnOffer(rs: Round) {
    && rs.lastDiscard != NO_TILE && 0 <= rs.lastDiscardSeat && rs.currentDraw == NO_TILE
    && var pile := rs.discards[rs.lastDiscardSeat]; pile != [] && pile[|pile| - 1] == rs.lastDiscard
  }

  /** What a seat allowed to claim a pong or kong has, in any reachable state. */
  lemma ClaimGuard(rs: Round, seat: int)
    requires Inv(rs) && (CanClaimPong(rs, seat) || CanClaimGang(rs, seat))
    ensures DiscardOnOffer(rs) && rs.wall != [] && rs.phase == ClaimPhase && !rs.closed
    ensures seat != rs.lastDiscardSeat
    ensures CanClaimPong(rs, seat) ==> Num(rs.hands[seat], rs.lastDiscard) >= 2
    ensures CanClaimGang(rs, seat) ==> Num(rs.hands[seat], rs.lastDiscard) >= 3
  {
    var i := CandidateIn(rs.candidates, seat);
    assert CandidateOk(rs, rs.candidates[i]);
  }

  lemma ListedIsOk(rs: Round, seat: int)
    requires Inv(rs) && rs.phase == ClaimPhase && CandidateOf(rs.candidates, seat).Some?
    ensures CandidateOk(rs, CandidateOf(rs.candidates, seat).value)
  {
    var i := CandidateIn(rs.candidates, seat);
    assert CandidateOk(rs, rs.candidates[i]);
  }

  /** The Sichuan policy never offers a chi, so no reachable state accepts one. */
  lemma NoChiClaim(rs: Round, seat: int)
    requires Inv(rs)
    ensures !CanClaimChi(rs, seat)
  {
    if rs.phase == ClaimPhase && CandidateOf(rs.candidates, seat).Some? { ListedIsOk(rs, seat); }
  }

  /** The state after own tiles and the offered one have become a meld. */
  function Melded(rs: Round, seat: Seat, own: seq<Tile>, m: Meld): Round {
    var r0 := CloseOpeningClaim(ClearClaimWindow(rs));
    var r1 := r0.(hands := r0.hands[seat := RemoveEach(r0.hands[seat], own).0]);
    RecordMeld(RemoveLastDiscard(r1, rs.lastDiscardSeat, rs.lastDiscard), seat, m)
  }

  lemma MeldedTiles(rs: Round, seat: Seat, own: seq<Tile>, m: Meld)
    requires DiscardOnOffer(rs) && Within(own, rs.hands[seat])
    requires forall t: Tile :: Num(m.tiles, t) == Num(own, t) + (if t == rs.lastDiscard then 1 else 0)
    ensures RemoveEach(rs.hands[seat], own).1 && SameAmount(rs, Melded(rs, seat, own, m))
  {
    RemoveEachTakes(rs.hands[seat], own);
    var r0 := CloseOpeningClaim(ClearClaimWindow(rs));
    assert SameAmount(rs, r0);
    ClaimTiles(r0, Melded(rs, seat, own, m), seat, own, m);
  }

  lemma PongForm(rs: Round, seat: int)
    requires Inv(rs) && CanClaimPong(rs, seat)
    ensures var t := rs.lastDiscard; var m := Meld(Pong, [t, t, t], rs.lastDiscardSeat);
            && ApplyPong(rs, seat) == Outcome(ClaimerDiscards(Melded(rs, seat, [t, t], m), seat), true)
            && SameAmount(rs, Melded(rs, seat, [t, t], m))
            && Within([t, t], rs.hands[seat])
  {
    ClaimGuard(rs, seat);
    var t := rs.lastDiscard;
    Copies(t);
    MeldedTiles(rs, seat, [t, t], Meld(Pong, [t, t, t], rs.lastDiscardSeat));
    BeginClaimIsClean(rs);
  }

  /** A pong that passes its guard finds its tiles: no error follows the first change. */
  lemma PongTiles(rs: Round, seat: int)
    requires Inv(rs) && CanClaimPong(rs, seat)
    ensures ApplyPong(rs, seat).ok && SameAmount(rs, ApplyPong(rs, seat).rs)
  {
    PongForm(rs, seat);
    var t := rs.lastDiscard;
    assert Melded(rs, seat, [t, t], Meld(Pong, [t, t, t], rs.lastDiscardSeat)).pendingDraw == NO_TILE;
  }

  function KongScored(rs: Round, seat: Seat, t: Tile, source: SeatOrNone): Round {
    ScoreGang(Melded(rs, seat, [t, t, t], Meld(ZhiGang, [t, t, t, t], source)).(lastDiscard := NO_TILE, lastDiscardSeat := NO_SEAT),
              seat, t, GangMing, source)
  }

  lemma ClaimedKongTiles(rs: Round, seat: Seat, t: Tile, m: Meld)
    requires DiscardOnOffer(rs) && t == rs.lastDiscard && m == Meld(ZhiGang, [t, t, t, t], rs.lastDiscardSeat)
    requires seat != rs.lastDiscardSeat && Within([t, t, t], rs.hands[seat])
    ensures SameAmount(rs, KongScored(rs, seat, t, rs.lastDiscardSeat))
  {
    Copies(t);
    MeldedTiles(rs, seat, [t, t, t], m);
    assert SameAmount(Melded(rs, seat, [t, t, t], m), KongScored(rs, seat, t, rs.lastDiscardSeat));
  }

  lemma ClaimGangForm(rs: Round, seat: int)
    requires Inv(rs) && CanClaimGang(rs, seat)
    ensures ClaimGang(rs, seat) == FinishGang(KongScored(rs, seat, rs.lastDiscard, rs.lastDiscardSeat), seat)
    ensures SameAmount(rs, KongScored(rs, seat, rs.lastDiscard, rs.lastDiscardSeat))
    ensures Within([rs.lastDiscard, rs.lastDiscard, rs.lastDiscard], rs.hands[seat])
  {
    ClaimGuard(rs, seat);
    var t := rs.lastDiscard;
    Copies(t);
    ClaimedKongTiles(rs, seat, t, Meld(ZhiGang, [t, t, t, t], rs.lastDiscardSeat));
    RemoveEachTakes(rs.hands[seat], [t, t, t]);
    BeginClaimIsClean(rs);
  }

  function ToDraw(rs: Round, seat: Seat): Round {
    rs.(turn := seat, pendingDraw := NO_TILE, currentDraw := NO_TILE, lastDiscard := NO_TILE,
        lastDiscardSeat := NO_SEAT, qiangGang := false, pendingGangSeat := NO_SEAT,
        pendingGangTile := NO_TILE, phase := Idle)
  }

  lemma FinishGangTiles(rs: Round, seat: Seat)
    requires Stocked(rs) && rs.pendingDraw == NO_TILE
    ensures FinishGang(rs, seat).ok && SameAmount(rs, FinishGang(rs, seat).rs)
  {
    var r1 := ToDraw(rs, seat);
    assert SameAmount(rs, r1);
    SameAmountStocked(rs, r1);
    DrawTiles(r1);
    assert FinishGang(rs, seat) == DrawForCurrentTurn(r1);
  }

  lemma ClaimGangTiles(rs: Round, seat: int)
    requires Inv(rs) && CanClaimGang(rs, seat)
    ensures ClaimGang(rs, seat).ok && SameAmount(rs, ClaimGang(rs, seat).rs)
  {
    ClaimGangForm(rs, seat);
    var r1 := KongScored(rs, seat, rs.lastDiscard, rs.lastDiscardSeat);
    SameAmountStocked(rs, r1);
    assert r1.pendingDraw == NO_TILE by { ClaimGuard(rs, seat); }
    FinishGangTiles(r1, seat);
  }

  lemma {:induction false} FirstPongIs(ms: seq<Meld>, t: Tile)
    ensures FirstPong(ms, t) <= |ms|
    ensures var i := FirstPong(ms, t); i < |ms| ==> ms[i].kind == Pong && |ms[i].tiles| > 0 && ms[i].tiles[0] == t
    ensures HasFullPong(ms, t) ==> HasPong(ms, t)
  {
    if ms != [] {
      FirstPongIs(ms[1..], t);
      if HasFullPong(ms, t) && !(ms[0].kind == Pong && |ms[0].tiles| > 0 && ms[0].tiles[0] == t) {
        var i :| 0 <= i < |ms| && ms[i].kind == Pong && |ms[i].tiles| >= 3
          && ms[i].tiles[0] == t && ms[i].tiles[1] == t && ms[i].tiles[2] == t;
        assert ms[1..][i - 1] == ms[i];
      }
    }
  }

  /** An added kong completes whenever the tile is still in the hand. */
  function BuGangDone(rs: Round, seat: Seat, t: Tile): Round
    requires HasPong(rs.melds[seat], t)
  {
    var ms, i := rs.melds[seat], FirstPong(rs.melds[seat], t);
    rs.(hands := rs.hands[seat := RemoveOne(rs.hands[seat], t)],
        melds := rs.melds[seat := ms[i := Meld(BuGang, [t, t, t, t], ms[i].source)]])
  }

  lemma BuGangForm(rs: Round, seat: Seat, t: Tile)
    requires MeldsOk(rs.melds) && HasFullPong(rs.melds[seat], t) && t in rs.hands[seat]
    ensures HasPong(rs.melds[seat], t)
    ensures CompleteBuGang(rs, seat, t) ==
      Outcome(ScoreGang(BuGangDone(rs, seat, t), seat, t, GangBu, NO_SEAT)
                .(pendingGangSeat := NO_SEAT, pendingGangTile := NO_TILE), true)
  {
    FirstPongIs(rs.melds[seat], t);
  }

  lemma BuGangDoneTiles(rs: Round, seat: Seat, t: Tile, u: Tile)
    requires MeldsOk(rs.melds) && HasPong(rs.melds[seat], t) && t in rs.hands[seat]
    ensures Amount(rs, u) == Amount(BuGangDone(rs, seat, t), u)
  {
    FirstPongIs(rs.melds[seat], t);
    var ms, i := rs.melds[seat], FirstPong(rs.melds[seat], t);
    assert MeldOk(ms[i]);
    CopiesCount(t, u);
    NumSame(ms[i].tiles, t, u);
    NumRemove(rs.hands[seat], t, u);
    PileUpdate(rs.hands, seat, RemoveOne(rs.hands[seat], t), u);
    var m := Meld(BuGang, [t, t, t, t], ms[i].source);
    ReplaceMeld(ms, i, m, u);
    TableUpdate(rs.melds, seat, ms[i := m], u);
  }

  lemma CompleteBuGangTiles(rs: Round, seat: Seat, t: Tile)
    requires MeldsOk(rs.melds) && HasFullPong(rs.melds[seat], t) && t in rs.hands[seat]
    ensures CompleteBuGang(rs, seat, t).ok && SameAmount(rs, CompleteBuGang(rs, seat, t).rs)
    ensures CompleteBuGang(rs, seat, t).rs.pendingDraw == rs.pendingDraw
  {
    BuGangForm(rs, seat, t);
    forall u: Tile ensures Amount(rs, u) == Amount(CompleteBuGang(rs, seat, t).rs, u) {
      BuGangDoneTiles(rs, seat, t, u);
    }
  }

  lemma BuGangTiles(rs: Round, seat: int, t: Tile)
    requires Inv(rs) && CanBuGang(rs, seat, t)
    ensures BuGangBy(rs, seat, t).ok && SameAmount(rs, BuGangBy(rs, seat, t).rs)
  {
    var r1 := OfferBuGang(rs, seat, t);
    if r1.candidates == [] {
      var r2 := ClearClaimWindow(r1);
      assert SameAmount(rs, r2);
      CompleteBuGangTiles(r2, seat, t);
      var r3 := CompleteBuGang(r2, seat, t).rs;
      SameAmountStocked(rs, r3);
      FinishGangTiles(r3, seat);
    }
  }

  function AnGangScored(rs: Round, seat: Seat, t: Tile): Round {
    var r0 := ClearClaimWindow(rs);
    var r1 := r0.(hands := r0.hands[seat := RemoveEach(r0.hands[seat], [t, t, t, t]).0]);
    ScoreGang(RecordMeld(r1, seat, Meld(AnGang, [t, t, t, t], NO_SEAT)), seat, t, GangAn, NO_SEAT)
  }

  lemma AnGangForm(rs: Round, seat: int, t: Tile)
    requires CanAnGang(rs, seat, t)
    ensures AnGangBy(rs, seat, t) == FinishGang(AnGangScored(rs, seat, t), seat)
    ensures SameAmount(rs, AnGangScored(rs, seat, t))
    ensures Within([t, t, t, t], rs.hands[seat])
  {
    var own := [t, t, t, t];
    Copies(t);
    RemoveEachTakes(rs.hands[seat], own);
    var r0 := ClearClaimWindow(rs);
    var r1 := r0.(hands := r0.hands[seat := RemoveEach(r0.hands[seat], own).0]);
    var m := Meld(AnGang, own, NO_SEAT);
    forall u: Tile ensures Amount(rs, u) == Amount(AnGangScored(rs, seat, t), u) {
      PileUpdate(rs.hands, seat, r1.hands[seat], u);
      RecordMeldCount(r1, seat, m, u);
    }
  }

  lemma AnGangTiles(rs: Round, seat: int, t: Tile)
    requires Inv(rs) && CanAnGang(rs, seat, t)
    ensures AnGangBy(rs, seat, t).ok && SameAmount(rs, AnGangBy(rs, seat, t).rs)
  {
    AnGangForm(rs, seat, t);
    SameAmountStocked(rs, AnGangScored(rs, seat, t));
    FinishGangTiles(AnGangScored(rs, seat, t), seat);
  }

  lemma GangTiles(rs: Round, seat: int, t: Tile)
    requires Inv(rs)
    ensures SameAmount(rs, ApplyGang(rs, seat, t).rs)
    ensures ApplyGang(rs, seat, t).ok <==> CanClaimGang(rs, seat) || CanBuGang(rs, seat, t) || CanAnGang(rs, seat, t)
  {
    if CanClaimGang(rs, seat) { ClaimGangTiles(rs, seat); }
    else if CanBuGang(rs, seat, t) { BuGangTiles(rs, seat, t); }
    else if CanAnGang(rs, seat, t) { AnGangTiles(rs, seat, t); }
  }

  // ---------- discarding ----------

  lemma TakePendingTiles(rs: Round, seat: Seat)
    requires rs.pendingDraw != NO_TILE
    ensures SameAmount(rs, TakePendingDraw(rs, seat))
  {
    forall t: Tile ensures Amount(rs, t) == Amount(TakePendingDraw(rs, seat), t) {
      GiveCount(rs.hands, seat, rs.pendingDraw, t);
    }
  }

  lemma LayDiscardTiles(rs: Round, seat: Seat, x: Tile)
    requires x in rs.hands[seat]
    ensures SameAmount(rs, LayDiscard(rs, seat, x))
  {
    forall t: Tile ensures Amount(rs, t) == Amount(LayDiscard(rs, seat, x), t) {
      NumRemove(rs.hands[seat], x, t);
      PileUpdate(rs.hands, seat, RemoveOne(rs.hands[seat], x), t);
      GiveCount(rs.discards, seat, x, t);
    }
  }

  function Exposed(rs: Round, seat: Seat, t: Tile): Round {
    rs.(lastDiscard := t, lastDiscardSeat := seat, turn := NextActive(rs, seat))
  }

  lemma AfterDiscardTiles(rs: Round, seat: Seat, x: Tile)
    requires Stocked(rs) && rs.pendingDraw == NO_TILE
    ensures AfterDiscard(rs, seat, x).ok && SameAmount(rs, AfterDiscard(rs, seat, x).rs)
  {
    if !ShouldFinish(rs) {
      var r2 := OpenClaimWindow(Exposed(rs, seat, x));
      assert SameTable(rs, r2) && SameAmount(rs, r2);
      if r2.candidates == [] {
        var r3 := CloseOpeningClaim(ClearClaimWindow(r2));
        assert SameTable(rs, r3) && SameAmount(rs, r3);
        SameAmountStocked(rs, r3);
        DrawTiles(r3);
      }
    }
  }

  /** Even a refused discard keeps the tiles: it may have moved the drawn tile to the hand. */
  lemma DiscardTiles(rs: Round, seat: int, t: Tile)
    requires Inv(rs)
    ensures SameAmount(rs, ApplyDiscard(rs, seat, t).rs)
  {
    if !(rs.closed || seat != rs.turn || t == NO_TILE) {
      var r1 := if rs.phase == TsumoPhase then TakePendingDraw(rs, seat) else rs;
      if rs.phase == TsumoPhase { TakePendingTiles(rs, seat); }
      assert SameAmount(rs, r1);
      if r1.phase == DiscardPhase && t in r1.hands[seat] {
        LayDiscardTiles(r1, seat, t);
        var r2 := LayDiscard(r1, seat, t);
        assert SameAmount(rs, r2);
        SameAmountStocked(rs, r2);
        AfterDiscardTiles(r2, seat, t);
      }
    }
  }

  // ---------- winning ----------

  /** The tile a win takes off the table: a drawn one, or a kong tile that is still in the hand. */
  predicate TakesTile(rs: Round, seat: int) {
    || WinSource(rs, seat) == SelfDraw
    || (WinSource(rs, seat) == RobbedKong && 0 <= rs.pendingGangSeat && rs.pendingGangTile in rs.hands[rs.pendingGangSeat])
  }

  function LostTo(rs: Round, seat: int, t: Tile): nat {
    if TakesTile(rs, seat) && WinTile(rs, seat) == t then 1 else 0
  }

  ghost predicate LosesTo(a: Round, b: Round, rs: Round, seat: int) {
    forall t: Tile :: Amount(a, t) == Amount(b, t) + LostTo(rs, seat, t)
  }

  lemma LosesThenSame(a: Round, b: Round, c: Round, rs: Round, seat: int)
    requires LosesTo(a, b, rs, seat) && SameAmount(b, c)
    ensures LosesTo(a, c, rs, seat)
  {
    forall t: Tile ensures Amount(a, t) == Amount(c, t) + LostTo(rs, seat, t) {
      assert Amount(b, t) == Amount(c, t);
    }
  }

  lemma LosesStocked(a: Round, b: Round, rs: Round, seat: int)
    requires LosesTo(a, b, rs, seat) && Stocked(a)
    ensures Stocked(b)
  {
    forall t: Tile ensures Amount(b, t) <= Supply(t) {
      assert Amount(a, t) == Amount(b, t) + LostTo(rs, seat, t);
    }
  }

  /** The same tiles in the same places, except for a tile just drawn. */
  predicate SameTable(a: Round, b: Round) {
    a.wall == b.wall && a.hands == b.hands && a.discards == b.discards && a.flowers == b.flowers && a.melds == b.melds
  }

  lemma RobTiles(rs: Round, t: Tile)
    requires 0 <= rs.pendingGangSeat && rs.pendingGangTile != NO_TILE
    ensures Amount(rs.(hands := RobbedHands(rs)), t)
            + (if rs.pendingGangTile in rs.hands[rs.pendingGangSeat] && t == rs.pendingGangTile then 1 else 0)
            == Amount(rs, t)
  {
    var g: Seat := rs.pendingGangSeat;
    NumRemove(rs.hands[g], rs.pendingGangTile, t);
    HandChange(rs, g, RemoveOne(rs.hands[g], rs.pendingGangTile), t);
  }

  lemma HuGuard(rs: Round, seat: int)
    requires Inv(rs) && CanHu(rs, seat)
    ensures ByClaim(rs, seat) ==> rs.phase == ClaimPhase && rs.pendingDraw == NO_TILE && OfferedTileOk(rs) && CandidatesOk(rs)
    ensures ByClaim(rs, seat) ==> seat != rs.lastDiscardSeat && 0 <= rs.lastDiscardSeat
    ensures ByClaim(rs, seat) ==> CandidateOf(rs.candidates, seat).value.priority == 3
    ensures !ByClaim(rs, seat) ==> rs.phase == TsumoPhase && rs.pendingDraw != NO_TILE && !rs.qiangGang
    ensures WinTile(rs, seat) != NO_TILE
  {
    if ByClaim(rs, seat) { ListedIsOk(rs, seat); }
  }

  lemma RecordHuTable(rs: Round, seat: Seat, fan: nat)
    ensures SameTable(RecordHu(rs, seat, fan), if WinSource(rs, seat) == RobbedKong then rs.(hands := RobbedHands(rs)) else rs)
    ensures RecordHu(rs, seat, fan).pendingDraw == NO_TILE
  {
  }

  lemma RecordHuTiles(rs: Round, seat: Seat, fan: nat)
    requires Inv(rs) && CanHu(rs, seat)
    ensures LosesTo(rs, RecordHu(rs, seat, fan), rs, seat)
  {
    HuGuard(rs, seat);
    RecordHuTable(rs, seat, fan);
    var r1 := RecordHu(rs, seat, fan);
    forall t: Tile ensures Amount(rs, t) == Amount(r1, t) + LostTo(rs, seat, t) {
      if WinSource(rs, seat) == RobbedKong { RobTiles(rs, t); }
    }
  }

  /** What follows a recorded win: the end, more winners, or the next draw. */
  ghost function Settle(rs: Round, seat: Seat, r1: Round): Outcome {
    if ShouldFinish(r1) then Outcome(FinishRound(r1), true)
    else if ByClaim(rs, seat) && HuLeftAt(r1.candidates, 3) then Outcome(r1.(phase := ClaimPhase), true)
    else DrawForCurrentTurn(TurnAfterWin(rs, seat, r1))
  }

  function TurnAfterWin(rs: Round, seat: Seat, r1: Round): Round {
    var r2 := ClearClaimWindow(r1);
    r2.(turn := NextActive(r2, if ByClaim(rs, seat) && 0 <= rs.lastDiscardSeat then rs.lastDiscardSeat else seat))
  }

  lemma HuForm(rs: Round, seat: int, fan: nat)
    requires Inv(rs) && CanHu(rs, seat) && fan > 0
    ensures ApplyHu(rs, seat, fan) == Settle(rs, seat, RecordHu(rs, seat, fan))
  {
    HuGuard(rs, seat);
  }

  lemma SettleTiles(rs: Round, seat: Seat, r1: Round)
    requires Stocked(r1) && r1.pendingDraw == NO_TILE
    ensures Settle(rs, seat, r1).ok && SameAmount(r1, Settle(rs, seat, r1).rs)
  {
    var r3 := TurnAfterWin(rs, seat, r1);
    assert SameTable(r1, r3) && SameAmount(r1, r3);
    SameAmountStocked(r1, r3);
    DrawTiles(r3);
  }

  lemma HuTiles(rs: Round, seat: int, fan: nat)
    requires Inv(rs) && CanHu(rs, seat) && fan > 0
    ensures ApplyHu(rs, seat, fan).ok && LosesTo(rs, ApplyHu(rs, seat, fan).rs, rs, seat)
  {
    var r1 := RecordHu(rs, seat, fan);
    RecordHuTiles(rs, seat, fan);
    RecordHuTable(rs, seat, fan);
    LosesStocked(rs, r1, rs, seat);
    HuForm(rs, seat, fan);
    SettleTiles(rs, seat, r1);
    LosesThenSame(rs, r1, Settle(rs, seat, r1).rs, rs, seat);
  }

  // ---------- passing ----------

  /** A robbed kong: its tile has already left the konger's hand. */
  predicate Robbed(rs: Round) {
    rs.qiangGang && 0 <= rs.pendingGangSeat && rs.pendingGangTile !in rs.hands[rs.pendingGangSeat]
  }

  /** The last candidate of a robbed kong's window is about to pass. */
  predicate DeadPass(rs: Round, seat: int) {
    rs.phase == ClaimPhase && IsTop(rs, seat) && RemoveCandidate(rs.candidates, seat) == [] && Robbed(rs)
  }

  lemma AllPassedTiles(rs: Round)
    requires Stocked(rs) && MeldsOk(rs.melds) && OfferedTileOk(rs) && rs.pendingDraw == NO_TILE
    ensures SameAmount(rs, AllPassed(rs).rs)
    ensures AllPassed(rs).ok <==> !Robbed(rs)
  {
    if rs.qiangGang {
      var seat: Seat := rs.pendingGangSeat;
      var t := rs.pendingGangTile;
      var r1 := ClearClaimWindow(rs);
      assert SameAmount(rs, r1);
      if t in rs.hands[seat] {
        CompleteBuGangTiles(r1, seat, t);
        var r2 := CompleteBuGang(r1, seat, t).rs.(turn := seat);
        assert SameAmount(rs, r2);
        SameAmountStocked(rs, r2);
        FinishGangTiles(r2, seat);
      }
    } else {
      var r1 := CloseOpeningClaim(ClearClaimWindow(rs));
      assert SameAmount(rs, r1);
      SameAmountStocked(rs, r1);
      DrawTiles(r1);
    }
  }

  /** When a pass is accepted: in a claim window by a top candidate, or by the seat that drew. */
  predicate MayPass(rs: Round, seat: int) {
    0 <= seat < 4 && if rs.phase == ClaimPhase then IsTop(rs, seat) else seat == rs.turn && rs.phase == TsumoPhase
  }

  /**
   * A pass that its guard allows is refused exactly when it is the last pass on a robbed kong; then
   * the tile that should complete the kong is gone.
   */
  lemma PassTiles(rs: Round, seat: int)
    requires Inv(rs)
    ensures SameAmount(rs, ApplyPass(rs, seat).rs)
    ensures ApplyPass(rs, seat).ok <==> MayPass(rs, seat) && !DeadPass(rs, seat)
  {
    if MayPass(rs, seat) {
      if rs.phase == ClaimPhase {
        var r1 := rs.(candidates := RemoveCandidate(rs.candidates, seat));
        assert SameAmount(rs, r1);
        SameAmountStocked(rs, r1);
        AllPassedTiles(r1);
      } else {
        TakePendingTiles(rs, seat);
      }
    }
  }

  // ---------- opening ----------

  lemma RemoveSelection(h: seq<Tile>, ts: seq<Tile>, t: Tile)
    requires Within(ts, h)
    ensures Num(RemoveAll(h, ts), t) == Num(h, t) - Num(ts, t)
  {
    RemoveAllTakes(h, ts);
    RemoveEachTakes(h, ts);
  }

  /** One hand after the exchange: what it kept and what it was given. */
  lemma ExchangedHand(hands: Piles, sel: Piles, offset: nat, s: Seat, t: Tile)
    requires Within(sel[s], hands[s])
    ensures Num(Swapped(hands, sel, offset, s), t)
            == Num(hands[s], t) - Num(sel[s], t) + Num(sel[GiverOf(s, offset)], t)
    ensures |Swapped(hands, sel, offset, s)| == |hands[s]| - |sel[s]| + |sel[GiverOf(s, offset)]|
  {
    RemoveSelection(hands[s], sel[s], t);
    RemoveAllTakes(hands[s], sel[s]);
    RemoveEachTakes(hands[s], sel[s]);
    NumConcat(RemoveAll(hands[s], sel[s]), sel[GiverOf(s, offset)], t);
  }

  lemma NumAllFour(p: Piles, t: Tile)
    ensures NumAll(p, t) == Num(p[0], t) + Num(p[1], t) + Num(p[2], t) + Num(p[3], t)
  {
    assert p[1..][1..] == p[2..] && p[2..][1..] == p[3..] && p[3..][1..] == [];
    assert NumAll(p[3..], t) == Num(p[3], t);
    assert NumAll(p[2..], t) == Num(p[2], t) + NumAll(p[3..], t);
    assert NumAll(p[1..], t) == Num(p[1], t) + NumAll(p[2..], t);
  }

  lemma {:induction false} NothingLaid(p: seq<seq<Meld>>, t: Tile)
    requires forall i :: 0 <= i < |p| ==> p[i] == []
    ensures NumTable(p, t) == 0
  {
    if p != [] { NothingLaid(p[1..], t); }
  }

  /** The four givers are the four seats. */
  lemma GiversAreAll(offset: nat)
    requires 1 <= offset <= 3
    ensures offset == 1 ==> GiverOf(0, offset) == 1 && GiverOf(1, offset) == 2 && GiverOf(2, offset) == 3 && GiverOf(3, offset) == 0
    ensures offset == 2 ==> GiverOf(0, offset) == 2 && GiverOf(1, offset) == 3 && GiverOf(2, offset) == 0 && GiverOf(3, offset) == 1
    ensures offset == 3 ==> GiverOf(0, offset) == 3 && GiverOf(1, offset) == 0 && GiverOf(2, offset) == 1 && GiverOf(3, offset) == 2
  {
  }

  lemma Rotation(sel: Piles, g0: Seat, g1: Seat, g2: Seat, g3: Seat, t: Tile)
    requires (g0 == 1 && g1 == 2 && g2 == 3 && g3 == 0) || (g0 == 2 && g1 == 3 && g2 == 0 && g3 == 1)
          || (g0 == 3 && g1 == 0 && g2 == 1 && g3 == 2)
    ensures Num(sel[g0], t) + Num(sel[g1], t) + Num(sel[g2], t) + Num(sel[g3], t) == NumAll(sel, t)
  {
    NumAllFour(sel, t);
  }

  lemma SwappedCount(hands: Piles, sel: Piles, offset: nat, s: Seat, g: Seat, t: Tile)
    requires Within(sel[s], hands[s]) && g == GiverOf(s, offset)
    ensures Num(Swapped(hands, sel, offset, s), t) == Num(hands[s], t) - Num(sel[s], t) + Num(sel[g], t)
    ensures |Swapped(hands, sel, offset, s)| == |hands[s]| - |sel[s]| + |sel[g]|
  {
    ExchangedHand(hands, sel, offset, s, t);
  }

  lemma ExchangeHandsCount(hands: Piles, sel: Piles, offset: nat, t: Tile)
    requires 1 <= offset <= 3
    requires Within(sel[0], hands[0]) && Within(sel[1], hands[1]) && Within(sel[2], hands[2]) && Within(sel[3], hands[3])
    ensures NumAll(ExchangeHands(hands, sel, offset), t) == NumAll(hands, t)
  {
    GiversAreAll(offset);
    var g0, g1, g2, g3 := GiverOf(0, offset), GiverOf(1, offset), GiverOf(2, offset), GiverOf(3, offset);
    SwappedCount(hands, sel, offset, 0, g0, t);
    SwappedCount(hands, sel, offset, 1, g1, t);
    SwappedCount(hands, sel, offset, 2, g2, t);
    SwappedCount(hands, sel, offset, 3, g3, t);
    Rotation(sel, g0, g1, g2, g3, t);
    NumAllFour(sel, t);
    NumAllFour(hands, t);
    FourSwapped(hands, sel, offset, t);
  }

  lemma FourSwapped(hands: Piles, sel: Piles, offset: nat, t: Tile)
    ensures NumAll(ExchangeHands(hands, sel, offset), t) ==
      Num(Swapped(hands, sel, offset, 0), t) + Num(Swapped(hands, sel, offset, 1), t)
      + Num(Swapped(hands, sel, offset, 2), t) + Num(Swapped(hands, sel, offset, 3), t)
  {
    NumAllFour(ExchangeHands(hands, sel, offset), t);
  }

  /** Whatever the direction, the exchange only moves tiles between hands. */
  lemma ExchangeTiles(rs: Round)
    requires forall s: Seat :: SelectionOk(rs, s)
    ensures SameAmount(rs, Exchange(rs))
  {
    assert SelectionOk(rs, 0) && SelectionOk(rs, 1) && SelectionOk(rs, 2) && SelectionOk(rs, 3);
    forall t: Tile ensures Amount(rs, t) == Amount(Exchange(rs), t) {
      ExchangeHandsCount(rs.hands, rs.opening.selections, Offset(rs.opening.direction), t);
    }
  }

  lemma NotedIsOk(rs: Round, seat: Seat, own: seq<Tile>, direction: int)
    requires (forall s: Seat :: SelectionOk(rs, s)) && Within(own, rs.hands[seat])
    ensures forall s: Seat :: SelectionOk(rs.(opening := NoteSelection(rs.opening, seat, own, direction), phase := OpeningPhase), s)
  {
    forall s: Seat
      ensures SelectionOk(rs.(opening := NoteSelection(rs.opening, seat, own, direction), phase := OpeningPhase), s)
    {
      assert SelectionOk(rs, s);
    }
  }

  lemma ExchangeStepTiles(rs: Round, seat: Seat, ts: seq<Tile>, wanted: int, surrender: bool)
    requires forall s: Seat :: SelectionOk(rs, s)
    ensures SameAmount(rs, ApplyExchange(rs, seat, ts, wanted, surrender).rs)
  {
    if !(rs.opening.exchangeDone[seat] || (!surrender && !GoodSelection(rs.hands[seat], ts))) {
      var own := if surrender then [] else ts;
      RemoveEachTakes(rs.hands[seat], own);
      NotedIsOk(rs, seat, own, Direction(rs, wanted));
      var r1 := rs.(opening := NoteSelection(rs.opening, seat, own, Direction(rs, wanted)), phase := OpeningPhase);
      assert SameAmount(rs, r1);
      ExchangeTiles(r1);
    }
  }

  lemma MissingStepTiles(rs: Round, seat: Seat, suit: int, surrender: bool)
    requires Stocked(rs) && rs.pendingDraw == NO_TILE
    ensures SameAmount(rs, ApplyMissing(rs, seat, suit, surrender).rs)
    ensures ApplyMissing(rs, seat, suit, surrender).ok <==> !rs.opening.missingDone[seat]
  {
    var r1 := NoteMissing(rs, seat, suit, surrender).(phase := Idle);
    assert SameTable(rs, r1) && SameAmount(rs, r1);
    SameAmountStocked(rs, r1);
    DrawTiles(r1);
  }

  lemma OpeningTiles(rs: Round, seat: int, step: OpeningStep, ts: seq<Tile>, wanted: int, suit: int, surrender: bool)
    requires Inv(rs)
    ensures SameAmount(rs, ApplyOpening(rs, seat, step, ts, wanted, suit, surrender).rs)
  {
    if rs.closed || step == OpeningOver || CurrentStep(rs) != step || seat < 0 || seat > 3 {
    } else if step == ExchangeStep {
      ExchangeStepTiles(rs, seat, ts, wanted, surrender);
    } else {
      MissingStepTiles(rs, seat, suit, surrender);
    }
  }

  // ---------- timeouts ----------

  function LostToTimeout(rs: Round, t: Tile): nat {
    if rs.phase == TsumoPhase then NumPending(rs.pendingDraw, t) else 0
  }

  lemma SurrenderTurnTiles(rs: Round)
    requires Inv(rs) && (rs.phase == TsumoPhase || rs.phase == DiscardPhase)
    ensures SurrenderTurn(rs).ok
    ensures forall t: Tile :: Amount(rs, t) == Amount(SurrenderTurn(rs).rs, t) + LostToTimeout(rs, t)
  {
    var r1 := CloseOpeningClaim(ClearClaimWindow(MarkSurrendered(rs, rs.turn).(pendingDraw := NO_TILE, currentDraw := NO_TILE)));
    var r2 := r1.(turn := NextActive(r1, rs.turn), phase := Idle);
    assert SameAmount(r1, r2);
    assert forall t: Tile :: Amount(rs, t) == Amount(r1, t) + LostToTimeout(rs, t);
    forall t: Tile ensures Amount(r1, t) <= Supply(t) {
      assert Amount(rs, t) <= Supply(t);
    }
    SameAmountStocked(r1, r2);
    DrawTiles(r2);
    if ActiveCount(r1) <= 1 || ShouldFinish(r1) {
      assert SameAmount(r1, FinishRound(r1));
    }
  }

  lemma {:induction false} TopIsThere(cs: seq<Candidate>)
    requires cs != []
    ensures forall i :: 0 <= i < |cs| ==> cs[i].priority <= TopPriority(cs)
    ensures Best(cs).priority == TopPriority(cs) && Best(cs) in cs
  {
    if |cs| > 1 {
      TopIsThere(cs[1..]);
      forall i | 0 <= i < |cs| ensures cs[i].priority <= TopPriority(cs) {
        if i > 0 { assert cs[1..][i - 1] == cs[i]; }
      }
    }
  }

  lemma MarkKeepsInv(rs: Round, seat: Seat)
    requires Inv(rs)
    ensures Inv(MarkSurrendered(rs, seat)) && SameAmount(rs, MarkSurrendered(rs, seat))
  {
    var r1 := MarkSurrendered(rs, seat);
    assert SameAmount(rs, r1);
    SameAmountStocked(rs, r1);
    forall i | 0 <= i < |r1.candidates| && r1.phase == ClaimPhase ensures CandidateOk(r1, r1.candidates[i]) {
      assert CandidateOk(rs, rs.candidates[i]);
    }
    forall s: Seat | r1.phase == OpeningPhase ensures SelectionOk(r1, s) {
      assert SelectionOk(rs, s);
    }
  }

  lemma TimeoutTiles(rs: Round)
    requires Inv(rs)
    ensures forall t: Tile :: Amount(rs, t) == Amount(ApplyTimeout(rs).rs, t) + LostToTimeout(rs, t)
  {
    if rs.phase == OpeningPhase {
      var seat := FirstWaiting(Submitted(rs), rs.surrendered);
      if seat < 4 {
        MarkKeepsInv(rs, seat);
        OpeningTiles(MarkSurrendered(rs, seat), seat, CurrentStep(rs), [], 0, 0, true);
      }
    } else if rs.phase == ClaimPhase {
      var seat := Best(rs.candidates).seat;
      MarkKeepsInv(rs, seat);
      PassTiles(MarkSurrendered(rs, seat), seat);
    } else if rs.phase == TsumoPhase || rs.phase == DiscardPhase {
      SurrenderTurnTiles(rs);
    }
  }

  // ---------- one step ----------

  /** What a step takes off the table: a self-drawn or robbed winning tile, or a draw timed out on. */
  ghost function Lost(rs: Round, a: Action, t: Tile): nat {
    match a
    case DoHu(seat) => if CanHu(rs, seat) then LostTo(rs, seat, t) else 0
    case DoTimeout => LostToTimeout(rs, t)
    case _ => 0
  }

  lemma HuStep(rs: Round, a: Action, fan: nat, o: Outcome)
    requires a.DoHu? && fan == WinFan(rs, a.seat) && o == ApplyHu(rs, a.seat, fan)
    ensures Step(rs, a) == o
  {
  }

  lemma OpeningStepTiles(rs: Round, a: Action)
    requires Inv(rs) && (a.DoExchange? || a.DoMissing?)
    ensures SameAmount(rs, Step(rs, a).rs)
  {
    match a
    case DoExchange(seat, ts, wanted) => OpeningTiles(rs, seat, ExchangeStep, ts, wanted, 0, false);
    case DoMissing(seat, suit) => OpeningTiles(rs, seat, MissingStep, [], 0, suit, false);
  }

  lemma WinStepTiles(rs: Round, a: Action)
    requires Inv(rs) && a.DoHu?
    ensures forall t: Tile :: Amount(rs, t) == Amount(Step(rs, a).rs, t) + Lost(rs, a, t)
  {
    if CanHu(rs, a.seat) { HuTiles(rs, a.seat, WinFan(rs, a.seat)); }
  }

  /** Every operation, accepted or refused, keeps every tile except the ones it puts out of play. */
  lemma StepTiles(rs: Round, a: Action)
    requires Inv(rs)
    ensures forall t: Tile :: Amount(rs, t) == Amount(Step(rs, a).rs, t) + Lost(rs, a, t)
  {
    match a
    case DoExchange(seat, ts, wanted) => OpeningStepTiles(rs, a);
    case DoMissing(seat, suit) => OpeningStepTiles(rs, a);
    case DoDiscard(seat, t) => DiscardTiles(rs, seat, t);
    case DoPong(seat) => if CanClaimPong(rs, seat) { PongTiles(rs, seat); }
    case DoChi(seat, named) => NoChiClaim(rs, seat);
    case DoGang(seat, t) => GangTiles(rs, seat, t);
    case DoHu(seat) => WinStepTiles(rs, a);
    case DoPass(seat) => PassTiles(rs, seat);
    case DoTimeout => TimeoutTiles(rs);
    case SeatLeaves(seat) => MarkKeepsInv(rs, seat);
  }
}
