/** The order of the tiles in a hand decides nothing: states that differ only in it behave alike for ever. */
module HandOrder {
  import opened Tiles
  import opened SichuanWin
  import opened SichuanScore
  import opened Rounds
  import opened RoundInv
  import opened RoundTiles
  import opened RoundCoherence
  import opened RoundProgress

  ghost predicate SameHands(g: Piles, h: Piles) { forall s: Seat :: SameTiles(g[s], h[s]) }

  /** The same state up to the order of the tiles in the hands. */
  ghost predicate Alike(a: Round, b: Round) { b == a.(hands := b.hands) && SameHands(a.hands, b.hands) }

  ghost predicate AlikeOutcomes(x: Outcome, y: Outcome) { x.ok == y.ok && Alike(x.rs, y.rs) }

  // ---------- hands ----------

  lemma SetHand(g: Piles, h: Piles, s: Seat, x: seq<Tile>, y: seq<Tile>)
    requires SameHands(g, h) && SameTiles(x, y)
    ensures SameHands(g[s := x], h[s := y])
  {
  }

  lemma RemoveEachSame(g: seq<Tile>, h: seq<Tile>, ts: seq<Tile>)
    requires SameTiles(g, h) && Within(ts, g)
    ensures RemoveEach(g, ts).1 && RemoveEach(h, ts).1 && SameTiles(RemoveEach(g, ts).0, RemoveEach(h, ts).0)
  {
    RemoveEachTakes(g, ts);
    RemoveEachTakes(h, ts);
  }

  lemma AppendSame(g: seq<Tile>, h: seq<Tile>, x: seq<Tile>)
    requires SameTiles(g, h)
    ensures SameTiles(g + x, h + x)
  {
    forall t: Tile ensures Num(g + x, t) == Num(h + x, t) {
      NumConcat(g, x, t);
      NumConcat(h, x, t);
    }
  }

  lemma HandsCount(g: Piles, h: Piles, t: Tile)
    requires SameHands(g, h)
    ensures NumAll(g, t) == NumAll(h, t)
  {
    NumAllFour(g, t);
    NumAllFour(h, t);
    assert Num(g[0], t) == Num(h[0], t) && Num(g[1], t) == Num(h[1], t);
    assert Num(g[2], t) == Num(h[2], t) && Num(g[3], t) == Num(h[3], t);
  }

  lemma AlikeAmount(a: Round, b: Round)
    requires Alike(a, b)
    ensures SameAmount(a, b)
  {
    forall t: Tile ensures Amount(a, t) == Amount(b, t) { HandsCount(a.hands, b.hands, t); }
  }

  lemma AlikeInv(a: Round, b: Round)
    requires Alike(a, b) && Inv(a)
    ensures Inv(b)
  {
    AlikeAmount(a, b);
    SameAmountStocked(a, b);
    forall i | 0 <= i < |b.candidates| && b.phase == ClaimPhase ensures CandidateOk(b, b.candidates[i]) {
      assert CandidateOk(a, a.candidates[i]);
      assert Num(a.hands[b.candidates[i].seat], a.lastDiscard) == Num(b.hands[b.candidates[i].seat], a.lastDiscard);
    }
    forall s: Seat | b.phase == OpeningPhase ensures SelectionOk(b, s) {
      assert SelectionOk(a, s) && SameTiles(a.hands[s], b.hands[s]);
    }
  }

  // ---------- questions ----------

  lemma SeatsSame(a: Round, b: Round)
    requires a.wins == b.wins && a.surrendered == b.surrendered
    ensures ActiveSeats(a) == ActiveSeats(b) && forall s: Seat :: NextActive(a, s) == NextActive(b, s)
  {
    forall s: Seat ensures Active(a, s) == Active(b, s) && HasWon(a, s) == HasWon(b, s) {
    }
  }

  lemma CheckSame(a: Round, b: Round, seat: int, t: Tile)
    requires Alike(a, b)
    ensures CheckSeatHu(a, seat, t) == CheckSeatHu(b, seat, t)
  {
    if 0 <= seat < 4 {
      CheckHuSameBag(a.hands[seat], b.hands[seat], t, MissingSuit(a, seat), a.melds[seat]);
    }
  }

  lemma OfferToSame(a: Round, b: Round, offset: nat, seat: Seat)
    requires Alike(a, b) && 1 <= offset <= 3 && 0 <= a.lastDiscardSeat && seat == (a.lastDiscardSeat + offset) % 4
    requires CheckHu(a.hands[seat], a.lastDiscard, MissingSuit(a, seat), a.melds[seat])
         <==> CheckHu(b.hands[seat], b.lastDiscard, MissingSuit(b, seat), b.melds[seat])
    requires Num(a.hands[seat], a.lastDiscard) == Num(b.hands[seat], b.lastDiscard) && HasWon(a, seat) == HasWon(b, seat)
    ensures Offer(a, offset) == Offer(b, offset)
  {
  }

  lemma OfferSame(a: Round, b: Round, offset: nat)
    requires Alike(a, b) && 1 <= offset <= 3
    ensures Offer(a, offset) == Offer(b, offset)
  {
    if a.lastDiscardSeat >= 0 {
      var seat: Seat := (a.lastDiscardSeat + offset) % 4;
      CheckHuSameBag(a.hands[seat], b.hands[seat], a.lastDiscard, MissingSuit(a, seat), a.melds[seat]);
      assert Num(a.hands[seat], a.lastDiscard) == Num(b.hands[seat], a.lastDiscard);
      OfferToSame(a, b, offset, seat);
    }
  }

  lemma {:induction false} OffersSame(a: Round, b: Round, offset: nat)
    requires Alike(a, b) && offset >= 1
    ensures OffersFrom(a, offset) == OffersFrom(b, offset)
    decreases 4 - offset
  {
    if offset <= 3 {
      OfferSame(a, b, offset);
      OffersSame(a, b, offset + 1);
    }
  }

  // ---------- drawing ----------

  lemma DrawForm(rs: Round)
    requires Stocked(rs) && !ShouldFinish(rs)
    ensures var r1, t := rs.(wall := rs.wall[1..]), rs.wall[0];
            DrawForCurrentTurn(rs) == Outcome(if CheckSeatHu(r1, rs.turn, t) then OfferTsumo(r1, t) else KeepDraw(r1, t), true)
  {
    DrawTakesFirst(rs, rs.turn);
  }

  lemma KeepSame(a: Round, b: Round, t: Tile)
    requires Alike(a, b)
    ensures Alike(OfferTsumo(a, t), OfferTsumo(b, t)) && Alike(KeepDraw(a, t), KeepDraw(b, t))
  {
    AppendSame(a.hands[a.turn], b.hands[a.turn], [t]);
    SetHand(a.hands, b.hands, a.turn, a.hands[a.turn] + [t], b.hands[a.turn] + [t]);
  }

  lemma DrawOnSame(a: Round, b: Round)
    requires Alike(a, b) && Stocked(a) && Stocked(b) && !ShouldFinish(a) && !ShouldFinish(b)
    ensures AlikeOutcomes(DrawForCurrentTurn(a), DrawForCurrentTurn(b))
  {
    var t, a1, b1 := a.wall[0], a.(wall := a.wall[1..]), b.(wall := b.wall[1..]);
    assert Alike(a1, b1);
    CheckSame(a1, b1, a1.turn, t);
    KeepSame(a1, b1, t);
    DrawForm(a);
    DrawForm(b);
  }

  lemma DrawSame(a: Round, b: Round)
    requires Alike(a, b) && Stocked(a)
    ensures AlikeOutcomes(DrawForCurrentTurn(a), DrawForCurrentTurn(b))
  {
    if ShouldFinish(a) {
      assert Alike(FinishRound(a), FinishRound(b));
    } else {
      AlikeAmount(a, b);
      SameAmountStocked(a, b);
      DrawOnSame(a, b);
    }
  }

  /** The draw after something that left the tiles where they are. */
  lemma RestedDrawSame(a: Round, b: Round, from: Round)
    requires Alike(a, b) && Stocked(from) && SameTable(from, a) && a.pendingDraw == from.pendingDraw
    ensures AlikeOutcomes(DrawForCurrentTurn(a), DrawForCurrentTurn(b))
  {
    forall t: Tile ensures Amount(a, t) <= Supply(t) { assert Amount(from, t) <= Supply(t); }
    DrawSame(a, b);
  }

  lemma FinishGangSame(a: Round, b: Round, seat: Seat)
    requires Alike(a, b) && Stocked(a)
    ensures AlikeOutcomes(FinishGang(a, seat), FinishGang(b, seat))
  {
    var a1, b1 := ToDraw(a, seat), ToDraw(b, seat);
    assert SameTable(a, a1);
    forall t: Tile ensures Amount(a1, t) <= Supply(t) { assert Amount(a, t) <= Supply(t); }
    assert Alike(a1, b1);
    DrawSame(a1, b1);
    assert FinishGang(a, seat) == DrawForCurrentTurn(a1) && FinishGang(b, seat) == DrawForCurrentTurn(b1);
  }

  // ---------- claims ----------

  lemma MeldedSame(a: Round, b: Round, seat: Seat, own: seq<Tile>, m: Meld)
    requires Alike(a, b) && Within(own, a.hands[seat])
    ensures Alike(Melded(a, seat, own, m), Melded(b, seat, own, m))
  {
    RemoveEachSame(a.hands[seat], b.hands[seat], own);
    SetHand(a.hands, b.hands, seat, RemoveEach(a.hands[seat], own).0, RemoveEach(b.hands[seat], own).0);
  }

  lemma ScoreGangSame(a: Round, b: Round, seat: Seat, t: Tile, reason: Reason, source: SeatOrNone)
    requires Alike(a, b)
    ensures Alike(ScoreGang(a, seat, t, reason, source), ScoreGang(b, seat, t, reason, source))
  {
    SeatsSame(a, b);
  }

  lemma PongSame(a: Round, b: Round, seat: int)
    requires Alike(a, b) && Inv(a) && Inv(b) && CanClaimPong(a, seat)
    ensures AlikeOutcomes(ApplyPong(a, seat), ApplyPong(b, seat))
  {
    assert CanClaimPong(b, seat);
    PongForm(a, seat);
    PongForm(b, seat);
    var t := a.lastDiscard;
    MeldedSame(a, b, seat, [t, t], Meld(Pong, [t, t, t], a.lastDiscardSeat));
  }

  lemma ClaimGangSame(a: Round, b: Round, seat: int)
    requires Alike(a, b) && Inv(a) && Inv(b) && CanClaimGang(a, seat) && CanClaimGang(b, seat)
    ensures AlikeOutcomes(ClaimGang(a, seat), ClaimGang(b, seat))
  {
    ClaimGangForm(a, seat);
    ClaimGangForm(b, seat);
    var t, from := a.lastDiscard, a.lastDiscardSeat;
    var m := Meld(ZhiGang, [t, t, t, t], from);
    MeldedSame(a, b, seat, [t, t, t], m);
    ScoreGangSame(Melded(a, seat, [t, t, t], m).(lastDiscard := NO_TILE, lastDiscardSeat := NO_SEAT),
                  Melded(b, seat, [t, t, t], m).(lastDiscard := NO_TILE, lastDiscardSeat := NO_SEAT), seat, t, GangMing, from);
    SameAmountStocked(a, KongScored(a, seat, t, from));
    FinishGangSame(KongScored(a, seat, t, from), KongScored(b, seat, t, from), seat);
  }

  lemma CompleteSame(a: Round, b: Round, seat: Seat, t: Tile)
    requires Alike(a, b) && MeldsOk(a.melds) && HasFullPong(a.melds[seat], t) && t in a.hands[seat]
    ensures AlikeOutcomes(CompleteBuGang(a, seat, t), CompleteBuGang(b, seat, t))
  {
    RemoveSame(a.hands[seat], b.hands[seat], t);
    BuGangForm(a, seat, t);
    BuGangForm(b, seat, t);
    SetHand(a.hands, b.hands, seat, RemoveOne(a.hands[seat], t), RemoveOne(b.hands[seat], t));
    ScoreGangSame(BuGangDone(a, seat, t), BuGangDone(b, seat, t), seat, t, GangBu, NO_SEAT);
  }

  /** Completing the kong and drawing its replacement. */
  lemma BuGangEndSame(a: Round, b: Round, seat: Seat, t: Tile)
    requires Alike(a, b) && Stocked(a) && MeldsOk(a.melds) && HasFullPong(a.melds[seat], t) && t in a.hands[seat]
    ensures AlikeOutcomes(FinishGang(CompleteBuGang(a, seat, t).rs, seat), FinishGang(CompleteBuGang(b, seat, t).rs, seat))
    ensures AlikeOutcomes(FinishGang(CompleteBuGang(a, seat, t).rs.(turn := seat), seat),
                          FinishGang(CompleteBuGang(b, seat, t).rs.(turn := seat), seat))
  {
    CompleteSame(a, b, seat, t);
    CompleteBuGangTiles(a, seat, t);
    var a1, b1 := CompleteBuGang(a, seat, t).rs, CompleteBuGang(b, seat, t).rs;
    SameAmountStocked(a, a1);
    FinishGangSame(a1, b1, seat);
    assert ToDraw(a1, seat) == ToDraw(a1.(turn := seat), seat) && ToDraw(b1, seat) == ToDraw(b1.(turn := seat), seat);
    assert FinishGang(a1, seat) == FinishGang(a1.(turn := seat), seat);
    assert FinishGang(b1, seat) == FinishGang(b1.(turn := seat), seat);
  }

  lemma OfferBuGangSame(a: Round, b: Round, seat: Seat, t: Tile)
    requires Alike(a, b)
    ensures Alike(OfferBuGang(a, seat, t), OfferBuGang(b, seat, t))
  {
    var a0 := a.(lastDiscard := t, lastDiscardSeat := seat, pendingGangSeat := seat, pendingGangTile := t, qiangGang := true);
    var b0 := a0.(hands := b.hands);
    OffersSame(a0, b0, 1);
    assert OfferBuGang(b, seat, t).candidates == OfferBuGang(a, seat, t).candidates;
  }

  lemma BuGangSame(a: Round, b: Round, seat: int, t: Tile)
    requires Alike(a, b) && Inv(a) && CanBuGang(a, seat, t)
    ensures AlikeOutcomes(BuGangBy(a, seat, t), BuGangBy(b, seat, t))
  {
    OfferBuGangSame(a, b, seat, t);
    var a1, b1 := OfferBuGang(a, seat, t), OfferBuGang(b, seat, t);
    if a1.candidates == [] {
      var a2, b2 := ClearClaimWindow(a1), ClearClaimWindow(b1);
      assert Alike(a2, b2);
      BuGangRests(a, seat, t);
      CompleteSame(a2, b2, seat, t);
      CompleteBuGangTiles(a2, seat, t);
      BuGangEndSame(a2, b2, seat, t);
    }
  }

  lemma AnGangSame(a: Round, b: Round, seat: int, t: Tile)
    requires Alike(a, b) && Inv(a) && Inv(b) && CanAnGang(a, seat, t) && CanAnGang(b, seat, t)
    ensures AlikeOutcomes(AnGangBy(a, seat, t), AnGangBy(b, seat, t))
  {
    AnGangForm(a, seat, t);
    AnGangForm(b, seat, t);
    var own := [t, t, t, t];
    RemoveEachSame(a.hands[seat], b.hands[seat], own);
    SetHand(a.hands, b.hands, seat, RemoveEach(a.hands[seat], own).0, RemoveEach(b.hands[seat], own).0);
    SeatsSame(a, b);
    AnGangAlike(a, b, seat, t);
    SameAmountStocked(a, AnGangScored(a, seat, t));
    FinishGangSame(AnGangScored(a, seat, t), AnGangScored(b, seat, t), seat);
  }

  lemma AnGangAlike(a: Round, b: Round, seat: Seat, t: Tile)
    requires Alike(a, b)
    requires SameHands(a.hands[seat := RemoveEach(a.hands[seat], [t, t, t, t]).0], b.hands[seat := RemoveEach(b.hands[seat], [t, t, t, t]).0])
    ensures Alike(AnGangScored(a, seat, t), AnGangScored(b, seat, t))
  {
    var x := a.hands[seat := RemoveEach(a.hands[seat], [t, t, t, t]).0];
    var y := b.hands[seat := RemoveEach(b.hands[seat], [t, t, t, t]).0];
    var m := Meld(AnGang, [t, t, t, t], NO_SEAT);
    ScoreGangSame(RecordMeld(ClearClaimWindow(a).(hands := x), seat, m), RecordMeld(ClearClaimWindow(b).(hands := y), seat, m),
                  seat, t, GangAn, NO_SEAT);
  }

  lemma GuardsSame(a: Round, b: Round, seat: int, t: Tile)
    requires Alike(a, b)
    ensures CanClaimGang(a, seat) == CanClaimGang(b, seat)
    ensures CanBuGang(a, seat, t) == CanBuGang(b, seat, t) && CanAnGang(a, seat, t) == CanAnGang(b, seat, t)
  {
    if 0 <= seat < 4 { RemoveSame(a.hands[seat], b.hands[seat], t); }
  }

  lemma GangSame(a: Round, b: Round, seat: int, t: Tile)
    requires Alike(a, b) && Inv(a) && Inv(b)
    ensures AlikeOutcomes(ApplyGang(a, seat, t), ApplyGang(b, seat, t))
  {
    GuardsSame(a, b, seat, t);
    if CanClaimGang(a, seat) { ClaimGangSame(a, b, seat); }
    else if CanBuGang(a, seat, t) { BuGangSame(a, b, seat, t); }
    else if CanAnGang(a, seat, t) { AnGangSame(a, b, seat, t); }
  }

  // ---------- discarding ----------

  lemma ExposedSame(a: Round, b: Round, seat: Seat, t: Tile)
    requires Alike(a, b)
    ensures Alike(OpenClaimWindow(Exposed(a, seat, t)), OpenClaimWindow(Exposed(b, seat, t)))
  {
    SeatsSame(a, b);
    var a1, b1 := Exposed(a, seat, t), Exposed(b, seat, t);
    assert Alike(a1, b1);
    OffersSame(a1, b1, 1);
  }

  lemma ClosedWindowSame(a: Round, b: Round)
    requires Alike(a, b)
    ensures Alike(CloseOpeningClaim(ClearClaimWindow(a)), CloseOpeningClaim(ClearClaimWindow(b)))
  {
  }

  lemma UnclaimedSame(a: Round, b: Round, seat: Seat, t: Tile)
    requires Alike(a, b) && Stocked(a) && !ShouldFinish(a) && OpenClaimWindow(Exposed(a, seat, t)).candidates == []
    ensures AlikeOutcomes(AfterDiscard(a, seat, t), AfterDiscard(b, seat, t))
  {
    ExposedSame(a, b, seat, t);
    var a2, b2 := OpenClaimWindow(Exposed(a, seat, t)), OpenClaimWindow(Exposed(b, seat, t));
    ClosedWindowSame(a2, b2);
    RestedDrawSame(CloseOpeningClaim(ClearClaimWindow(a2)), CloseOpeningClaim(ClearClaimWindow(b2)), a);
  }

  lemma ClaimedSame(a: Round, b: Round, seat: Seat, t: Tile)
    requires Alike(a, b) && !ShouldFinish(a) && OpenClaimWindow(Exposed(a, seat, t)).candidates != []
    ensures AlikeOutcomes(AfterDiscard(a, seat, t), AfterDiscard(b, seat, t))
  {
    ExposedSame(a, b, seat, t);
  }

  lemma FinishedSame(a: Round, b: Round, seat: Seat, t: Tile)
    requires Alike(a, b) && ShouldFinish(a)
    ensures AlikeOutcomes(AfterDiscard(a, seat, t), AfterDiscard(b, seat, t))
  {
    assert Alike(FinishRound(a), FinishRound(b));
  }

  lemma AfterDiscardSame(a: Round, b: Round, seat: Seat, t: Tile)
    requires Alike(a, b) && Stocked(a)
    ensures AlikeOutcomes(AfterDiscard(a, seat, t), AfterDiscard(b, seat, t))
  {
    if ShouldFinish(a) {
      FinishedSame(a, b, seat, t);
    } else if OpenClaimWindow(Exposed(a, seat, t)).candidates != [] {
      ClaimedSame(a, b, seat, t);
    } else {
      UnclaimedSame(a, b, seat, t);
    }
  }

  lemma TakePendingSame(a: Round, b: Round, seat: Seat)
    requires Alike(a, b)
    ensures Alike(TakePendingDraw(a, seat), TakePendingDraw(b, seat))
  {
    var t := a.pendingDraw;
    AppendSame(a.hands[seat], b.hands[seat], [t]);
    SetHand(a.hands, b.hands, seat, a.hands[seat] + [t], b.hands[seat] + [t]);
  }

  lemma LaySame(a: Round, b: Round, seat: Seat, t: Tile)
    requires Alike(a, b)
    ensures Alike(LayDiscard(a, seat, t), LayDiscard(b, seat, t)) && (t in a.hands[seat] <==> t in b.hands[seat])
  {
    RemoveSame(a.hands[seat], b.hands[seat], t);
    SetHand(a.hands, b.hands, seat, RemoveOne(a.hands[seat], t), RemoveOne(b.hands[seat], t));
  }

  lemma DiscardSame(a: Round, b: Round, seat: int, t: Tile)
    requires Alike(a, b) && Inv(a)
    ensures AlikeOutcomes(ApplyDiscard(a, seat, t), ApplyDiscard(b, seat, t))
  {
    if !(a.closed || seat != a.turn || t == NO_TILE) {
      TakePendingSame(a, b, seat);
      var a1 := if a.phase == TsumoPhase then TakePendingDraw(a, seat) else a;
      var b1 := if b.phase == TsumoPhase then TakePendingDraw(b, seat) else b;
      if a.phase == TsumoPhase { TakePendingTiles(a, seat); }
      assert SameAmount(a, a1);
      LaySame(a1, b1, seat, t);
      if a1.phase == DiscardPhase && t in a1.hands[seat] {
        LayDiscardTiles(a1, seat, t);
        SameAmountStocked(a, a1);
        SameAmountStocked(a1, LayDiscard(a1, seat, t));
        AfterDiscardSame(LayDiscard(a1, seat, t), LayDiscard(b1, seat, t), seat, t);
      }
    }
  }

  // ---------- winning ----------

  lemma RobbedSame(a: Round, b: Round)
    requires Alike(a, b)
    ensures SameHands(RobbedHands(a), RobbedHands(b)) && (Robbed(a) == Robbed(b))
  {
    if a.pendingGangSeat >= 0 {
      var g: Seat, t := a.pendingGangSeat, a.pendingGangTile;
      RemoveSame(a.hands[g], b.hands[g], t);
      SetHand(a.hands, b.hands, g, RemoveOne(a.hands[g], t), RemoveOne(b.hands[g], t));
    }
  }

  lemma ScoreWinSame(a: Round, b: Round, seat: Seat, fan: nat, source: HuSource, payer: SeatOrNone)
    requires Alike(a, b)
    ensures ScoreWin(a, seat, fan, source, payer) == ScoreWin(b, seat, fan, source, payer)
  {
    SeatsSame(a, b);
  }

  lemma RecordHuSame(a: Round, b: Round, seat: Seat, fan: nat)
    requires Alike(a, b)
    ensures Alike(RecordHu(a, seat, fan), RecordHu(b, seat, fan))
  {
    RobbedSame(a, b);
    var payer := if ByClaim(a, seat) then a.lastDiscardSeat else NO_SEAT;
    ScoreWinSame(a, b, seat, fan, WinSource(a, seat), payer);
  }

  lemma TurnAfterWinSame(a: Round, b: Round, seat: Seat, a1: Round, b1: Round)
    requires Alike(a, b) && Alike(a1, b1)
    ensures Alike(TurnAfterWin(a, seat, a1), TurnAfterWin(b, seat, b1))
  {
    SeatsSame(ClearClaimWindow(a1), ClearClaimWindow(b1));
  }

  lemma WonDrawSame(a: Round, b: Round, seat: Seat, a1: Round, b1: Round)
    requires Alike(a, b) && Alike(a1, b1) && Stocked(a1) && a1.pendingDraw == NO_TILE
    ensures AlikeOutcomes(DrawForCurrentTurn(TurnAfterWin(a, seat, a1)), DrawForCurrentTurn(TurnAfterWin(b, seat, b1)))
  {
    TurnAfterWinSame(a, b, seat, a1, b1);
    RestedDrawSame(TurnAfterWin(a, seat, a1), TurnAfterWin(b, seat, b1), a1);
  }

  lemma SettleEndSame(a: Round, b: Round, seat: Seat, a1: Round, b1: Round)
    requires Alike(a1, b1) && ShouldFinish(a1)
    ensures AlikeOutcomes(Settle(a, seat, a1), Settle(b, seat, b1))
  {
    assert Alike(FinishRound(a1), FinishRound(b1));
  }

  lemma SettleOpenSame(a: Round, b: Round, seat: Seat, a1: Round, b1: Round)
    requires Alike(a, b) && Alike(a1, b1) && !ShouldFinish(a1) && ByClaim(a, seat) && HuLeftAt(a1.candidates, 3)
    ensures AlikeOutcomes(Settle(a, seat, a1), Settle(b, seat, b1))
  {
    assert Alike(a1.(phase := ClaimPhase), b1.(phase := ClaimPhase));
  }

  lemma SettleDrawSame(a: Round, b: Round, seat: Seat, a1: Round, b1: Round)
    requires Alike(a, b) && Alike(a1, b1) && Stocked(a1) && a1.pendingDraw == NO_TILE
    requires !ShouldFinish(a1) && !(ByClaim(a, seat) && HuLeftAt(a1.candidates, 3))
    ensures AlikeOutcomes(Settle(a, seat, a1), Settle(b, seat, b1))
  {
    WonDrawSame(a, b, seat, a1, b1);
  }

  lemma SettleSame(a: Round, b: Round, seat: Seat, a1: Round, b1: Round)
    requires Alike(a, b) && Alike(a1, b1) && Stocked(a1) && a1.pendingDraw == NO_TILE
    ensures AlikeOutcomes(Settle(a, seat, a1), Settle(b, seat, b1))
  {
    if ShouldFinish(a1) {
      SettleEndSame(a, b, seat, a1, b1);
    } else if ByClaim(a, seat) && HuLeftAt(a1.candidates, 3) {
      SettleOpenSame(a, b, seat, a1, b1);
    } else {
      SettleDrawSame(a, b, seat, a1, b1);
    }
  }

  lemma CanHuSame(a: Round, b: Round, seat: int)
    requires Alike(a, b)
    ensures CanHu(a, seat) == CanHu(b, seat)
  {
    CheckSame(a, b, seat, WinTile(a, seat));
  }

  lemma HuSame(a: Round, b: Round, seat: int, fan: nat)
    requires Alike(a, b) && Inv(a) && Inv(b) && CanHu(a, seat) && CanHu(b, seat) && fan > 0
    ensures AlikeOutcomes(ApplyHu(a, seat, fan), ApplyHu(b, seat, fan))
  {
    HuForm(a, seat, fan);
    HuForm(b, seat, fan);
    RecordHuSame(a, b, seat, fan);
    var a1 := RecordHu(a, seat, fan);
    RecordHuTable(a, seat, fan);
    RecordHuTiles(a, seat, fan);
    LosesStocked(a, a1, a, seat);
    SettleSame(a, b, seat, a1, RecordHu(b, seat, fan));
  }

  // ---------- passing ----------

  lemma AllPassedSame(a: Round, b: Round)
    requires Alike(a, b) && Stocked(a) && MeldsOk(a.melds) && OfferedTileOk(a) && a.pendingDraw == NO_TILE
    ensures AlikeOutcomes(AllPassed(a), AllPassed(b))
  {
    var a1, b1 := ClearClaimWindow(a), ClearClaimWindow(b);
    assert Alike(a1, b1);
    assert SameTable(a, a1) && SameAmount(a, a1);
    SameAmountStocked(a, a1);
    RobbedSame(a, b);
    if a.qiangGang {
      if !Robbed(a) {
        CompleteSame(a1, b1, a.pendingGangSeat, a.pendingGangTile);
        CompleteBuGangTiles(a1, a.pendingGangSeat, a.pendingGangTile);
        BuGangEndSame(a1, b1, a.pendingGangSeat, a.pendingGangTile);
      }
    } else {
      var a2, b2 := CloseOpeningClaim(a1), CloseOpeningClaim(b1);
      assert SameTable(a, a2) && SameAmount(a, a2);
      SameAmountStocked(a, a2);
      assert Alike(a2, b2);
      DrawSame(a2, b2);
    }
  }

  lemma PassSame(a: Round, b: Round, seat: int)
    requires Alike(a, b) && Inv(a)
    ensures AlikeOutcomes(ApplyPass(a, seat), ApplyPass(b, seat))
  {
    assert MayPass(a, seat) == MayPass(b, seat);
    if MayPass(a, seat) {
      if a.phase == ClaimPhase {
        var left := RemoveCandidate(a.candidates, seat);
        var a1, b1 := a.(candidates := left), b.(candidates := left);
        assert SameTable(a, a1) && SameAmount(a, a1);
        SameAmountStocked(a, a1);
        if left == [] { AllPassedSame(a1, b1); }
      } else {
        TakePendingSame(a, b, seat);
      }
    }
  }

  // ---------- opening ----------

  lemma {:induction false} SuitCount(h: seq<Tile>, suit: nat, x: Tile)
    requires x in h
    ensures CountSuit(h, suit) == CountSuit(RemoveOne(h, x), suit) + if Suit(x) == suit then 1 else 0
  {
    if h[0] != x { SuitCount(h[1..], suit, x); }
  }

  lemma {:induction false} CountSuitSame(g: seq<Tile>, h: seq<Tile>, suit: nat)
    requires SameTiles(g, h)
    ensures CountSuit(g, suit) == CountSuit(h, suit)
    decreases |g|
  {
    if g == [] {
      SameLength(g, h);
    } else {
      RemoveSame(g, h, g[0]);
      assert RemoveOne(g, g[0]) == g[1..];
      SuitCount(h, suit, g[0]);
      CountSuitSame(g[1..], RemoveOne(h, g[0]), suit);
    }
  }

  lemma NoteMissingSame(a: Round, b: Round, seat: Seat, suit: int, surrender: bool)
    requires Alike(a, b)
    ensures Alike(NoteMissing(a, seat, suit, surrender), NoteMissing(b, seat, suit, surrender))
  {
    CountSuitSame(a.hands[seat], b.hands[seat], CHARACTERS);
    CountSuitSame(a.hands[seat], b.hands[seat], DOTS);
    CountSuitSame(a.hands[seat], b.hands[seat], BAMBOO);
  }

  lemma MissingSame(a: Round, b: Round, seat: Seat, suit: int, surrender: bool)
    requires Alike(a, b) && Stocked(a)
    ensures AlikeOutcomes(ApplyMissing(a, seat, suit, surrender), ApplyMissing(b, seat, suit, surrender))
  {
    NoteMissingSame(a, b, seat, suit, surrender);
    var a1, b1 := NoteMissing(a, seat, suit, surrender), NoteMissing(b, seat, suit, surrender);
    if AllDone(a1.opening.missingDone) {
      RestedDrawSame(a1.(phase := Idle), b1.(phase := Idle), a);
    }
  }

  lemma SwappedSame(g: Piles, h: Piles, sel: Piles, offset: nat, s: Seat)
    requires SameHands(g, h) && Within(sel[s], g[s])
    ensures SameTiles(Swapped(g, sel, offset, s), Swapped(h, sel, offset, s))
  {
    RemoveAllTakes(g[s], sel[s]);
    RemoveAllTakes(h[s], sel[s]);
    RemoveEachSame(g[s], h[s], sel[s]);
    AppendSame(RemoveAll(g[s], sel[s]), RemoveAll(h[s], sel[s]), sel[GiverOf(s, offset)]);
  }

  lemma ExchangedHandsSame(g: Piles, h: Piles, sel: Piles, offset: nat)
    requires SameHands(g, h) && Within(sel[0], g[0]) && Within(sel[1], g[1]) && Within(sel[2], g[2]) && Within(sel[3], g[3])
    ensures SameHands(ExchangeHands(g, sel, offset), ExchangeHands(h, sel, offset))
  {
    SwappedSame(g, h, sel, offset, 0);
    SwappedSame(g, h, sel, offset, 1);
    SwappedSame(g, h, sel, offset, 2);
    SwappedSame(g, h, sel, offset, 3);
  }

  lemma ExchangedSame(a: Round, b: Round)
    requires Alike(a, b) && forall s: Seat :: SelectionOk(a, s)
    ensures Alike(Exchange(a), Exchange(b))
  {
    assert SelectionOk(a, 0) && SelectionOk(a, 1) && SelectionOk(a, 2) && SelectionOk(a, 3);
    ExchangedHandsSame(a.hands, b.hands, a.opening.selections, Offset(a.opening.direction));
  }

  /** The state after a submission was noted: the exchange itself follows when it was the last one. */
  function Noted(rs: Round, op: Opening): Round {
    var r1 := rs.(opening := op, phase := OpeningPhase);
    if AllDone(op.exchangeDone) then Exchange(r1) else r1
  }

  lemma NotedSame(a: Round, b: Round, op: Opening)
    requires Alike(a, b) && forall s: Seat :: SelectionOk(a.(opening := op, phase := OpeningPhase), s)
    ensures Alike(Noted(a, op), Noted(b, op))
  {
    ExchangedSame(a.(opening := op, phase := OpeningPhase), b.(opening := op, phase := OpeningPhase));
  }

  lemma ExchangeForm(rs: Round, seat: Seat, ts: seq<Tile>, wanted: int, surrender: bool)
    requires !rs.opening.exchangeDone[seat] && (surrender || GoodSelection(rs.hands[seat], ts))
    ensures ApplyExchange(rs, seat, ts, wanted, surrender) ==
      Outcome(Noted(rs, NoteSelection(rs.opening, seat, if surrender then [] else ts, Direction(rs, wanted))), true)
  {
  }

  lemma ExchangeSame(a: Round, b: Round, seat: Seat, ts: seq<Tile>, wanted: int, surrender: bool)
    requires Alike(a, b) && Inv(a) && a.phase == OpeningPhase
    ensures AlikeOutcomes(ApplyExchange(a, seat, ts, wanted, surrender), ApplyExchange(b, seat, ts, wanted, surrender))
  {
    RemoveEachTakes(a.hands[seat], ts);
    RemoveEachTakes(b.hands[seat], ts);
    if !a.opening.exchangeDone[seat] && (surrender || GoodSelection(a.hands[seat], ts)) {
      var own := if surrender then [] else ts;
      NotedIsOk(a, seat, own, Direction(a, wanted));
      ExchangeForm(a, seat, ts, wanted, surrender);
      ExchangeForm(b, seat, ts, wanted, surrender);
      NotedSame(a, b, NoteSelection(a.opening, seat, own, Direction(a, wanted)));
    }
  }

  lemma OpeningSame(a: Round, b: Round, seat: int, step: OpeningStep, ts: seq<Tile>, wanted: int, suit: int, surrender: bool)
    requires Alike(a, b) && Inv(a)
    ensures AlikeOutcomes(ApplyOpening(a, seat, step, ts, wanted, suit, surrender),
                          ApplyOpening(b, seat, step, ts, wanted, suit, surrender))
  {
    assert CurrentStep(a) == CurrentStep(b);
    if a.closed || step == OpeningOver || CurrentStep(a) != step || seat < 0 || seat > 3 {
    } else if step == ExchangeStep {
      ExchangeSame(a, b, seat, ts, wanted, surrender);
    } else {
      MissingSame(a, b, seat, suit, surrender);
    }
  }

  // ---------- timeouts ----------

  /** The seat whose turn it is has given up. */
  function TurnGivenUp(rs: Round): Round {
    CloseOpeningClaim(ClearClaimWindow(MarkSurrendered(rs, rs.turn).(pendingDraw := NO_TILE, currentDraw := NO_TILE)))
  }

  lemma SurrenderTurnSame(a: Round, b: Round)
    requires Alike(a, b) && Inv(a)
    ensures AlikeOutcomes(SurrenderTurn(a), SurrenderTurn(b))
  {
    var a1, b1 := TurnGivenUp(a), TurnGivenUp(b);
    assert Alike(a1, b1);
    SeatsSame(a1, b1);
    if !(ActiveCount(a1) <= 1 || ShouldFinish(a1)) {
      forall t: Tile ensures Amount(a1, t) <= Supply(t) { assert Amount(a, t) <= Supply(t); }
      var next := NextActive(a1, a.turn);
      RestedDrawSame(a1.(turn := next, phase := Idle), b1.(turn := next, phase := Idle), a1);
    }
  }

  lemma TimeoutSame(a: Round, b: Round)
    requires Alike(a, b) && Inv(a)
    ensures AlikeOutcomes(ApplyTimeout(a), ApplyTimeout(b))
  {
    if a.phase == OpeningPhase {
      assert CurrentStep(a) == CurrentStep(b) && Submitted(a) == Submitted(b);
      var seat := FirstWaiting(Submitted(a), a.surrendered);
      if seat < 4 {
        MarkKeepsInv(a, seat);
        OpeningSame(MarkSurrendered(a, seat), MarkSurrendered(b, seat), seat, CurrentStep(a), [], 0, 0, true);
      }
    } else if a.phase == ClaimPhase {
      var seat := Best(a.candidates).seat;
      MarkKeepsInv(a, seat);
      PassSame(MarkSurrendered(a, seat), MarkSurrendered(b, seat), seat);
    } else if a.phase == TsumoPhase || a.phase == DiscardPhase {
      SurrenderTurnSame(a, b);
    }
  }

  // ---------- runs ----------

  lemma OpeningStepSame(a: Round, b: Round, act: Action)
    requires Alike(a, b) && Inv(a) && Inv(b) && (act.DoExchange? || act.DoMissing?)
    ensures AlikeOutcomes(Step(a, act), Step(b, act))
  {
    match act
    case DoExchange(seat, ts, wanted) => OpeningSame(a, b, seat, ExchangeStep, ts, wanted, 0, false);
    case DoMissing(seat, suit) => OpeningSame(a, b, seat, MissingStep, [], 0, suit, false);
  }

  /** A win is worth the same in alike states. */
  lemma WinFanSame(a: Round, b: Round, seat: int)
    requires Alike(a, b)
    ensures WinFan(a, seat) == WinFan(b, seat)
  {
    if 0 <= seat < 4 {
      WinTableSameBag(a.hands[seat], b.hands[seat], WinTile(a, seat), a.melds[seat]);
      assert SceneOf(a, seat) == SceneOf(b, seat);
    }
  }

  lemma WinSame(a: Round, b: Round, seat: int, fan: nat)
    requires Alike(a, b) && Inv(a) && Inv(b) && fan > 0
    ensures AlikeOutcomes(ApplyHu(a, seat, fan), ApplyHu(b, seat, fan))
  {
    CanHuSame(a, b, seat);
    if CanHu(a, seat) { HuSame(a, b, seat, fan); }
  }

  lemma WinStepSame(a: Round, b: Round, seat: int)
    requires Alike(a, b) && Inv(a) && Inv(b)
    ensures AlikeOutcomes(Step(a, DoHu(seat)), Step(b, DoHu(seat)))
  {
    var fan := WinFan(a, seat);
    WinFanSame(a, b, seat);
    WinSame(a, b, seat, fan);
    HuStep(a, DoHu(seat), fan, ApplyHu(a, seat, fan));
    HuStep(b, DoHu(seat), fan, ApplyHu(b, seat, fan));
  }

  /** Alike states accept the same actions and stay alike. */
  lemma StepSame(a: Round, b: Round, act: Action)
    requires Alike(a, b) && Inv(a)
    ensures AlikeOutcomes(Step(a, act), Step(b, act))
  {
    AlikeInv(a, b);
    match act
    case DoExchange(seat, ts, wanted) => OpeningStepSame(a, b, act);
    case DoMissing(seat, suit) => OpeningStepSame(a, b, act);
    case DoDiscard(seat, t) => DiscardSame(a, b, seat, t);
    case DoPong(seat) => if CanClaimPong(a, seat) { PongSame(a, b, seat); }
    case DoChi(seat, named) => NoChiClaim(a, seat); NoChiClaim(b, seat);
    case DoGang(seat, t) => GangSame(a, b, seat, t);
    case DoHu(seat) => WinStepSame(a, b, seat);
    case DoPass(seat) => PassSame(a, b, seat);
    case DoTimeout => TimeoutSame(a, b);
    case SeatLeaves(seat) =>
  }

  /** Whatever is done to both, alike states stay alike to the end. */
  lemma {:induction false} RunSame(a: Round, b: Round, acts: seq<Action>)
    requires Alike(a, b) && Inv(a)
    ensures Alike(Run(a, acts), Run(b, acts)) && Accepted(a, acts) == Accepted(b, acts)
    decreases |acts|
  {
    if acts != [] {
      StepSame(a, b, acts[0]);
      StepKeepsInv(a, acts[0]);
      RunSame(Step(a, acts[0]).rs, Step(b, acts[0]).rs, acts[1..]);
    }
  }
}
