/** How many tiles a seat holds: its share, one more exactly while it has to discard or waits with an added kong. */
module RoundHands {
  import opened Tiles
  import opened Walls
  import opened SichuanWin
  import opened Rounds
  import opened RoundInv
  import opened RoundTiles
  import opened RoundCoherence
  import opened RoundProgress
  import opened RoundRefusals

  type Shares = b: seq<nat> | |b| == 4 witness [0, 0, 0, 0]

  /** A meld stands for three tiles of the hand, a kong too. */
  function Weight(rs: Round, s: Seat): nat { |rs.hands[s]| + 3 * |rs.melds[s]| }

  function Sizes(rs: Round): Shares { [Weight(rs, 0), Weight(rs, 1), Weight(rs, 2), Weight(rs, 3)] }

  predicate HoldsExtra(rs: Round, s: Seat) {
    || (rs.phase == DiscardPhase && rs.turn == s)
    || (rs.qiangGang && rs.pendingGangSeat == s && !Robbed(rs))
  }

  /** Every seat that has not surrendered holds its share, and the extra tile exactly when it is due. */
  predicate SizeLaw(rs: Round, share: Shares) {
    forall s: Seat :: !rs.surrendered[s] ==> Weight(rs, s) == share[s] + if HoldsExtra(rs, s) then 1 else 0
  }

  /** Every seat that has not surrendered holds just its share. */
  predicate Even(rs: Round, share: Shares) {
    forall s: Seat :: !rs.surrendered[s] ==> Weight(rs, s) == share[s]
  }

  /** Even except for one seat, which is so many tiles above its share. */
  predicate EvenBut(rs: Round, share: Shares, seat: Seat, more: int) {
    forall s: Seat :: !rs.surrendered[s] ==> Weight(rs, s) == share[s] + if s == seat then more else 0
  }

  lemma DrawSizes(rs: Round, share: Shares)
    requires Stocked(rs) && Even(rs, share) && !rs.qiangGang
    ensures SizeLaw(DrawForCurrentTurn(rs).rs, share)
  {
    DrawCases(rs);
    if !ShouldFinish(rs) { DrawnSizes(rs, rs.(wall := rs.wall[1..]), rs.wall[0], share); }
  }

  lemma DrawnSizes(rs: Round, r1: Round, t: Tile, share: Shares)
    requires Even(rs, share) && !rs.qiangGang && r1.hands == rs.hands && r1.melds == rs.melds
    requires r1.surrendered == rs.surrendered && r1.turn == rs.turn && !r1.qiangGang
    ensures SizeLaw(OfferTsumo(r1, t), share) && SizeLaw(KeepDraw(r1, t), share)
  {
    forall s: Seat | !rs.surrendered[s] ensures Weight(r1, s) == share[s] { assert Weight(rs, s) == share[s]; }
  }

  lemma FinishGangSizes(rs: Round, seat: Seat, share: Shares)
    requires Stocked(rs) && Even(rs, share)
    ensures SizeLaw(FinishGang(rs, seat).rs, share)
  {
    var r1 := ToDraw(rs, seat);
    assert SameTable(rs, r1);
    forall t: Tile ensures Amount(r1, t) <= Supply(t) { assert Amount(rs, t) <= Supply(t); }
    forall s: Seat | !r1.surrendered[s] ensures Weight(r1, s) == share[s] { assert Weight(r1, s) == Weight(rs, s); }
    DrawSizes(r1, share);
    assert FinishGang(rs, seat) == DrawForCurrentTurn(r1);
  }

  lemma SameSizes(a: Round, b: Round, share: Shares)
    requires a.hands == b.hands && a.melds == b.melds && a.surrendered == b.surrendered && Even(a, share)
    ensures Even(b, share)
  {
    forall s: Seat | !b.surrendered[s] ensures Weight(b, s) == share[s] { assert Weight(a, s) == Weight(b, s); }
  }

  // ---------- claims ----------

  /** In a window over a discard nobody holds an extra tile. */
  lemma WindowIsEven(rs: Round, share: Shares)
    requires rs.phase != DiscardPhase && SizeLaw(rs, share) && (rs.qiangGang ==> Robbed(rs))
    ensures Even(rs, share)
  {
  }

  lemma MeldedSizes(rs: Round, seat: Seat, own: seq<Tile>, m: Meld)
    requires Within(own, rs.hands[seat])
    ensures var r1 := Melded(rs, seat, own, m);
            && r1.surrendered == rs.surrendered
            && forall s: Seat :: Weight(r1, s) == Weight(rs, s) + if s == seat then 3 - |own| else 0
  {
    RemoveEachTakes(rs.hands[seat], own);
    MeldedFields(rs, seat, own, m);
    MeldedMelds(rs, seat, own, m);
  }

  lemma MeldedMelds(rs: Round, seat: Seat, own: seq<Tile>, m: Meld)
    ensures var r1 := Melded(rs, seat, own, m);
            r1.surrendered == rs.surrendered && r1.melds == rs.melds[seat := rs.melds[seat] + [m]]
  {
  }

  lemma PongSizes(rs: Round, seat: int, share: Shares)
    requires Inv(rs) && CanClaimPong(rs, seat) && SizeLaw(rs, share)
    ensures SizeLaw(ApplyPong(rs, seat).rs, share)
  {
    PongForm(rs, seat);
    ClaimGuard(rs, seat);
    PongWindow(rs, seat);
    WindowIsEven(rs, share);
    var t := rs.lastDiscard;
    var m := Meld(Pong, [t, t, t], rs.lastDiscardSeat);
    MeldedSizes(rs, seat, [t, t], m);
    ClaimerSizes(rs, Melded(rs, seat, [t, t], m), seat, share);
    MeldedQuiet(rs, seat, [t, t], m);
  }

  lemma PongWindow(rs: Round, seat: int)
    requires Inv(rs) && (CanClaimPong(rs, seat) || CanClaimGang(rs, seat))
    ensures !rs.qiangGang
  {
    ListedIsOk(rs, seat);
  }

  lemma MeldedQuiet(rs: Round, seat: Seat, own: seq<Tile>, m: Meld)
    ensures !Melded(rs, seat, own, m).qiangGang
  {
  }

  lemma ClaimerSizes(rs: Round, r1: Round, seat: Seat, share: Shares)
    requires Even(rs, share) && r1.surrendered == rs.surrendered && !r1.qiangGang
    requires forall s: Seat :: Weight(r1, s) == Weight(rs, s) + if s == seat then 1 else 0
    ensures SizeLaw(ClaimerDiscards(r1, seat), share)
  {
    var r2 := ClaimerDiscards(r1, seat);
    forall s: Seat | !r2.surrendered[s]
      ensures Weight(r2, s) == share[s] + if HoldsExtra(r2, s) then 1 else 0
    {
      assert Weight(r2, s) == Weight(r1, s) && Weight(rs, s) == share[s];
    }
  }

  lemma KongIsEven(rs: Round, r1: Round, share: Shares)
    requires Even(rs, share) && r1.surrendered == rs.surrendered
    requires forall s: Seat :: Weight(r1, s) == Weight(rs, s)
    ensures Even(r1, share)
  {
    forall s: Seat | !r1.surrendered[s] ensures Weight(r1, s) == share[s] { assert Weight(rs, s) == share[s]; }
  }

  lemma ClaimGangSizes(rs: Round, seat: int, share: Shares)
    requires Inv(rs) && CanClaimGang(rs, seat) && SizeLaw(rs, share)
    ensures SizeLaw(ClaimGang(rs, seat).rs, share)
  {
    ClaimGangForm(rs, seat);
    ClaimGuard(rs, seat);
    PongWindow(rs, seat);
    WindowIsEven(rs, share);
    var t := rs.lastDiscard;
    var m := Meld(ZhiGang, [t, t, t, t], rs.lastDiscardSeat);
    MeldedSizes(rs, seat, [t, t, t], m);
    var r1 := Melded(rs, seat, [t, t, t], m);
    KongIsEven(rs, r1, share);
    var r2 := KongScored(rs, seat, t, rs.lastDiscardSeat);
    SameSizes(r1, r2, share);
    SameAmountStocked(rs, r2);
    FinishGangSizes(r2, seat, share);
  }

  // ---------- kongs of one's own ----------

  lemma TurnHolds(rs: Round, share: Shares)
    requires rs.phase == DiscardPhase && !rs.qiangGang && SizeLaw(rs, share)
    ensures EvenBut(rs, share, rs.turn, 1)
  {
  }

  lemma AnGangSizes(rs: Round, seat: int, t: Tile, share: Shares)
    requires Inv(rs) && CanAnGang(rs, seat, t) && SizeLaw(rs, share)
    ensures SizeLaw(AnGangBy(rs, seat, t).rs, share)
  {
    AnGangForm(rs, seat, t);
    TurnHolds(rs, share);
    RemoveEachTakes(rs.hands[seat], [t, t, t, t]);
    var r1 := AnGangScored(rs, seat, t);
    AnGangWeights(rs, seat, t);
    forall s: Seat | !r1.surrendered[s] ensures Weight(r1, s) == share[s] { assert !rs.surrendered[s]; }
    SameAmountStocked(rs, r1);
    FinishGangSizes(r1, seat, share);
  }

  lemma AnGangWeights(rs: Round, seat: Seat, t: Tile)
    requires |RemoveEach(rs.hands[seat], [t, t, t, t]).0| == |rs.hands[seat]| - 4
    ensures var r1 := AnGangScored(rs, seat, t);
            && r1.surrendered == rs.surrendered
            && forall s: Seat :: Weight(r1, s) == Weight(rs, s) - if s == seat then 1 else 0
  {
  }

  /** The konger gives up the extra tile and draws again. */
  lemma BuGangEndSizes(rs: Round, seat: Seat, t: Tile, share: Shares)
    requires Rested(rs) && Stocked(rs) && HasFullPong(rs.melds[seat], t) && t in rs.hands[seat]
    requires EvenBut(rs, share, seat, 1)
    ensures SizeLaw(FinishGang(CompleteBuGang(rs, seat, t).rs, seat).rs, share)
    ensures SizeLaw(FinishGang(CompleteBuGang(rs, seat, t).rs.(turn := seat), seat).rs, share)
  {
    CompleteBuGangTiles(rs, seat, t);
    BuGangForm(rs, seat, t);
    RemoveLength(rs.hands[seat], t);
    var r1 := CompleteBuGang(rs, seat, t).rs;
    forall s: Seat | !r1.surrendered[s] ensures Weight(r1, s) == share[s] {
      assert Weight(rs, s) == share[s] + if s == seat then 1 else 0;
    }
    SameAmountStocked(rs, r1);
    FinishGangSizes(r1, seat, share);
    assert ToDraw(r1, seat) == ToDraw(r1.(turn := seat), seat);
    assert FinishGang(r1, seat) == FinishGang(r1.(turn := seat), seat);
  }

  lemma BuGangSizes(rs: Round, seat: int, t: Tile, share: Shares)
    requires Inv(rs) && CanBuGang(rs, seat, t) && SizeLaw(rs, share)
    ensures SizeLaw(BuGangBy(rs, seat, t).rs, share)
  {
    TurnHolds(rs, share);
    var r1 := OfferBuGang(rs, seat, t);
    if r1.candidates == [] {
      var r2 := ClearClaimWindow(r1);
      BuGangRests(rs, seat, t);
      forall s: Seat | !r2.surrendered[s] ensures Weight(r2, s) == share[s] + if s == seat then 1 else 0 {
        assert Weight(r2, s) == Weight(rs, s);
      }
      BuGangEndSizes(r2, seat, t, share);
    } else {
      var r2 := r1.(phase := ClaimPhase);
      forall s: Seat | !r2.surrendered[s] ensures Weight(r2, s) == share[s] + if HoldsExtra(r2, s) then 1 else 0 {
        assert Weight(r2, s) == Weight(rs, s);
      }
    }
  }

  lemma GangSizes(rs: Round, seat: int, t: Tile, share: Shares)
    requires Inv(rs) && SizeLaw(rs, share)
    ensures SizeLaw(ApplyGang(rs, seat, t).rs, share)
  {
    if CanClaimGang(rs, seat) { ClaimGangSizes(rs, seat, share); }
    else if CanBuGang(rs, seat, t) { BuGangSizes(rs, seat, t, share); }
    else if CanAnGang(rs, seat, t) { AnGangSizes(rs, seat, t, share); }
  }

  // ---------- discarding ----------

  lemma AfterDiscardSizes(rs: Round, seat: Seat, t: Tile, share: Shares)
    requires Stocked(rs) && Even(rs, share) && !rs.qiangGang && rs.phase == DiscardPhase
    ensures SizeLaw(AfterDiscard(rs, seat, t).rs, share)
  {
    if ShouldFinish(rs) {
      SameSizes(rs, FinishRound(rs), share);
    } else {
      var r2 := OpenClaimWindow(Exposed(rs, seat, t));
      SameSizes(rs, r2, share);
      if r2.candidates == [] {
        var r3 := CloseOpeningClaim(ClearClaimWindow(r2));
        assert SameTable(rs, r3) && SameAmount(rs, r3);
        SameAmountStocked(rs, r3);
        SameSizes(rs, r3, share);
        DrawSizes(r3, share);
      }
    }
  }

  lemma TakePendingSizes(rs: Round, share: Shares)
    requires rs.phase == TsumoPhase && !rs.qiangGang && SizeLaw(rs, share)
    ensures SizeLaw(TakePendingDraw(rs, rs.turn), share)
  {
    var r1 := TakePendingDraw(rs, rs.turn);
    forall s: Seat | !r1.surrendered[s] ensures Weight(r1, s) == share[s] + if HoldsExtra(r1, s) then 1 else 0 {
      assert Weight(rs, s) == share[s];
    }
  }

  lemma LaySizes(rs: Round, t: Tile, share: Shares)
    requires rs.phase == DiscardPhase && !rs.qiangGang && SizeLaw(rs, share) && t in rs.hands[rs.turn]
    ensures Even(LayDiscard(rs, rs.turn, t), share)
  {
    RemoveLength(rs.hands[rs.turn], t);
    var r1 := LayDiscard(rs, rs.turn, t);
    forall s: Seat | !r1.surrendered[s] ensures Weight(r1, s) == share[s] {
      assert Weight(rs, s) == share[s] + if s == rs.turn then 1 else 0;
    }
  }

  lemma DiscardSizes(rs: Round, seat: int, t: Tile, share: Shares)
    requires Inv(rs) && SizeLaw(rs, share)
    ensures SizeLaw(ApplyDiscard(rs, seat, t).rs, share)
  {
    if !(rs.closed || seat != rs.turn || t == NO_TILE) {
      var r1 := if rs.phase == TsumoPhase then TakePendingDraw(rs, seat) else rs;
      if rs.phase == TsumoPhase {
        TakePendingTiles(rs, seat);
        TakePendingSizes(rs, share);
      }
      assert SameAmount(rs, r1);
      if r1.phase == DiscardPhase && t in r1.hands[seat] {
        LayDiscardTiles(r1, seat, t);
        LaySizes(r1, t, share);
        SameAmountStocked(rs, r1);
        SameAmountStocked(r1, LayDiscard(r1, seat, t));
        AfterDiscardSizes(LayDiscard(r1, seat, t), seat, t, share);
      }
    }
  }

  // ---------- winning ----------

  /** A konger holds exactly one copy of its tile beside the pong, so a robbed kong has none left. */
  lemma RobbedHasNone(rs: Round)
    requires Inv(rs) && rs.qiangGang
    ensures rs.pendingGangTile !in RobbedHands(rs)[rs.pendingGangSeat]
    ensures rs.pendingGangTile in rs.hands[rs.pendingGangSeat] ==>
      |RobbedHands(rs)[rs.pendingGangSeat]| + 1 == |rs.hands[rs.pendingGangSeat]|
    ensures rs.pendingGangTile !in rs.hands[rs.pendingGangSeat] ==> RobbedHands(rs) == rs.hands
  {
    var g: Seat, t := rs.pendingGangSeat, rs.pendingGangTile;
    var i :| 0 <= i < |rs.melds[g]| && rs.melds[g][i].kind == Pong && |rs.melds[g][i].tiles| >= 3
          && rs.melds[g][i].tiles[0] == t && rs.melds[g][i].tiles[1] == t && rs.melds[g][i].tiles[2] == t;
    assert MeldOk(rs.melds[g][i]);
    NumSame(rs.melds[g][i].tiles, t, t);
    ReplaceMeld(rs.melds[g], i, rs.melds[g][i], t);
    TableUpdate(rs.melds, g, rs.melds[g], t);
    PileUpdate(rs.hands, g, rs.hands[g], t);
    assert Amount(rs, t) <= Supply(t);
    NumRemove(rs.hands[g], t, t);
    NumMember(RemoveOne(rs.hands[g], t), t);
    RemoveLength(rs.hands[g], t);
    if t !in rs.hands[g] { RemoveMissing(rs.hands[g], t); }
  }

  /** After a win nobody holds an extra tile: a robbed konger has lost it. */
  lemma RecordHuSizes(rs: Round, seat: Seat, fan: nat, share: Shares)
    requires Inv(rs) && CanHu(rs, seat) && SizeLaw(rs, share)
    ensures Even(RecordHu(rs, seat, fan), share)
    ensures RecordHu(rs, seat, fan).qiangGang ==> Robbed(RecordHu(rs, seat, fan))
  {
    HuGuard(rs, seat);
    var r1 := RecordHu(rs, seat, fan);
    RecordHuFields(rs, seat, fan);
    assert r1.surrendered == rs.surrendered && r1.melds == rs.melds;
    if rs.qiangGang {
      RecordHuFrame(rs, seat, fan);
      RobbedHasNone(rs);
      assert r1.hands == RobbedHands(rs);
    }
    forall s: Seat | !r1.surrendered[s] ensures Weight(r1, s) == share[s] {
      assert Weight(rs, s) == share[s] + if HoldsExtra(rs, s) then 1 else 0;
    }
  }

  lemma WonDrawSizes(rs: Round, seat: Seat, r1: Round, share: Shares)
    requires Stocked(r1) && r1.pendingDraw == NO_TILE && Even(r1, share)
    ensures SizeLaw(DrawForCurrentTurn(TurnAfterWin(rs, seat, r1)).rs, share)
  {
    var r3 := TurnAfterWin(rs, seat, r1);
    assert SameTable(r1, r3) && SameAmount(r1, r3);
    SameAmountStocked(r1, r3);
    SameSizes(r1, r3, share);
    DrawSizes(r3, share);
  }

  lemma SettleSizes(rs: Round, seat: Seat, r1: Round, share: Shares)
    requires Stocked(r1) && r1.pendingDraw == NO_TILE && Even(r1, share)
    requires r1.qiangGang ==> Robbed(r1)
    ensures SizeLaw(Settle(rs, seat, r1).rs, share)
  {
    if ShouldFinish(r1) {
      SameSizes(r1, FinishRound(r1), share);
    } else if ByClaim(rs, seat) && HuLeftAt(r1.candidates, 3) {
      SameSizes(r1, r1.(phase := ClaimPhase), share);
    } else {
      WonDrawSizes(rs, seat, r1, share);
    }
  }

  lemma HuSizes(rs: Round, seat: int, fan: nat, share: Shares)
    requires Inv(rs) && CanHu(rs, seat) && fan > 0 && SizeLaw(rs, share)
    ensures SizeLaw(ApplyHu(rs, seat, fan).rs, share)
  {
    var r1 := RecordHu(rs, seat, fan);
    HuForm(rs, seat, fan);
    RecordHuTable(rs, seat, fan);
    RecordHuTiles(rs, seat, fan);
    LosesStocked(rs, r1, rs, seat);
    RecordHuSizes(rs, seat, fan, share);
    SettleSizes(rs, seat, r1, share);
  }

  // ---------- passing and timeouts ----------

  lemma AllPassedSizes(rs: Round, share: Shares)
    requires RecordsOk(rs) && Stocked(rs) && OfferedTileOk(rs) && rs.pendingDraw == NO_TILE && !rs.closed
    requires |rs.wins| < 3 && rs.candidates == [] && CurrentStep(rs) == OpeningOver && rs.phase == ClaimPhase
    requires SizeLaw(rs, share)
    ensures SizeLaw(AllPassed(rs).rs, share)
  {
    var r1 := ClearClaimWindow(rs);
    assert SameTable(rs, r1) && SameAmount(rs, r1);
    SameAmountStocked(rs, r1);
    if rs.qiangGang && !Robbed(rs) {
      forall s: Seat | !r1.surrendered[s] ensures Weight(r1, s) == share[s] + if s == rs.pendingGangSeat then 1 else 0 {
        assert Weight(rs, s) == Weight(r1, s);
      }
      CompleteBuGangTiles(r1, rs.pendingGangSeat, rs.pendingGangTile);
      BuGangEndSizes(r1, rs.pendingGangSeat, rs.pendingGangTile, share);
    } else {
      WindowIsEven(rs, share);
      SameSizes(rs, r1, share);
      if !rs.qiangGang {
        var r2 := CloseOpeningClaim(r1);
        assert SameTable(rs, r2) && SameAmount(rs, r2);
        SameAmountStocked(rs, r2);
        SameSizes(rs, r2, share);
        DrawSizes(r2, share);
      }
    }
  }

  lemma PassSizes(rs: Round, seat: int, share: Shares)
    requires Inv(rs) && SizeLaw(rs, share)
    ensures SizeLaw(ApplyPass(rs, seat).rs, share)
  {
    if MayPass(rs, seat) {
      if rs.phase == ClaimPhase {
        var r1 := rs.(candidates := RemoveCandidate(rs.candidates, seat));
        assert SameTable(rs, r1) && SameAmount(rs, r1);
        SameAmountStocked(rs, r1);
        forall s: Seat | !r1.surrendered[s] ensures Weight(r1, s) == share[s] + if HoldsExtra(r1, s) then 1 else 0 {
          assert Weight(rs, s) == Weight(r1, s) && HoldsExtra(rs, s) == HoldsExtra(r1, s);
        }
        if r1.candidates == [] { AllPassedSizes(r1, share); }
      } else {
        TakePendingSizes(rs, share);
        var r1 := TakePendingDraw(rs, seat);
        var r2 := r1.(step := rs.step + 1);
        forall s: Seat | !r2.surrendered[s] ensures Weight(r2, s) == share[s] + if HoldsExtra(r2, s) then 1 else 0 {
          assert Weight(r1, s) == Weight(r2, s) && HoldsExtra(r1, s) == HoldsExtra(r2, s);
        }
      }
    }
  }

  lemma MarkSizes(rs: Round, seat: Seat, share: Shares)
    requires SizeLaw(rs, share)
    ensures SizeLaw(MarkSurrendered(rs, seat), share)
  {
    var r1 := MarkSurrendered(rs, seat);
    forall s: Seat | !r1.surrendered[s] ensures Weight(r1, s) == share[s] + if HoldsExtra(r1, s) then 1 else 0 {
      assert !rs.surrendered[s] && Weight(rs, s) == Weight(r1, s) && HoldsExtra(rs, s) == HoldsExtra(r1, s);
    }
  }

  lemma SurrenderTurnSizes(rs: Round, share: Shares)
    requires Inv(rs) && (rs.phase == TsumoPhase || rs.phase == DiscardPhase) && SizeLaw(rs, share)
    ensures SizeLaw(SurrenderTurn(rs).rs, share)
  {
    var r1 := CloseOpeningClaim(ClearClaimWindow(MarkSurrendered(rs, rs.turn).(pendingDraw := NO_TILE, currentDraw := NO_TILE)));
    forall s: Seat | !r1.surrendered[s] ensures Weight(r1, s) == share[s] {
      assert s != rs.turn && !rs.surrendered[s] && Weight(rs, s) == Weight(r1, s) && !HoldsExtra(rs, s);
    }
    if ActiveCount(r1) <= 1 || ShouldFinish(r1) {
      SameSizes(r1, FinishRound(r1), share);
    } else {
      var r2 := r1.(turn := NextActive(r1, rs.turn), phase := Idle);
      forall t: Tile ensures Amount(r2, t) <= Supply(t) { assert Amount(rs, t) <= Supply(t); }
      SameSizes(r1, r2, share);
      DrawSizes(r2, share);
    }
  }

  lemma TimeoutSizes(rs: Round, share: Shares)
    requires Inv(rs) && rs.phase != OpeningPhase && SizeLaw(rs, share)
    ensures SizeLaw(ApplyTimeout(rs).rs, share)
  {
    if rs.phase == ClaimPhase {
      var seat := Best(rs.candidates).seat;
      MarkKeepsInv(rs, seat);
      MarkSizes(rs, seat, share);
      PassSizes(MarkSurrendered(rs, seat), seat, share);
    } else if rs.phase == TsumoPhase || rs.phase == DiscardPhase {
      SurrenderTurnSizes(rs, share);
    }
  }

  // ---------- the law ----------

  /** After the opening, no action changes what a seat's share is. */
  lemma StepKeepsSizes(rs: Round, a: Action, share: Shares)
    requires Inv(rs) && rs.phase != OpeningPhase && SizeLaw(rs, share)
    ensures SizeLaw(Step(rs, a).rs, share)
  {
    match a
    case DoExchange(seat, ts, wanted) => OpeningAccepted(rs, seat, ExchangeStep, ts, wanted, 0, false);
    case DoMissing(seat, suit) => OpeningAccepted(rs, seat, MissingStep, [], 0, suit, false);
    case DoDiscard(seat, t) => DiscardSizes(rs, seat, t, share);
    case DoPong(seat) => if CanClaimPong(rs, seat) { PongSizes(rs, seat, share); }
    case DoChi(seat, named) => NoChiClaim(rs, seat);
    case DoGang(seat, t) => GangSizes(rs, seat, t, share);
    case DoHu(seat) => if CanHu(rs, seat) { HuSizes(rs, seat, WinFan(rs, seat), share); }
    case DoPass(seat) => PassSizes(rs, seat, share);
    case DoTimeout => TimeoutSizes(rs, share);
    case SeatLeaves(seat) => MarkSizes(rs, seat, share);
  }

  lemma MissingSizes(rs: Round, seat: Seat, suit: int, surrender: bool)
    requires Inv(rs) && rs.phase == OpeningPhase && CurrentStep(rs) == MissingStep
    requires ApplyMissing(rs, seat, suit, surrender).rs.phase != OpeningPhase
    ensures SizeLaw(ApplyMissing(rs, seat, suit, surrender).rs, Sizes(rs))
  {
    var r1 := NoteMissing(rs, seat, suit, surrender).(phase := Idle);
    assert SameTable(rs, r1) && SameAmount(rs, r1);
    SameAmountStocked(rs, r1);
    forall s: Seat | !r1.surrendered[s] ensures Weight(r1, s) == Sizes(rs)[s] { assert Weight(r1, s) == Weight(rs, s); }
    DrawSizes(r1, Sizes(rs));
  }

  /** The step that ends the opening fixes the shares: what the seats held just before it. */
  lemma OpeningFixesSizes(rs: Round, a: Action)
    requires Inv(rs) && rs.phase == OpeningPhase && Step(rs, a).rs.phase != OpeningPhase
    ensures SizeLaw(Step(rs, a).rs, Sizes(rs))
  {
    AcceptedIffAllowed(rs, a);
    if !Step(rs, a).ok { RefusalEffect(rs, a); }
    match a
    case DoMissing(seat, suit) => MissingSizes(rs, seat, suit, false);
    case DoTimeout => TimeoutFixesSizes(rs, FirstWaiting(Submitted(rs), rs.surrendered));
    case _ =>
  }

  lemma ExchangeKeepsPhase(rs: Round, seat: Seat)
    requires !rs.opening.exchangeDone[seat]
    ensures ApplyExchange(rs, seat, [], 0, true).rs.phase == OpeningPhase
  {
  }

  /** A timeout in the opening submits for the first seat that is waited for, if there is one. */
  lemma OpeningTimeoutForm(rs: Round, seat: nat)
    requires rs.phase == OpeningPhase && !rs.closed && seat == FirstWaiting(Submitted(rs), rs.surrendered)
    ensures seat == 4 ==> ApplyTimeout(rs) == Outcome(rs, false)
    ensures seat < 4 && CurrentStep(rs) == MissingStep ==>
      ApplyTimeout(rs) == ApplyMissing(MarkSurrendered(rs, seat), seat, 0, true)
    ensures seat < 4 && CurrentStep(rs) == ExchangeStep ==>
      ApplyTimeout(rs) == ApplyExchange(MarkSurrendered(rs, seat), seat, [], 0, true) && !rs.opening.exchangeDone[seat]
  {
  }

  lemma TimeoutFixesSizes(rs: Round, seat: nat)
    requires Inv(rs) && rs.phase == OpeningPhase && seat == FirstWaiting(Submitted(rs), rs.surrendered)
    ensures ApplyTimeout(rs).rs.phase != OpeningPhase ==> SizeLaw(ApplyTimeout(rs).rs, Sizes(rs))
  {
    OpeningTimeoutForm(rs, seat);
    if seat < 4 {
      if CurrentStep(rs) == ExchangeStep {
        ExchangeKeepsPhase(MarkSurrendered(rs, seat), seat);
      } else {
        MarkedMissingSizes(rs, seat);
      }
    }
  }

  lemma MarkedMissingSizes(rs: Round, seat: Seat)
    requires Inv(rs) && rs.phase == OpeningPhase && CurrentStep(rs) == MissingStep
    ensures var r1 := ApplyMissing(MarkSurrendered(rs, seat), seat, 0, true).rs;
            r1.phase != OpeningPhase ==> SizeLaw(r1, Sizes(rs))
  {
    var r1 := MarkSurrendered(rs, seat);
    MarkKeepsInv(rs, seat);
    if ApplyMissing(r1, seat, 0, true).rs.phase != OpeningPhase {
      MissingSizes(r1, seat, 0, true);
      assert Sizes(r1) == Sizes(rs);
    }
  }

  /** Once the opening is over it never comes back. */
  lemma OpeningStaysOver(rs: Round, a: Action)
    requires Inv(rs) && rs.phase != OpeningPhase
    ensures Step(rs, a).rs.phase != OpeningPhase
  {
    StepMovesOn(rs, a);
    if !Step(rs, a).ok { RefusalEffect(rs, a); }
  }

  lemma {:induction false} RunKeepsSizes(rs: Round, acts: seq<Action>, share: Shares)
    requires Inv(rs) && rs.phase != OpeningPhase && SizeLaw(rs, share)
    ensures SizeLaw(Run(rs, acts), share)
    decreases |acts|
  {
    if acts != [] {
      StepKeepsSizes(rs, acts[0], share);
      StepKeepsInv(rs, acts[0]);
      OpeningStaysOver(rs, acts[0]);
      RunKeepsSizes(Step(rs, acts[0]).rs, acts[1..], share);
    }
  }
}
