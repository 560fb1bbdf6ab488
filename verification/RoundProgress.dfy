/** Every accepted action uses something up, so every hand ends. */
module RoundProgress {
  import opened Tiles
  import opened Walls
  import opened SichuanWin
  import opened Rounds
  import opened RoundInv
  import opened RoundTiles
  import opened RoundCoherence
  import opened RoundRuns

  // ---------- the measure ----------

  function Unset(f: Flags): nat {
    (if f[0] then 0 else 1) + (if f[1] then 0 else 1) + (if f[2] then 0 else 1) + (if f[3] then 0 else 1)
  }

  function Held(p: Piles): nat { |p[0]| + |p[1]| + |p[2]| + |p[3]| }

  /** What is left to do apart from the question that is open now. */
  function Stock(rs: Round): nat {
    Unset(rs.opening.exchangeDone) + Unset(rs.opening.missingDone) + 32 * |rs.wall|
    + 16 * (Held(rs.hands) + if rs.pendingDraw == NO_TILE then 0 else 1)
  }

  function PhaseRank(p: Phase): nat {
    match p
    case TsumoPhase => 12
    case DiscardPhase => 8
    case ClaimPhase => 4
    case _ => 0
  }

  function Measure(rs: Round): nat {
    if rs.closed then 0 else 1 + Stock(rs) + PhaseRank(rs.phase) + |rs.candidates|
  }

  lemma HeldUpdate(p: Piles, s: Seat, h: seq<Tile>)
    ensures Held(p[s := h]) + |p[s]| == Held(p) + |h|
  {
  }

  lemma DrawnUses(rs: Round, r1: Round, t: Tile)
    requires rs.wall != [] && r1 == rs.(wall := rs.wall[1..]) && rs.pendingDraw == NO_TILE && t != NO_TILE
    ensures Stock(OfferTsumo(r1, t)) + 16 == Stock(rs) == Stock(KeepDraw(r1, t)) + 16
  {
    HeldUpdate(rs.hands, rs.turn, rs.hands[rs.turn] + [t]);
  }

  /** A draw moves one tile off the wall, or ends the hand. */
  lemma DrawUses(rs: Round)
    requires Stocked(rs) && rs.pendingDraw == NO_TILE && rs.candidates == [] && !rs.closed
    ensures var r1 := DrawForCurrentTurn(rs).rs; r1.closed || Measure(r1) + 3 <= Stock(rs)
  {
    DrawCases(rs);
    if !ShouldFinish(rs) { DrawnUses(rs, rs.(wall := rs.wall[1..]), rs.wall[0]); }
  }

  lemma DrawLess(rs: Round, rest: Round)
    requires Stocked(rest) && rest.pendingDraw == NO_TILE && rest.candidates == [] && !rest.closed
    requires !rs.closed && Stock(rest) <= Stock(rs)
    ensures Measure(DrawForCurrentTurn(rest).rs) < Measure(rs)
  {
    DrawUses(rest);
  }

  lemma {:induction false} OffersFew(rs: Round, offset: nat)
    requires 1 <= offset <= 4
    ensures |OffersFrom(rs, offset)| <= 4 - offset
    decreases 4 - offset
  {
    if offset <= 3 {
      OfferOk(rs, offset);
      OffersFew(rs, offset + 1);
    }
  }

  // ---------- claims ----------

  lemma MeldedFields(rs: Round, seat: Seat, own: seq<Tile>, m: Meld)
    ensures var r1 := Melded(rs, seat, own, m);
            && r1.hands == rs.hands[seat := RemoveEach(rs.hands[seat], own).0]
            && r1.wall == rs.wall && r1.opening == rs.opening && r1.pendingDraw == rs.pendingDraw
  {
  }

  lemma MeldedStock(rs: Round, r1: Round, seat: Seat, own: seq<Tile>)
    requires Within(own, rs.hands[seat])
    requires r1.hands == rs.hands[seat := RemoveEach(rs.hands[seat], own).0]
    requires r1.wall == rs.wall && r1.opening == rs.opening && r1.pendingDraw == rs.pendingDraw
    ensures Stock(r1) + 16 * |own| == Stock(rs)
  {
    RemoveEachTakes(rs.hands[seat], own);
    HeldUpdate(rs.hands, seat, RemoveEach(rs.hands[seat], own).0);
  }

  lemma PongLess(rs: Round, seat: int)
    requires Inv(rs) && CanClaimPong(rs, seat)
    ensures Measure(ApplyPong(rs, seat).rs) < Measure(rs)
  {
    ClaimGuard(rs, seat);
    PongForm(rs, seat);
    var t := rs.lastDiscard;
    var m := Meld(Pong, [t, t, t], rs.lastDiscardSeat);
    MeldedFields(rs, seat, [t, t], m);
    MeldedStock(rs, Melded(rs, seat, [t, t], m), seat, [t, t]);
  }

  lemma FinishGangLess(rs: Round, rest: Round, seat: Seat)
    requires Stocked(rest) && rest.pendingDraw == NO_TILE && rest.candidates == [] && !rest.closed
    requires !rs.closed && Stock(rest) <= Stock(rs)
    ensures Measure(FinishGang(rest, seat).rs) < Measure(rs)
  {
    var r1 := ToDraw(rest, seat);
    assert SameTable(rest, r1) && SameAmount(rest, r1);
    SameAmountStocked(rest, r1);
    DrawLess(rs, r1);
    assert FinishGang(rest, seat) == DrawForCurrentTurn(r1);
  }

  lemma ClaimGangLess(rs: Round, seat: int)
    requires Inv(rs) && CanClaimGang(rs, seat)
    ensures Measure(ClaimGang(rs, seat).rs) < Measure(rs)
  {
    ClaimGuard(rs, seat);
    ClaimGangForm(rs, seat);
    var t := rs.lastDiscard;
    var r1 := KongScored(rs, seat, t, rs.lastDiscardSeat);
    var m := Meld(ZhiGang, [t, t, t, t], rs.lastDiscardSeat);
    MeldedFields(rs, seat, [t, t, t], m);
    MeldedStock(rs, Melded(rs, seat, [t, t, t], m), seat, [t, t, t]);
    SameAmountStocked(rs, r1);
    FinishGangLess(rs, r1, seat);
  }

  lemma BuGangEndLess(rs: Round, rest: Round, seat: Seat, t: Tile)
    requires Rested(rest) && Stocked(rest) && HasFullPong(rest.melds[seat], t) && t in rest.hands[seat]
    requires !rs.closed && Stock(rest) <= Stock(rs)
    ensures Measure(FinishGang(CompleteBuGang(rest, seat, t).rs, seat).rs) < Measure(rs)
    ensures Measure(FinishGang(CompleteBuGang(rest, seat, t).rs.(turn := seat), seat).rs) < Measure(rs)
  {
    CompleteBuGangTiles(rest, seat, t);
    BuGangForm(rest, seat, t);
    var r1 := CompleteBuGang(rest, seat, t).rs;
    SameAmountStocked(rest, r1);
    RemoveLength(rest.hands[seat], t);
    HeldUpdate(rest.hands, seat, RemoveOne(rest.hands[seat], t));
    FinishGangLess(rs, r1, seat);
    assert ToDraw(r1, seat) == ToDraw(r1.(turn := seat), seat);
    assert FinishGang(r1, seat) == FinishGang(r1.(turn := seat), seat);
  }

  lemma BuGangLess(rs: Round, seat: int, t: Tile)
    requires Inv(rs) && CanBuGang(rs, seat, t)
    ensures Measure(BuGangBy(rs, seat, t).rs) < Measure(rs)
  {
    var r1 := OfferBuGang(rs, seat, t);
    if r1.candidates == [] {
      var r2 := ClearClaimWindow(r1);
      BuGangRests(rs, seat, t);
      BuGangEndLess(rs, r2, seat, t);
    } else {
      OffersFew(rs.(lastDiscard := t, lastDiscardSeat := seat, pendingGangSeat := seat, pendingGangTile := t,
                    qiangGang := true), 1);
    }
  }

  lemma AnGangLess(rs: Round, seat: int, t: Tile)
    requires Inv(rs) && CanAnGang(rs, seat, t)
    ensures Measure(AnGangBy(rs, seat, t).rs) < Measure(rs)
  {
    AnGangForm(rs, seat, t);
    RemoveEachTakes(rs.hands[seat], [t, t, t, t]);
    HeldUpdate(rs.hands, seat, RemoveEach(rs.hands[seat], [t, t, t, t]).0);
    var r1 := AnGangScored(rs, seat, t);
    SameAmountStocked(rs, r1);
    FinishGangLess(rs, r1, seat);
  }

  lemma GangLess(rs: Round, seat: int, t: Tile)
    requires Inv(rs) && ApplyGang(rs, seat, t).ok
    ensures Measure(ApplyGang(rs, seat, t).rs) < Measure(rs)
  {
    if CanClaimGang(rs, seat) { ClaimGangLess(rs, seat); }
    else if CanBuGang(rs, seat, t) { BuGangLess(rs, seat, t); }
    else { AnGangLess(rs, seat, t); }
  }

  // ---------- discarding ----------

  lemma TakePendingStock(rs: Round, seat: Seat)
    requires rs.pendingDraw != NO_TILE
    ensures Stock(TakePendingDraw(rs, seat)) == Stock(rs)
  {
    HeldUpdate(rs.hands, seat, rs.hands[seat] + [rs.pendingDraw]);
  }

  lemma LayDiscardStock(rs: Round, seat: Seat, t: Tile)
    requires t in rs.hands[seat]
    ensures Stock(LayDiscard(rs, seat, t)) + 16 == Stock(rs)
  {
    RemoveLength(rs.hands[seat], t);
    HeldUpdate(rs.hands, seat, RemoveOne(rs.hands[seat], t));
  }

  lemma UnclaimedLess(rs: Round, laid: Round, seat: Seat, t: Tile)
    requires Stocked(laid) && laid.pendingDraw == NO_TILE && !laid.closed && !ShouldFinish(laid)
    requires !rs.closed && Stock(laid) + 16 <= Stock(rs) && OpenClaimWindow(Exposed(laid, seat, t)).candidates == []
    ensures Measure(AfterDiscard(laid, seat, t).rs) < Measure(rs)
  {
    var r3 := CloseOpeningClaim(ClearClaimWindow(OpenClaimWindow(Exposed(laid, seat, t))));
    assert SameTable(laid, r3) && SameAmount(laid, r3);
    SameAmountStocked(laid, r3);
    DrawLess(rs, r3);
  }

  lemma AfterDiscardLess(rs: Round, laid: Round, seat: Seat, t: Tile)
    requires Stocked(laid) && laid.pendingDraw == NO_TILE && laid.candidates == [] && !laid.closed
    requires !rs.closed && Stock(laid) + 16 <= Stock(rs)
    ensures Measure(AfterDiscard(laid, seat, t).rs) < Measure(rs)
  {
    if !ShouldFinish(laid) {
      if OpenClaimWindow(Exposed(laid, seat, t)).candidates == [] {
        UnclaimedLess(rs, laid, seat, t);
      } else {
        OffersFew(Exposed(laid, seat, t), 1);
      }
    }
  }

  /** Also a refused discard may use something up: it may take the drawn tile into the hand. */
  lemma DiscardLess(rs: Round, seat: int, t: Tile)
    requires Inv(rs)
    ensures Measure(ApplyDiscard(rs, seat, t).rs) <= Measure(rs)
    ensures ApplyDiscard(rs, seat, t).ok ==> Measure(ApplyDiscard(rs, seat, t).rs) < Measure(rs)
  {
    if !(rs.closed || seat != rs.turn || t == NO_TILE) {
      var r1 := if rs.phase == TsumoPhase then TakePendingDraw(rs, seat) else rs;
      if rs.phase == TsumoPhase {
        TakePendingTiles(rs, seat);
        TakePendingStock(rs, seat);
      }
      assert SameAmount(rs, r1);
      if r1.phase == DiscardPhase && t in r1.hands[seat] {
        LayDiscardTiles(r1, seat, t);
        LayDiscardStock(r1, seat, t);
        var r2 := LayDiscard(r1, seat, t);
        SameAmountStocked(rs, r1);
        SameAmountStocked(r1, r2);
        AfterDiscardLess(rs, r2, seat, t);
      }
    }
  }

  // ---------- winning ----------

  lemma RobStock(rs: Round)
    ensures Stock(rs.(hands := RobbedHands(rs))) <= Stock(rs)
  {
    if rs.pendingGangSeat >= 0 && rs.pendingGangTile != NO_TILE {
      var g: Seat := rs.pendingGangSeat;
      RemoveLength(rs.hands[g], rs.pendingGangTile);
      HeldUpdate(rs.hands, g, RemoveOne(rs.hands[g], rs.pendingGangTile));
    }
  }

  lemma RecordHuFields(rs: Round, seat: Seat, fan: nat)
    ensures var r1 := RecordHu(rs, seat, fan);
            && r1.opening == rs.opening && r1.closed == rs.closed
            && r1.candidates == if ByClaim(rs, seat) then RemoveCandidate(rs.candidates, seat) else []
  {
  }

  lemma RecordHuStock(rs: Round, seat: Seat, fan: nat)
    ensures Stock(RecordHu(rs, seat, fan)) <= Stock(rs)
  {
    RobStock(rs);
    RecordHuTable(rs, seat, fan);
    RecordHuFields(rs, seat, fan);
  }

  lemma SettleLess(rs: Round, seat: Seat, r1: Round)
    requires Stocked(r1) && r1.pendingDraw == NO_TILE && !r1.closed && !rs.closed && Stock(r1) <= Stock(rs)
    requires ByClaim(rs, seat) ==> |r1.candidates| < |rs.candidates| && rs.phase == ClaimPhase
    ensures Measure(Settle(rs, seat, r1).rs) < Measure(rs)
  {
    var r3 := TurnAfterWin(rs, seat, r1);
    assert SameTable(r1, r3) && SameAmount(r1, r3);
    SameAmountStocked(r1, r3);
    DrawLess(rs, r3);
  }

  lemma HuLess(rs: Round, seat: int, fan: nat)
    requires Inv(rs) && CanHu(rs, seat) && fan > 0
    ensures Measure(ApplyHu(rs, seat, fan).rs) < Measure(rs)
  {
    HuForm(rs, seat, fan);
    RecordHuStock(rs, seat, fan);
    RecordHuFields(rs, seat, fan);
    RecordHuTable(rs, seat, fan);
    RecordHuTiles(rs, seat, fan);
    LosesStocked(rs, RecordHu(rs, seat, fan), rs, seat);
    RemovedCandidates(rs.candidates, seat);
    SettleLess(rs, seat, RecordHu(rs, seat, fan));
  }

  // ---------- passing ----------

  lemma AllPassedLess(rs: Round, left: Round)
    requires RecordsOk(left) && Stocked(left) && OfferedTileOk(left) && left.pendingDraw == NO_TILE && !left.closed
    requires left.candidates == [] && CurrentStep(left) == OpeningOver
    requires !rs.closed && Stock(left) <= Stock(rs) && rs.candidates != []
    ensures Measure(AllPassed(left).rs) < Measure(rs)
  {
    var r1 := ClearClaimWindow(left);
    assert SameTable(left, r1) && SameAmount(left, r1);
    SameAmountStocked(left, r1);
    if left.qiangGang {
      if left.pendingGangTile in left.hands[left.pendingGangSeat] {
        CompleteBuGangTiles(r1, left.pendingGangSeat, left.pendingGangTile);
        BuGangEndLess(rs, r1, left.pendingGangSeat, left.pendingGangTile);
      }
    } else {
      var r2 := CloseOpeningClaim(r1);
      assert SameTable(left, r2) && SameAmount(left, r2);
      SameAmountStocked(left, r2);
      DrawLess(rs, r2);
    }
  }

  lemma ClaimPassLess(rs: Round, seat: int)
    requires Inv(rs) && MayPass(rs, seat) && rs.phase == ClaimPhase
    ensures Measure(ApplyPass(rs, seat).rs) < Measure(rs)
  {
    var r1 := rs.(candidates := RemoveCandidate(rs.candidates, seat));
    assert SameTable(rs, r1) && SameAmount(rs, r1);
    SameAmountStocked(rs, r1);
    RemovedCandidates(rs.candidates, seat);
    if r1.candidates == [] { AllPassedLess(rs, r1); }
  }

  lemma PassLess(rs: Round, seat: int)
    requires Inv(rs)
    ensures Measure(ApplyPass(rs, seat).rs) <= Measure(rs)
    ensures MayPass(rs, seat) ==> Measure(ApplyPass(rs, seat).rs) < Measure(rs)
  {
    if MayPass(rs, seat) {
      if rs.phase == ClaimPhase { ClaimPassLess(rs, seat); } else { TakePendingStock(rs, seat); }
    }
  }

  // ---------- opening ----------

  lemma UnsetOne(f: Flags, s: Seat)
    requires !f[s]
    ensures Unset(f[s := true]) + 1 == Unset(f)
  {
  }

  lemma SelectionsAddUp(sel: Piles, g0: Seat, g1: Seat, g2: Seat, g3: Seat)
    requires (g0 == 1 && g1 == 2 && g2 == 3 && g3 == 0) || (g0 == 2 && g1 == 3 && g2 == 0 && g3 == 1)
          || (g0 == 3 && g1 == 0 && g2 == 1 && g3 == 2)
    ensures |sel[g0]| + |sel[g1]| + |sel[g2]| + |sel[g3]| == Held(sel)
  {
  }

  lemma SwappedLength(hands: Piles, sel: Piles, offset: nat, s: Seat)
    requires Within(sel[s], hands[s])
    ensures |Swapped(hands, sel, offset, s)| + |sel[s]| == |hands[s]| + |sel[GiverOf(s, offset)]|
  {
    SwappedCount(hands, sel, offset, s, GiverOf(s, offset), NO_TILE);
  }

  lemma GiverIs(s: nat, offset: nat, g: Seat)
    requires s + offset == g || s + offset == g + 4
    ensures GiverOf(s, offset) == g
  {
  }

  lemma Givers(offset: nat) returns (g0: Seat, g1: Seat, g2: Seat, g3: Seat)
    requires 1 <= offset <= 3
    ensures g0 == GiverOf(0, offset) && g1 == GiverOf(1, offset) && g2 == GiverOf(2, offset) && g3 == GiverOf(3, offset)
    ensures (g0 == 1 && g1 == 2 && g2 == 3 && g3 == 0) || (g0 == 2 && g1 == 3 && g2 == 0 && g3 == 1)
         || (g0 == 3 && g1 == 0 && g2 == 1 && g3 == 2)
  {
    g0 := offset;
    g1 := if offset < 3 then offset + 1 else 0;
    g2 := if offset < 2 then 3 else offset - 2;
    g3 := offset - 1;
    GiverIs(0, offset, g0);
    GiverIs(1, offset, g1);
    GiverIs(2, offset, g2);
    GiverIs(3, offset, g3);
  }

  lemma ReceivedAddUp(sel: Piles, offset: nat)
    requires 1 <= offset <= 3
    ensures |sel[GiverOf(0, offset)]| + |sel[GiverOf(1, offset)]| + |sel[GiverOf(2, offset)]| + |sel[GiverOf(3, offset)]| == Held(sel)
  {
    var g0, g1, g2, g3 := Givers(offset);
    SelectionsAddUp(sel, g0, g1, g2, g3);
  }

  lemma ExchangeHeld(hands: Piles, sel: Piles, offset: nat)
    requires 1 <= offset <= 3
    requires Within(sel[0], hands[0]) && Within(sel[1], hands[1]) && Within(sel[2], hands[2]) && Within(sel[3], hands[3])
    ensures Held(ExchangeHands(hands, sel, offset)) == Held(hands)
  {
    SwappedLength(hands, sel, offset, 0);
    SwappedLength(hands, sel, offset, 1);
    SwappedLength(hands, sel, offset, 2);
    SwappedLength(hands, sel, offset, 3);
    ReceivedAddUp(sel, offset);
  }

  lemma ExchangeLess(rs: Round, seat: Seat, ts: seq<Tile>, wanted: int, surrender: bool)
    requires Inv(rs) && rs.phase == OpeningPhase && CurrentStep(rs) == ExchangeStep
    requires ApplyExchange(rs, seat, ts, wanted, surrender).ok
    ensures Measure(ApplyExchange(rs, seat, ts, wanted, surrender).rs) < Measure(rs)
  {
    var own := if surrender then [] else ts;
    RemoveEachTakes(rs.hands[seat], own);
    NotedIsOk(rs, seat, own, Direction(rs, wanted));
    UnsetOne(rs.opening.exchangeDone, seat);
    var r1 := rs.(opening := NoteSelection(rs.opening, seat, own, Direction(rs, wanted)), phase := OpeningPhase);
    assert SelectionOk(r1, 0) && SelectionOk(r1, 1) && SelectionOk(r1, 2) && SelectionOk(r1, 3);
    ExchangeHeld(r1.hands, r1.opening.selections, Offset(r1.opening.direction));
  }

  lemma MissingLess(rs: Round, seat: Seat, suit: int, surrender: bool)
    requires Inv(rs) && rs.phase == OpeningPhase && CurrentStep(rs) == MissingStep
    requires !rs.opening.missingDone[seat]
    ensures Measure(ApplyMissing(rs, seat, suit, surrender).rs) < Measure(rs)
  {
    UnsetOne(rs.opening.missingDone, seat);
    var r1 := NoteMissing(rs, seat, suit, surrender).(phase := Idle);
    assert SameTable(rs, r1) && SameAmount(rs, r1);
    SameAmountStocked(rs, r1);
    DrawLess(rs, r1);
  }

  lemma OpeningLess(rs: Round, seat: int, step: OpeningStep, ts: seq<Tile>, wanted: int, suit: int, surrender: bool)
    requires Inv(rs)
    ensures var o := ApplyOpening(rs, seat, step, ts, wanted, suit, surrender);
            if o.ok then Measure(o.rs) < Measure(rs) else o.rs == rs
  {
    if rs.closed || step == OpeningOver || CurrentStep(rs) != step || seat < 0 || seat > 3 {
    } else if step == ExchangeStep {
      if ApplyExchange(rs, seat, ts, wanted, surrender).ok { ExchangeLess(rs, seat, ts, wanted, surrender); }
    } else if !rs.opening.missingDone[seat] {
      MissingStepTiles(rs, seat, suit, surrender);
      MissingLess(rs, seat, suit, surrender);
    }
  }

  // ---------- timeouts ----------

  lemma SurrenderTurnLess(rs: Round)
    requires Inv(rs) && (rs.phase == TsumoPhase || rs.phase == DiscardPhase)
    ensures Measure(SurrenderTurn(rs).rs) < Measure(rs)
  {
    var r1 := CloseOpeningClaim(ClearClaimWindow(MarkSurrendered(rs, rs.turn).(pendingDraw := NO_TILE, currentDraw := NO_TILE)));
    var r2 := r1.(turn := NextActive(r1, rs.turn), phase := Idle);
    forall t: Tile ensures Amount(r2, t) <= Supply(t) {
      assert Amount(rs, t) <= Supply(t);
    }
    DrawLess(rs, r2);
  }

  lemma TimeoutLess(rs: Round)
    requires Inv(rs)
    ensures Measure(ApplyTimeout(rs).rs) <= Measure(rs)
    ensures ApplyTimeout(rs).ok ==> Measure(ApplyTimeout(rs).rs) < Measure(rs)
  {
    if rs.phase == OpeningPhase {
      var seat := FirstWaiting(Submitted(rs), rs.surrendered);
      if seat < 4 {
        MarkKeepsInv(rs, seat);
        OpeningLess(MarkSurrendered(rs, seat), seat, CurrentStep(rs), [], 0, 0, true);
      }
    } else if rs.phase == ClaimPhase {
      var seat := Best(rs.candidates).seat;
      var r1 := MarkSurrendered(rs, seat);
      MarkKeepsInv(rs, seat);
      PassLess(r1, seat);
      PassTiles(r1, seat);
    } else if rs.phase == TsumoPhase || rs.phase == DiscardPhase {
      SurrenderTurnLess(rs);
    }
  }

  // ---------- runs ----------

  /** Nothing ever adds to the measure, and each accepted action but a walk-out lowers it. */
  lemma StepDecreases(rs: Round, a: Action)
    requires Inv(rs)
    ensures Measure(Step(rs, a).rs) <= Measure(rs)
    ensures Step(rs, a).ok && !a.SeatLeaves? ==> Measure(Step(rs, a).rs) < Measure(rs)
  {
    match a
    case DoExchange(seat, ts, wanted) => OpeningLess(rs, seat, ExchangeStep, ts, wanted, 0, false);
    case DoMissing(seat, suit) => OpeningLess(rs, seat, MissingStep, [], 0, suit, false);
    case DoDiscard(seat, t) => DiscardLess(rs, seat, t);
    case DoPong(seat) => if CanClaimPong(rs, seat) { PongLess(rs, seat); }
    case DoChi(seat, named) => NoChiClaim(rs, seat);
    case DoGang(seat, t) => GangTiles(rs, seat, t); if ApplyGang(rs, seat, t).ok { GangLess(rs, seat, t); }
    case DoHu(seat) => if CanHu(rs, seat) { HuLess(rs, seat, WinFan(rs, seat)); }
    case DoPass(seat) => PassTiles(rs, seat); PassLess(rs, seat);
    case DoTimeout => TimeoutLess(rs);
    case SeatLeaves(seat) =>
  }

  /** How many actions of a run are accepted, walk-outs not counted. */
  ghost function Accepted(rs: Round, acts: seq<Action>): nat
    decreases |acts|
  {
    if acts == [] then 0
    else (if Step(rs, acts[0]).ok && !acts[0].SeatLeaves? then 1 else 0) + Accepted(Step(rs, acts[0]).rs, acts[1..])
  }

  lemma {:induction false} RunUses(rs: Round, acts: seq<Action>)
    requires Inv(rs)
    ensures Accepted(rs, acts) + Measure(Run(rs, acts)) <= Measure(rs)
    decreases |acts|
  {
    if acts != [] {
      StepDecreases(rs, acts[0]);
      StepKeepsInv(rs, acts[0]);
      RunUses(Step(rs, acts[0]).rs, acts[1..]);
    }
  }

  /** No hand accepts more than 2633 actions, whatever the wall and whatever the players do. */
  lemma HandsAreFinite(wall: seq<Tile>, withExchange: bool, acts: seq<Action>)
    requires IsFullWall(wall)
    ensures Accepted(StartRound(wall, withExchange).rs, acts) <= 2633
  {
    StartIsInv(wall, withExchange);
    var start := StartRound(wall, withExchange).rs;
    RunUses(start, acts);
    assert |start.hands[0]| == |start.hands[1]| == |start.hands[2]| == |start.hands[3]| == 13;
    assert start.candidates == [];
  }
}
