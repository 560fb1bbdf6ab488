/** When an action is accepted, and what a refused one leaves behind. */
module RoundRefusals {
  import opened Tiles
  import opened Rounds
  import opened RoundInv
  import opened RoundTiles
  import opened RoundCoherence
  import opened RoundProgress

  // ---------- the guards ----------

  /** The seat may discard t: it has the turn, and t is in its hand or is the tile it just drew. */
  predicate MayDiscard(rs: Round, seat: int, t: Tile) {
    && seat == rs.turn && t != NO_TILE
    && (rs.phase == DiscardPhase || rs.phase == TsumoPhase)
    && (t in rs.hands[rs.turn] || (rs.phase == TsumoPhase && t == rs.pendingDraw))
  }

  ghost predicate MayGang(rs: Round, seat: int, t: Tile) {
    CanClaimGang(rs, seat) || CanBuGang(rs, seat, t) || CanAnGang(rs, seat, t)
  }

  ghost predicate MayExchange(rs: Round, seat: int, ts: seq<Tile>) {
    && 0 <= seat < 4 && rs.phase == OpeningPhase && CurrentStep(rs) == ExchangeStep
    && !rs.opening.exchangeDone[seat] && |ts| == 3 && Within(ts, rs.hands[seat])
  }

  predicate MayName(rs: Round, seat: int) {
    0 <= seat < 4 && rs.phase == OpeningPhase && CurrentStep(rs) == MissingStep && !rs.opening.missingDone[seat]
  }

  /** Somebody is asked for something that a timeout can give up in their place. */
  predicate MayTimeOut(rs: Round) {
    match rs.phase
    case Idle => false
    case OpeningPhase => FirstWaiting(Submitted(rs), rs.surrendered) < 4
    case ClaimPhase => rs.candidates != [] && !DeadPass(rs, Best(rs.candidates).seat)
    case _ => true
  }

  /** Exactly what it takes for an action to be accepted. */
  ghost predicate Allowed(rs: Round, a: Action) {
    match a
    case DoExchange(seat, ts, wanted) => MayExchange(rs, seat, ts)
    case DoMissing(seat, suit) => MayName(rs, seat)
    case DoDiscard(seat, t) => MayDiscard(rs, seat, t)
    case DoPong(seat) => CanClaimPong(rs, seat)
    case DoChi(seat, named) => false
    case DoGang(seat, t) => MayGang(rs, seat, t)
    case DoHu(seat) => CanHu(rs, seat)
    case DoPass(seat) => MayPass(rs, seat) && !DeadPass(rs, seat)
    case DoTimeout => MayTimeOut(rs)
    case SeatLeaves(seat) => true
  }

  lemma DiscardAccepted(rs: Round, seat: int, t: Tile)
    requires Inv(rs)
    ensures ApplyDiscard(rs, seat, t).ok <==> MayDiscard(rs, seat, t)
    ensures !ApplyDiscard(rs, seat, t).ok && rs.phase == TsumoPhase && seat == rs.turn && t != NO_TILE ==>
      ApplyDiscard(rs, seat, t).rs == TakePendingDraw(rs, seat)
    ensures !ApplyDiscard(rs, seat, t).ok && !(rs.phase == TsumoPhase && seat == rs.turn && t != NO_TILE) ==>
      ApplyDiscard(rs, seat, t).rs == rs
  {
    if !(rs.closed || seat != rs.turn || t == NO_TILE) {
      var r1 := if rs.phase == TsumoPhase then TakePendingDraw(rs, seat) else rs;
      if rs.phase == TsumoPhase { TakePendingTiles(rs, seat); }
      if r1.phase == DiscardPhase && t in r1.hands[seat] {
        assert SameAmount(rs, r1);
        LayDiscardTiles(r1, seat, t);
        SameAmountStocked(rs, r1);
        SameAmountStocked(r1, LayDiscard(r1, seat, t));
        AfterDiscardTiles(LayDiscard(r1, seat, t), seat, t);
      }
    }
  }

  lemma OpeningAccepted(rs: Round, seat: int, step: OpeningStep, ts: seq<Tile>, wanted: int, suit: int, surrender: bool)
    requires Inv(rs)
    ensures var o := ApplyOpening(rs, seat, step, ts, wanted, suit, surrender);
            && (!o.ok ==> o.rs == rs)
            && (o.ok <==> 0 <= seat < 4 && rs.phase == OpeningPhase && CurrentStep(rs) == step
                          && !(if step == ExchangeStep then rs.opening.exchangeDone else rs.opening.missingDone)[seat]
                          && (step == ExchangeStep && !surrender ==> |ts| == 3 && Within(ts, rs.hands[seat])))
  {
    OpeningLess(rs, seat, step, ts, wanted, suit, surrender);
    if rs.closed || step == OpeningOver || CurrentStep(rs) != step || seat < 0 || seat > 3 {
    } else if step == ExchangeStep {
      RemoveEachTakes(rs.hands[seat], ts);
    } else {
      MissingStepTiles(rs, seat, suit, surrender);
    }
  }

  lemma BestMayPass(rs: Round)
    requires Inv(rs) && rs.phase == ClaimPhase
    ensures IsTop(rs, Best(rs.candidates).seat) && IsTop(MarkSurrendered(rs, Best(rs.candidates).seat), Best(rs.candidates).seat)
  {
    TopIsThere(rs.candidates);
  }

  lemma TimeoutAccepted(rs: Round)
    requires Inv(rs)
    ensures ApplyTimeout(rs).ok <==> MayTimeOut(rs)
    ensures !ApplyTimeout(rs).ok && rs.phase != ClaimPhase ==> ApplyTimeout(rs).rs == rs
  {
    if rs.phase == OpeningPhase {
      var seat := FirstWaiting(Submitted(rs), rs.surrendered);
      if seat < 4 {
        MarkKeepsInv(rs, seat);
        OpeningAccepted(MarkSurrendered(rs, seat), seat, CurrentStep(rs), [], 0, 0, true);
      }
    } else if rs.phase == ClaimPhase {
      var seat := Best(rs.candidates).seat;
      MarkKeepsInv(rs, seat);
      BestMayPass(rs);
      PassTiles(MarkSurrendered(rs, seat), seat);
    } else if rs.phase == TsumoPhase || rs.phase == DiscardPhase {
      SurrenderTurnTiles(rs);
    }
  }

  /**
   * An action succeeds exactly when its guard holds: once a claim, a kong, a win or a timeout has
   * passed its first test, none of the errors further down can happen.
   */
  lemma AcceptedIffAllowed(rs: Round, a: Action)
    requires Inv(rs)
    ensures Step(rs, a).ok <==> Allowed(rs, a)
  {
    match a
    case DoExchange(seat, ts, wanted) => OpeningAccepted(rs, seat, ExchangeStep, ts, wanted, 0, false);
    case DoMissing(seat, suit) => OpeningAccepted(rs, seat, MissingStep, [], 0, suit, false);
    case DoDiscard(seat, t) => DiscardAccepted(rs, seat, t);
    case DoPong(seat) => if CanClaimPong(rs, seat) { PongTiles(rs, seat); }
    case DoChi(seat, named) => NoChiClaim(rs, seat);
    case DoGang(seat, t) => GangTiles(rs, seat, t);
    case DoHu(seat) => if CanHu(rs, seat) { HuTiles(rs, seat, WinFan(rs, seat)); }
    case DoPass(seat) => PassTiles(rs, seat);
    case DoTimeout => TimeoutAccepted(rs);
    case SeatLeaves(seat) =>
  }

  // ---------- refusals ----------

  /** The drawn tile is asked for a decision, and the seat discards a tile it does not have. */
  predicate DiscardsUnheld(rs: Round, a: Action) {
    a.DoDiscard? && rs.phase == TsumoPhase && a.seat == rs.turn && a.tile != NO_TILE && !MayDiscard(rs, a.seat, a.tile)
  }

  /** The seat that gives up the last chance to rob a kong that was robbed before; 4 for none. */
  function DeadPasser(rs: Round, a: Action): nat {
    if a.DoPass? && DeadPass(rs, a.seat) && 0 <= a.seat < 4 then a.seat
    else if a.DoTimeout? && rs.phase == ClaimPhase && rs.candidates != [] && DeadPass(rs, Best(rs.candidates).seat) then
      Best(rs.candidates).seat
    else 4
  }

  /** After such a pass nobody is asked for anything, and the hand is still open. */
  predicate Stuck(rs: Round) { rs.phase == Idle && !rs.closed }

  lemma DeadPassLeaves(rs: Round, seat: int)
    requires Inv(rs) && DeadPass(rs, seat) && MayPass(rs, seat)
    ensures ApplyPass(rs, seat).rs == ClearClaimWindow(rs.(candidates := [])) && Stuck(ApplyPass(rs, seat).rs)
  {
  }

  /**
   * A refused action changes nothing, except that a discard of a tile that is not there takes the
   * drawn tile into the hand, and the last pass on a robbed kong closes the window for good.
   */
  lemma RefusalEffect(rs: Round, a: Action)
    requires Inv(rs) && !Step(rs, a).ok
    ensures DiscardsUnheld(rs, a) ==> Step(rs, a).rs == TakePendingDraw(rs, rs.turn)
    ensures DeadPasser(rs, a) < 4 ==> Stuck(Step(rs, a).rs)
    ensures !DiscardsUnheld(rs, a) && DeadPasser(rs, a) == 4 ==> Step(rs, a).rs == rs
  {
    AcceptedIffAllowed(rs, a);
    match a
    case DoExchange(seat, ts, wanted) => OpeningAccepted(rs, seat, ExchangeStep, ts, wanted, 0, false);
    case DoMissing(seat, suit) => OpeningAccepted(rs, seat, MissingStep, [], 0, suit, false);
    case DoDiscard(seat, t) => DiscardAccepted(rs, seat, t);
    case DoPong(seat) =>
    case DoChi(seat, named) => NoChiClaim(rs, seat);
    case DoGang(seat, t) =>
    case DoHu(seat) =>
    case DoPass(seat) => if DeadPass(rs, seat) && MayPass(rs, seat) { DeadPassLeaves(rs, seat); }
    case DoTimeout => DeadTimeout(rs);
    case SeatLeaves(seat) =>
  }

  lemma DeadTimeout(rs: Round)
    requires Inv(rs) && !ApplyTimeout(rs).ok
    ensures rs.phase == ClaimPhase ==> DeadPass(rs, Best(rs.candidates).seat) && Stuck(ApplyTimeout(rs).rs)
    ensures rs.phase != ClaimPhase ==> ApplyTimeout(rs).rs == rs
  {
    TimeoutAccepted(rs);
    if rs.phase == ClaimPhase {
      var seat := Best(rs.candidates).seat;
      MarkKeepsInv(rs, seat);
      BestMayPass(rs);
      DeadPassLeaves(MarkSurrendered(rs, seat), seat);
    }
  }

  // ---------- stuck ----------

  /** A stuck hand refuses everything; only players walking away still shows. */
  lemma StuckRefuses(rs: Round, a: Action)
    requires Inv(rs) && Stuck(rs)
    ensures Step(rs, a).ok <==> a.SeatLeaves?
    ensures Step(rs, a).rs == rs.(surrendered := Step(rs, a).rs.surrendered)
  {
    AcceptedIffAllowed(rs, a);
    if !a.SeatLeaves? { RefusalEffect(rs, a); }
  }

  /** From there on it never ends, whatever anybody does and however many timeouts fire. */
  lemma {:induction false} StuckForever(rs: Round, acts: seq<Action>)
    requires Inv(rs) && Stuck(rs)
    ensures Run(rs, acts) == rs.(surrendered := Run(rs, acts).surrendered)
    decreases |acts|
  {
    if acts != [] {
      StuckRefuses(rs, acts[0]);
      StepKeepsInv(rs, acts[0]);
      StuckForever(Step(rs, acts[0]).rs, acts[1..]);
    }
  }
}
