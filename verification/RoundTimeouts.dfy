/** When timeouts alone bring a hand to its end. */
module RoundTimeouts {
  import opened Tiles
  import opened Walls
  import opened Rounds
  import opened RoundInv
  import opened RoundTiles
  import opened RoundCoherence
  import opened RoundRuns
  import opened RoundProgress
  import opened RoundRefusals

  ghost function Timeouts(rs: Round, n: nat): Round
    decreases n
  {
    if n == 0 then rs else Timeouts(ApplyTimeout(rs).rs, n - 1)
  }

  /**
   * What timeouts alone can finish: not the exchange, because whoever times out there is passed over
   * when the missing suits are named; not a hand whose pending kong was robbed.
   */
  predicate TimeoutsSuffice(rs: Round) {
    || rs.closed
    || match rs.phase
       case Idle => false
       case OpeningPhase =>
         && CurrentStep(rs) == MissingStep
         && forall s: Seat :: rs.opening.missingDone[s] || !rs.surrendered[s]
       case _ => !Robbed(rs)
  }

  lemma DrawSuffices(rs: Round)
    requires Stocked(rs) && !rs.qiangGang
    ensures TimeoutsSuffice(DrawForCurrentTurn(rs).rs)
  {
    DrawCases(rs);
  }

  lemma FinishGangSuffices(rs: Round, seat: Seat)
    requires Stocked(rs)
    ensures TimeoutsSuffice(FinishGang(rs, seat).rs)
  {
    var r1 := ToDraw(rs, seat);
    assert SameTable(rs, r1);
    forall t: Tile ensures Amount(r1, t) <= Supply(t) { assert Amount(rs, t) <= Supply(t); }
    DrawSuffices(r1);
    assert FinishGang(rs, seat) == DrawForCurrentTurn(r1);
  }

  lemma AllPassedSuffices(rs: Round)
    requires Stocked(rs) && MeldsOk(rs.melds) && OfferedTileOk(rs) && rs.pendingDraw == NO_TILE && !Robbed(rs)
    ensures TimeoutsSuffice(AllPassed(rs).rs)
  {
    var r1 := ClearClaimWindow(rs);
    assert SameTable(rs, r1) && SameAmount(rs, r1);
    if rs.qiangGang {
      CompleteBuGangTiles(r1, rs.pendingGangSeat, rs.pendingGangTile);
      var r2 := CompleteBuGang(r1, rs.pendingGangSeat, rs.pendingGangTile).rs.(turn := rs.pendingGangSeat);
      assert SameAmount(rs, r2);
      SameAmountStocked(rs, r2);
      FinishGangSuffices(r2, rs.pendingGangSeat);
    } else {
      SameAmountStocked(rs, CloseOpeningClaim(r1));
      DrawSuffices(CloseOpeningClaim(r1));
    }
  }

  /** A pass by a top candidate keeps a hand on the side where it is. */
  lemma PassKeepsSide(rs: Round, seat: int)
    requires Inv(rs) && rs.phase == ClaimPhase && IsTop(rs, seat) && 0 <= seat < 4
    ensures TimeoutsSuffice(ApplyPass(rs, seat).rs) <==> TimeoutsSuffice(rs)
  {
    var r1 := rs.(candidates := RemoveCandidate(rs.candidates, seat));
    assert SameTable(rs, r1) && SameAmount(rs, r1);
    SameAmountStocked(rs, r1);
    assert Robbed(rs) == Robbed(r1);
    if r1.candidates == [] {
      if Robbed(rs) { DeadPassLeaves(rs, seat); } else { AllPassedSuffices(r1); }
    }
  }

  lemma SurrenderTurnSuffices(rs: Round)
    requires Inv(rs) && (rs.phase == TsumoPhase || rs.phase == DiscardPhase)
    ensures TimeoutsSuffice(SurrenderTurn(rs).rs)
  {
    var r1 := CloseOpeningClaim(ClearClaimWindow(MarkSurrendered(rs, rs.turn).(pendingDraw := NO_TILE, currentDraw := NO_TILE)));
    var r2 := r1.(turn := NextActive(r1, rs.turn), phase := Idle);
    forall t: Tile ensures Amount(r2, t) <= Supply(t) { assert Amount(rs, t) <= Supply(t); }
    DrawSuffices(r2);
  }

  lemma MissingKeepsSide(rs: Round, seat: Seat)
    requires Inv(rs) && rs.phase == OpeningPhase && CurrentStep(rs) == MissingStep
    requires !rs.opening.missingDone[seat] && !rs.surrendered[seat]
    ensures TimeoutsSuffice(ApplyMissing(MarkSurrendered(rs, seat), seat, 0, true).rs) <==> TimeoutsSuffice(rs)
  {
    var r1 := NoteMissing(MarkSurrendered(rs, seat), seat, 0, true);
    if AllDone(r1.opening.missingDone) {
      assert forall s: Seat :: s != seat ==> rs.opening.missingDone[s] by {
        forall s: Seat | s != seat ensures rs.opening.missingDone[s] { assert r1.opening.missingDone[s]; }
      }
      var r2 := r1.(phase := Idle);
      assert SameTable(rs, r2) && SameAmount(rs, r2);
      SameAmountStocked(rs, r2);
      DrawSuffices(r2);
    } else {
      var r2 := r1.(phase := OpeningPhase);
      assert forall s: Seat :: s != seat ==>
        r2.opening.missingDone[s] == rs.opening.missingDone[s] && r2.surrendered[s] == rs.surrendered[s];
      assert r2.opening.missingDone[seat];
    }
  }

  lemma ExchangeKeepsSide(rs: Round, seat: Seat)
    requires Inv(rs) && rs.phase == OpeningPhase && CurrentStep(rs) == ExchangeStep && !rs.opening.exchangeDone[seat]
    ensures !TimeoutsSuffice(ApplyExchange(MarkSurrendered(rs, seat), seat, [], 0, true).rs)
  {
    var r1 := ApplyExchange(MarkSurrendered(rs, seat), seat, [], 0, true).rs;
    assert r1.surrendered[seat] && !r1.opening.missingDone[seat];
  }

  /** Timeouts never lead from a hand they can finish to one they cannot, nor back. */
  lemma TimeoutKeepsSide(rs: Round)
    requires Inv(rs)
    ensures TimeoutsSuffice(ApplyTimeout(rs).rs) <==> TimeoutsSuffice(rs)
    ensures TimeoutsSuffice(rs) && !rs.closed ==> ApplyTimeout(rs).ok
  {
    TimeoutAccepted(rs);
    if rs.closed || rs.phase == Idle {
    } else if rs.phase == OpeningPhase {
      var seat := FirstWaiting(Submitted(rs), rs.surrendered);
      if seat < 4 {
        if CurrentStep(rs) == ExchangeStep { ExchangeKeepsSide(rs, seat); } else { MissingKeepsSide(rs, seat); }
      } else {
        OpeningWaits(rs);
      }
    } else if rs.phase == ClaimPhase {
      var seat := Best(rs.candidates).seat;
      MarkKeepsInv(rs, seat);
      BestMayPass(rs);
      PassKeepsSide(MarkSurrendered(rs, seat), seat);
    } else {
      SurrenderTurnSuffices(rs);
    }
  }

  lemma OpeningWaits(rs: Round)
    requires Inv(rs) && rs.phase == OpeningPhase && FirstWaiting(Submitted(rs), rs.surrendered) == 4
    ensures !TimeoutsSuffice(rs)
  {
    if CurrentStep(rs) == MissingStep {
      var done := rs.opening.missingDone;
      var s: Seat := if !done[0] then 0 else if !done[1] then 1 else if !done[2] then 2 else 3;
      assert !done[s] && rs.surrendered[s];
    }
  }

  lemma TimeoutKeepsInv(rs: Round, r1: Round)
    requires Inv(rs) && r1 == ApplyTimeout(rs).rs
    ensures Inv(r1)
  {
    StepKeepsInv(rs, DoTimeout);
  }

  lemma TimeoutAdvances(rs: Round, r1: Round)
    requires Inv(rs) && TimeoutsSuffice(rs) && r1 == ApplyTimeout(rs).rs
    ensures Inv(r1) && TimeoutsSuffice(r1) && (Measure(r1) < Measure(rs) || Measure(r1) == 0)
  {
    TimeoutKeepsSide(rs);
    TimeoutLess(rs);
    TimeoutKeepsInv(rs, r1);
  }

  lemma {:induction false} TimeoutsEnd(rs: Round, n: nat)
    requires Inv(rs) && TimeoutsSuffice(rs) && n >= Measure(rs)
    ensures Timeouts(rs, n).closed
    decreases n
  {
    if n > 0 {
      var r1 := ApplyTimeout(rs).rs;
      TimeoutAdvances(rs, r1);
      TimeoutsEnd(r1, n - 1);
    }
  }

  lemma {:induction false} TimeoutsNeverEnd(rs: Round, n: nat)
    requires Inv(rs) && !TimeoutsSuffice(rs)
    ensures !Timeouts(rs, n).closed
    decreases n
  {
    if n > 0 {
      TimeoutKeepsSide(rs);
      TimeoutKeepsInv(rs, ApplyTimeout(rs).rs);
      TimeoutsNeverEnd(ApplyTimeout(rs).rs, n - 1);
    }
  }

  /** Timeouts alone close a hand, and then within its measure, exactly when they suffice for it. */
  lemma TimeoutsCloseIff(rs: Round)
    requires Inv(rs)
    ensures Timeouts(rs, Measure(rs)).closed <==> TimeoutsSuffice(rs)
    ensures (exists n: nat :: Timeouts(rs, n).closed) <==> TimeoutsSuffice(rs)
  {
    if TimeoutsSuffice(rs) {
      TimeoutsEnd(rs, Measure(rs));
    } else {
      forall n: nat ensures !Timeouts(rs, n).closed { TimeoutsNeverEnd(rs, n); }
    }
  }

  /** A hand that begins with the exchange is never finished by timeouts alone; without it, always. */
  lemma TimeoutsFromTheDeal(wall: seq<Tile>, withExchange: bool)
    requires IsFullWall(wall)
    ensures TimeoutsSuffice(StartRound(wall, withExchange).rs) <==> !withExchange
  {
    StartIsInv(wall, withExchange);
  }

  // ---------- how a hand gets stuck ----------

  lemma AcceptedIsNotStuck(rs: Round, a: Action)
    requires Inv(rs) && !Stuck(rs) && Step(rs, a).ok
    ensures !Stuck(Step(rs, a).rs)
  {
    StepMovesOn(rs, a);
  }

  lemma AcceptedIsAllowed(rs: Round, a: Action)
    requires Inv(rs) && Step(rs, a).ok
    ensures DeadPasser(rs, a) == 4
  {
    AcceptedIffAllowed(rs, a);
  }

  lemma RefusedOrStuck(rs: Round, a: Action)
    requires Inv(rs) && !Stuck(rs) && !Step(rs, a).ok
    ensures Stuck(Step(rs, a).rs) <==> DeadPasser(rs, a) < 4
  {
    RefusalEffect(rs, a);
  }

  /** The only way into a stuck hand is the last pass on a kong that was robbed before. */
  lemma StuckOnlyByDeadPass(rs: Round, a: Action)
    requires Inv(rs) && !Stuck(rs)
    ensures Stuck(Step(rs, a).rs) <==> DeadPasser(rs, a) < 4
  {
    if Step(rs, a).ok {
      AcceptedIsNotStuck(rs, a);
      AcceptedIsAllowed(rs, a);
    } else {
      RefusedOrStuck(rs, a);
    }
  }
}
