/** Whether a seat that has won is left out of the turns that follow. */
module RoundOrder {
  import opened Tiles
  import opened Walls
  import opened Rounds
  import opened RoundInv
  import opened RoundTiles
  import opened RoundCoherence
  import opened RoundRefusals
  import opened RoundRuns
  import opened RoundDraws
  import opened RoundOffers
  import opened RoundPay
  import opened RoundKongs
  import opened RoundFlow
  import opened RoundEffects
  import Deals
  import RoundScenes

  /** The seat at turn has not won, nor has the one whose tile is on offer. */
  predicate Orderly(rs: Round) {
    rs.closed || (!HasWon(rs, rs.turn) && (rs.phase == ClaimPhase ==> !HasWon(rs, rs.lastDiscardSeat)))
  }

  /**
   * The winner stays at turn: another seat may still win on the tile, and it was the winner's turn
   * next; or nobody else is left in play.
   */
  ghost predicate KeepsTurn(rs: Round, a: Action) {
    && a.DoHu? && 0 <= a.seat < 4 && |rs.wins| < 2 && rs.wall != []
    && if rs.phase == ClaimPhase then a.seat == rs.turn && AnotherWins(rs, a.seat)
       else forall s: Seat :: s != a.seat ==> !InPlay(rs, s)
  }

  // ---------- who has won after a win ----------

  lemma WonAfter(a: Round, b: Round, e: WinEvent, s: int)
    requires b.wins == a.wins + [e]
    ensures HasWon(b, s) <==> HasWon(a, s) || s == e.seat
  {
    if HasWon(a, s) {
      var i :| 0 <= i < |a.wins| && a.wins[i].seat == s;
      assert b.wins[i].seat == s;
    }
    if s == e.seat { assert b.wins[|a.wins|].seat == s; }
  }

  lemma WonThen(rs: Round, r1: Round, s: Seat)
    requires WinBooked(rs, r1, s, WinFan(rs, s))
    ensures forall u: int :: HasWon(r1, u) <==> HasWon(rs, u) || u == s
  {
    forall u: int ensures HasWon(r1, u) <==> HasWon(rs, u) || u == s {
      WonAfter(rs, r1, r1.wins[|rs.wins|], u);
    }
  }

  lemma NextHasNotWon(rs: Round, from: Seat, s: Seat)
    requires NextInPlay(rs, from, s) && s != from
    ensures !HasWon(rs, s)
  {
    InPlayIsActive(rs, s);
  }

  lemma ClaimedWinOrder(rs: Round, s: Seat, r1: Round)
    requires Inv(rs) && Orderly(rs) && rs.phase == ClaimPhase && s != rs.lastDiscardSeat
    requires WinBooked(rs, r1, s, WinFan(rs, s)) && WonOn(rs, s, r1)
    ensures !Orderly(r1) <==> KeepsTurn(rs, DoHu(s))
    ensures !Orderly(r1) ==> r1.turn == s && r1.phase == ClaimPhase
  {
    WonThen(rs, r1, s);
    if !r1.closed && !AnotherWins(rs, s) && r1.turn != rs.lastDiscardSeat { NextHasNotWon(r1, rs.lastDiscardSeat, r1.turn); }
  }

  lemma DrawnWinOrder(rs: Round, s: Seat, r1: Round)
    requires Inv(rs) && Orderly(rs) && rs.phase == TsumoPhase
    requires WinBooked(rs, r1, s, WinFan(rs, s)) && WonOn(rs, s, r1)
    ensures !Orderly(r1) <==> KeepsTurn(rs, DoHu(s))
    ensures !Orderly(r1) ==> r1.turn == s
  {
    WonThen(rs, r1, s);
    forall u: Seat ensures u != s ==> (InPlay(r1, u) <==> InPlay(rs, u)) {
      InPlayIsActive(r1, u);
      InPlayIsActive(rs, u);
    }
    if !r1.closed && r1.turn != s { NextHasNotWon(r1, s, r1.turn); }
  }

  // ---------- every other action ----------

  lemma PassOrder(rs: Round, s: Seat, r1: Round)
    requires Orderly(rs) && !rs.closed && PassedOn(rs, s, r1) && (rs.phase == TsumoPhase || rs.phase == ClaimPhase)
    ensures Orderly(r1)
  {
  }

  lemma WindowTimeoutOrder(rs: Round, r1: Round)
    requires Orderly(rs) && !rs.closed && rs.phase == ClaimPhase && TimedOut(rs, r1)
    ensures Orderly(r1)
  {
    var i: nat :| AskedFirst(rs, i) && PassedOn(WithoutSeat(rs, rs.candidates[i].seat), rs.candidates[i].seat, r1);
    PassOrder(WithoutSeat(rs, rs.candidates[i].seat), rs.candidates[i].seat, r1);
  }

  lemma TurnTimeoutOrder(rs: Round, r1: Round)
    requires TurnGivenUp(rs, r1)
    ensures Orderly(r1)
  {
    if !r1.closed { InPlayIsActive(WithoutSeat(rs, rs.turn), r1.turn); }
  }

  lemma TimeoutOrder(rs: Round, r1: Round)
    requires Inv(rs) && Orderly(rs) && !rs.closed && rs.phase != Idle && TimedOut(rs, r1)
    ensures Orderly(r1)
  {
    if rs.phase == ClaimPhase { WindowTimeoutOrder(rs, r1); }
    else if rs.phase != OpeningPhase { TurnTimeoutOrder(rs, r1); }
  }

  lemma DiscardOrder(rs: Round, s: Seat, t: Tile, r1: Round)
    requires Orderly(rs) && !rs.closed && s == rs.turn && Discarded(rs, s, t, r1) && DiscardAsked(rs, s, t, r1)
    ensures Orderly(r1)
  {
    if rs.wall != [] && r1.turn != s { NextHasNotWon(rs, s, r1.turn); }
  }

  lemma PaidKongOrder(rs: Round, b: Round, g: GangRecord, t: Tile, copies: nat)
    requires !HasWon(rs, g.seat) && KongBooked(rs, b, g) && Replaced(rs, b, g.seat, t, copies)
    ensures Orderly(b)
  {
  }

  lemma KongOrder(rs: Round, s: Seat, t: Tile, r1: Round)
    requires !HasWon(rs, s) && (rs.phase == DiscardPhase ==> s == rs.turn)
    requires (rs.phase == ClaimPhase || rs.phase == DiscardPhase) && Konged(rs, s, t, r1)
    ensures Orderly(r1)
  {
    if rs.phase == ClaimPhase {
      PaidKongOrder(rs, r1, GangRecord(s, GangMing, rs.lastDiscard, rs.lastDiscardSeat, rs.step), rs.lastDiscard, 3);
    } else if !LaidPong(rs, s, t) {
      PaidKongOrder(rs, r1, GangRecord(s, GangAn, t, NO_SEAT, rs.step), t, 4);
    } else if !MayBeRobbed(rs, s, t) {
      PaidKongOrder(rs, r1, GangRecord(s, GangBu, t, NO_SEAT, rs.step), t, 1);
    }
  }

  lemma OpeningOrder(rs: Round, a: Action, r1: Round)
    requires Orderly(rs) && !rs.closed && Effect(rs, a, r1) && (a.DoExchange? || a.DoMissing?)
    ensures Orderly(r1)
  {
  }

  lemma PongOrder(rs: Round, s: Seat, r1: Round)
    requires !HasWon(rs, s) && Ponged(rs, s, r1)
    ensures Orderly(r1)
  {
  }

  lemma OthersKeepOrder(rs: Round, a: Action, r1: Round)
    requires Inv(rs) && Orderly(rs) && !rs.closed && Effect(rs, a, r1) && Allowed(rs, a) && !a.DoHu?
    ensures Orderly(r1)
  {
    if a.DoExchange? || a.DoMissing? { OpeningOrder(rs, a, r1); }
    else if a.DoDiscard? { DiscardOrder(rs, a.seat, a.tile, r1); }
    else if a.DoPong? { PongOrder(rs, a.seat, r1); }
    else if a.DoGang? { SelfKongGuards(rs, a.seat, a.tile); KongOrder(rs, a.seat, a.tile, r1); }
    else if a.DoPass? { PassOrder(rs, a.seat, r1); }
    else if a.DoTimeout? { TimeoutOrder(rs, r1); }
  }

  /**
   * A winner is left out of the turns that follow, with one exception that can be told before the
   * win: it was the winner's turn next and another seat may still win on the tile, or nobody else is
   * left in play. Then the turn stays with the winner.
   */
  lemma WinnerKeepsTurnIff(rs: Round, a: Action)
    requires Inv(rs) && Orderly(rs) && !rs.closed && Step(rs, a).ok
    ensures !Orderly(Step(rs, a).rs) <==> KeepsTurn(rs, a)
    ensures KeepsTurn(rs, a) ==> Step(rs, a).rs.turn == a.seat
  {
    var r1 := Step(rs, a).rs;
    StepHasEffect(rs, a);
    AcceptedIffAllowed(rs, a);
    if a.DoHu? {
      HuGuard(rs, a.seat);
      if rs.phase == ClaimPhase { ClaimedWinOrder(rs, a.seat, r1); } else { DrawnWinOrder(rs, a.seat, r1); }
    } else {
      OthersKeepOrder(rs, a, r1);
    }
  }

  /** No step of the run is such a win. */
  ghost predicate NoWinnerStays(rs: Round, acts: seq<Action>)
    decreases |acts|
  {
    acts == [] || ((Step(rs, acts[0]).ok ==> !KeepsTurn(rs, acts[0])) && NoWinnerStays(Step(rs, acts[0]).rs, acts[1..]))
  }

  lemma RefusedKeepsOrder(rs: Round, a: Action)
    requires Inv(rs) && Orderly(rs) && !Step(rs, a).ok
    ensures Orderly(Step(rs, a).rs)
  {
    RefusalEffect(rs, a);
  }

  lemma ClosedStays(rs: Round, a: Action)
    requires Inv(rs) && rs.closed
    ensures Step(rs, a).rs.closed
  {
    AcceptedIffAllowed(rs, a);
    if !Step(rs, a).ok { RefusalEffect(rs, a); }
  }

  lemma StepKeepsOrder(rs: Round, a: Action)
    requires Inv(rs) && Orderly(rs) && (Step(rs, a).ok ==> !KeepsTurn(rs, a))
    ensures Orderly(Step(rs, a).rs)
  {
    if rs.closed { ClosedStays(rs, a); }
    else if Step(rs, a).ok { WinnerKeepsTurnIff(rs, a); }
    else { RefusedKeepsOrder(rs, a); }
  }

  lemma {:induction false} RunKeepsOrder(rs: Round, acts: seq<Action>)
    requires Inv(rs) && Orderly(rs) && NoWinnerStays(rs, acts)
    ensures Orderly(Run(rs, acts))
    decreases |acts|
  {
    if acts != [] {
      StepKeepsOrder(rs, acts[0]);
      StepKeepsInv(rs, acts[0]);
      RunKeepsOrder(Step(rs, acts[0]).rs, acts[1..]);
    }
  }

  /** From the deal on, unless such a win happens, no seat that has won is at turn. */
  lemma WinnersAreLeftOut(wall: seq<Tile>, withExchange: bool, acts: seq<Action>)
    requires IsFullWall(wall) && NoWinnerStays(StartRound(wall, withExchange).rs, acts)
    ensures var rs := Run(StartRound(wall, withExchange).rs, acts); !rs.closed ==> !HasWon(rs, rs.turn)
  {
    StartIsInv(wall, withExchange);
    RunKeepsOrder(StartRound(wall, withExchange).rs, acts);
  }

  // ---------- a winner who has to play on ----------

  /** Seat 0 has discarded, it is seat 1's turn next, seats 1 and 2 win on the tile, seat 3 may pong it. */
  ghost predicate TwoMayWin(rs: Round) {
    Inv(rs) && rs.turn == 1 && RoundScenes.OnOffer(rs, [RoundScenes.Winner(1), RoundScenes.Winner(2), RoundScenes.PONGER])
  }

  lemma FirstMayWin(rs: Round)
    requires TwoMayWin(rs)
    ensures Step(rs, DoHu(1)).ok && AnotherWins(rs, 1) && Answers(rs, 0, 1)
  {
    assert rs.candidates[0] == RoundScenes.Winner(1) && rs.candidates[1] == RoundScenes.Winner(2);
    assert Answers(rs, 0, 1) && rs.candidates[0].hu;
    assert RoundScenes.WaitsForLure(rs, 1);
    AnswersAllowed(rs, 1);
    assert rs.candidates[1].seat != 1 && rs.candidates[1].hu;
  }

  lemma FirstWins(rs: Round, r1: Round)
    requires TwoMayWin(rs) && r1 == Step(rs, DoHu(1)).rs
    ensures Inv(r1) && HasWon(r1, 1) && r1.turn == 1 && r1.phase == ClaimPhase && !r1.qiangGang && r1.wall != []
    ensures r1.candidates == [RoundScenes.Winner(2), RoundScenes.PONGER]
  {
    StepKeepsInv(rs, DoHu(1));
    FirstMayWin(rs);
    WinIsPaid(rs, 1);
    WinMovesOn(rs, 1);
    FirstHasWon(rs, r1);
  }

  lemma FirstHasWon(rs: Round, r1: Round)
    requires TwoMayWin(rs) && AnotherWins(rs, 1) && Answers(rs, 0, 1) && WinBooked(rs, r1, 1, WinFan(rs, 1)) && WonOn(rs, 1, r1)
    ensures HasWon(r1, 1) && r1.turn == 1 && r1.phase == ClaimPhase && !r1.qiangGang && r1.wall != []
    ensures r1.candidates == [RoundScenes.Winner(2), RoundScenes.PONGER]
  {
    WonThen(rs, r1, 1);
    var i: nat :| Answers(rs, i, 1) && r1.candidates == rs.candidates[..i] + rs.candidates[i + 1..];
    OneAnswer(rs, 1, 0, i);
  }

  /** The seat at turn has won, and the others may still claim the tile. */
  ghost predicate WonAndAsked(rs: Round, cs: seq<Candidate>) {
    && Inv(rs) && HasWon(rs, 1) && rs.turn == 1 && rs.phase == ClaimPhase && !rs.qiangGang && rs.wall != []
    && rs.candidates == cs
  }

  lemma SecondPasses(rs: Round, r1: Round)
    requires WonAndAsked(rs, [RoundScenes.Winner(2), RoundScenes.PONGER]) && r1 == Step(rs, DoPass(2)).rs
    ensures WonAndAsked(r1, [RoundScenes.PONGER])
  {
    StepKeepsInv(rs, DoPass(2));
    assert rs.candidates[0] == RoundScenes.Winner(2) && rs.candidates[1] == RoundScenes.PONGER;
    assert Answers(rs, 0, 2);
    PassAllowed(rs, 2);
    PassMovesOn(rs, 2);
    var i: nat :| Answers(rs, i, 2) && r1 == rs.(candidates := rs.candidates[..i] + rs.candidates[i + 1..]);
    OneAnswer(rs, 2, 0, i);
  }

  lemma ThirdPasses(rs: Round, r1: Round)
    requires WonAndAsked(rs, [RoundScenes.PONGER]) && r1 == Step(rs, DoPass(3)).rs
    ensures !r1.closed && r1.turn == 1 && HasWon(r1, 1) && r1.phase == DiscardPhase && r1.hands[1] == rs.hands[1] + [rs.wall[0]]
  {
    assert rs.candidates[0] == RoundScenes.PONGER;
    assert Answers(rs, 0, 3);
    PassAllowed(rs, 3);
    PassMovesOn(rs, 3);
    InPlayIsActive(rs, 1);
  }

  const WIN_AND_PASS: seq<Action> := [DoHu(1), DoPass(2), DoPass(3)]

  lemma WinnerPlaysOn(rs: Round)
    requires TwoMayWin(rs)
    ensures var r1 := Run(rs, WIN_AND_PASS); !r1.closed && r1.turn == 1 && HasWon(r1, 1) && r1.phase == DiscardPhase
  {
    var r1 := Step(rs, DoHu(1)).rs;
    FirstWins(rs, r1);
    var r2 := Step(r1, DoPass(2)).rs;
    SecondPasses(r1, r2);
    ThirdPasses(r2, Step(r2, DoPass(3)).rs);
    RoundScenes.ThreeSteps(rs, DoHu(1), DoPass(2), DoPass(3));
  }

  lemma NextAfterLure(rs: Round)
    requires Inv(rs) && RoundScenes.ToDiscard(rs)
    ensures Step(rs, DoDiscard(0, RoundScenes.LURE)).rs.turn == 1
  {
    AcceptedIffAllowed(rs, DoDiscard(0, RoundScenes.LURE));
    DiscardMovesOn(rs, 0, RoundScenes.LURE);
    NextIsOne(rs, Step(rs, DoDiscard(0, RoundScenes.LURE)).rs.turn);
  }

  lemma LureIsNext(rs: Round)
    requires Inv(rs) && RoundScenes.ToDiscard(rs)
    ensures TwoMayWin(Step(rs, DoDiscard(0, RoundScenes.LURE)).rs)
  {
    RoundScenes.LureIsDiscarded(rs);
    StepKeepsInv(rs, DoDiscard(0, RoundScenes.LURE));
    NextAfterLure(rs);
  }

  lemma NextIsOne(rs: Round, s: Seat)
    requires NextInPlay(rs, 0, s) && InPlay(rs, 1)
    ensures s == 1
  {
    assert Places(0, 1) == 1 && Places(0, s) == s;
  }

  lemma PlaysOnFrom(start: Round, wall: seq<Tile>, acts: seq<Action>)
    requires IsFullWall(wall) && start == StartRound(wall, false).rs && RoundScenes.ToDiscard(Run(start, acts))
    ensures var r1 := Run(start, acts + ([DoDiscard(0, RoundScenes.LURE)] + WIN_AND_PASS));
            !r1.closed && r1.turn == 1 && HasWon(r1, 1) && r1.phase == DiscardPhase
  {
    var rs := Run(start, acts);
    RunKeepsInvFrom(start, wall, acts);
    LureIsNext(rs);
    RoundScenes.RunJoin(start, acts, [DoDiscard(0, RoundScenes.LURE)] + WIN_AND_PASS);
    RoundScenes.RunOne(rs, DoDiscard(0, RoundScenes.LURE), WIN_AND_PASS);
    WinnerPlaysOn(Step(rs, DoDiscard(0, RoundScenes.LURE)).rs);
  }

  lemma RunKeepsInvFrom(start: Round, wall: seq<Tile>, acts: seq<Action>)
    requires IsFullWall(wall) && start == StartRound(wall, false).rs
    ensures Inv(Run(start, acts))
  {
    StartIsInv(wall, false);
    RunKeepsInv(start, acts);
  }

  /**
   * From a full wall, in eight actions: two seats may win on a discard, the one whose turn is next
   * does, the others pass, and the winner has drawn and has to discard.
   */
  lemma WinnerDrawsAgain()
    ensures Deals.Enough(RoundScenes.RobbedTables(), [])
    ensures var wall := Deals.WallOf(RoundScenes.RobbedTables(), []);
            var rs := Run(StartRound(wall, false).rs, RoundScenes.NAMES + ([DoDiscard(0, RoundScenes.LURE)] + WIN_AND_PASS));
            IsFullWall(wall) && !rs.closed && rs.turn == 1 && HasWon(rs, 1) && rs.phase == DiscardPhase
  {
    RoundScenes.RobbedIsEnough();
    var c := RoundScenes.RobbedTables();
    NamesReach(c, Deals.WallOf(c, []));
    PlaysOnFrom(StartRound(Deals.WallOf(c, []), false).rs, Deals.WallOf(c, []), RoundScenes.NAMES);
  }

  lemma NamesReach(c: Deals.Tables, wall: seq<Tile>)
    requires Deals.Enough(c, []) && c == RoundScenes.RobbedTables() && wall == Deals.WallOf(c, [])
    ensures IsFullWall(wall) && RoundScenes.ToDiscard(Run(StartRound(wall, false).rs, RoundScenes.NAMES))
  {
    Deals.WallDeals(c, [], false);
    RoundScenes.NamesLeadThere(c);
  }
}
