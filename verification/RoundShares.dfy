/** The share of tiles of each seat, from the deal on. */
module RoundShares {
  import opened Tiles
  import opened Walls
  import opened Rounds
  import opened RoundInv
  import opened RoundTiles
  import opened RoundCoherence
  import opened RoundRuns
  import opened RoundRefusals
  import opened RoundHands
  import opened OpeningChoice

  /** Each seat has given away as many tiles as g says and received those of the seat `offset` places on. */
  predicate Swaps(share: Shares, g: Shares, offset: nat) {
    1 <= offset <= 3 && forall s: Seat :: (g[s] == 0 || g[s] == 3) && share[s] == 13 - g[s] + g[GiverOf(s, offset)]
  }

  /** Thirteen each; after an exchange a seat that gave nothing has more, and the one it gives to less. */
  ghost predicate FromDeal(withExchange: bool, share: Shares) {
    if withExchange then exists g: Shares, offset: nat :: Swaps(share, g, offset) else share == [13, 13, 13, 13]
  }

  predicate Unswapped(rs: Round, s: Seat) {
    |rs.hands[s]| == 13 && rs.melds[s] == [] && (|rs.opening.selections[s]| == 0 || |rs.opening.selections[s]| == 3)
  }

  /** What the seats hold during the opening. */
  ghost predicate OpeningSizes(rs: Round) {
    && (forall s: Seat :: rs.melds[s] == [])
    && if CurrentStep(rs) == ExchangeStep then forall s: Seat :: Unswapped(rs, s) else FromDeal(rs.withExchange, Sizes(rs))
  }

  // ---------- the exchange ----------

  lemma NotedSizes(rs: Round, seat: Seat, own: seq<Tile>, direction: int)
    requires (forall s: Seat :: Unswapped(rs, s)) && (|own| == 0 || |own| == 3)
    ensures var r1 := rs.(opening := NoteSelection(rs.opening, seat, own, direction), phase := OpeningPhase);
            forall s: Seat :: Unswapped(r1, s)
  {
    var r1 := rs.(opening := NoteSelection(rs.opening, seat, own, direction), phase := OpeningPhase);
    forall s: Seat ensures Unswapped(r1, s) { assert Unswapped(rs, s); }
  }

  function Given(sel: Piles): Shares { [|sel[0]|, |sel[1]|, |sel[2]|, |sel[3]|] }

  lemma ExchangeKeepsMelds(rs: Round, seat: Seat, ts: seq<Tile>, wanted: int, surrender: bool)
    ensures ApplyExchange(rs, seat, ts, wanted, surrender).rs.melds == rs.melds
  {
  }

  lemma GivenIs(sel: Piles, s: Seat)
    ensures Given(sel)[s] == |sel[s]|
  {
  }

  lemma SwappedSize(rs: Round, seat: Seat, ts: seq<Tile>, wanted: int, surrender: bool, s: Seat, giver: Seat, sel: Piles)
    requires Inv(rs) && rs.phase == OpeningPhase && CurrentStep(rs) == ExchangeStep && Unswapped(rs, s)
    requires ApplyExchange(rs, seat, ts, wanted, surrender).ok && AllDone(rs.opening.exchangeDone[seat := true])
    requires sel == rs.opening.selections[seat := if surrender then [] else ts] && giver == GiverOf(s, Offset(Direction(rs, wanted)))
    ensures (|sel[s]| == 0 || |sel[s]| == 3)
    ensures Weight(ApplyExchange(rs, seat, ts, wanted, surrender).rs, s) == 13 - |sel[s]| + |sel[giver]|
  {
    ExchangeResult(rs, seat, ts, wanted, surrender, s);
    ExchangeKeepsMelds(rs, seat, ts, wanted, surrender);
  }

  lemma SwappedSizes(rs: Round, seat: Seat, ts: seq<Tile>, wanted: int, surrender: bool)
    requires Inv(rs) && rs.phase == OpeningPhase && CurrentStep(rs) == ExchangeStep && OpeningSizes(rs)
    requires ApplyExchange(rs, seat, ts, wanted, surrender).ok && AllDone(rs.opening.exchangeDone[seat := true])
    ensures FromDeal(true, Sizes(ApplyExchange(rs, seat, ts, wanted, surrender).rs))
  {
    var sel: Piles := rs.opening.selections[seat := if surrender then [] else ts];
    var g, offset := Given(sel), Offset(Direction(rs, wanted));
    var r1 := ApplyExchange(rs, seat, ts, wanted, surrender).rs;
    forall s: Seat ensures (g[s] == 0 || g[s] == 3) && Weight(r1, s) == 13 - g[s] + g[GiverOf(s, offset)] {
      assert Unswapped(rs, s);
      SwappedSize(rs, seat, ts, wanted, surrender, s, GiverOf(s, offset), sel);
      GivenIs(sel, s);
      GivenIs(sel, GiverOf(s, offset));
    }
    SwapsOf(r1, g, offset);
  }

  lemma SwapsOf(r1: Round, g: Shares, offset: nat)
    requires 1 <= offset <= 3
    requires forall s: Seat :: (g[s] == 0 || g[s] == 3) && Weight(r1, s) == 13 - g[s] + g[GiverOf(s, offset)]
    ensures Swaps(Sizes(r1), g, offset)
  {
  }

  lemma ExchangeKeeps(rs: Round, seat: Seat, ts: seq<Tile>, wanted: int, surrender: bool)
    requires Inv(rs) && rs.phase == OpeningPhase && CurrentStep(rs) == ExchangeStep && OpeningSizes(rs)
    requires ApplyExchange(rs, seat, ts, wanted, surrender).ok
    ensures var r1 := ApplyExchange(rs, seat, ts, wanted, surrender).rs;
            OpeningSizes(r1) && r1.withExchange == rs.withExchange && r1.phase == OpeningPhase
  {
    var own := if surrender then [] else ts;
    NotedSizes(rs, seat, own, Direction(rs, wanted));
    if AllDone(rs.opening.exchangeDone[seat := true]) { SwappedSizes(rs, seat, ts, wanted, surrender); }
  }

  // ---------- the missing suits ----------

  lemma MissingKeeps(rs: Round, seat: Seat, suit: int, surrender: bool)
    requires rs.phase == OpeningPhase && CurrentStep(rs) == MissingStep && OpeningSizes(rs)
    ensures var r1 := ApplyMissing(rs, seat, suit, surrender).rs;
            (r1.phase == OpeningPhase && !AllDone(NoteMissing(rs, seat, suit, surrender).opening.missingDone))
            ==> (OpeningSizes(r1) && r1.withExchange == rs.withExchange)
  {
    var r1 := NoteMissing(rs, seat, suit, surrender).(phase := OpeningPhase);
    assert Sizes(r1) == Sizes(rs);
  }

  lemma LastNameEnds(rs: Round, seat: Seat, suit: int, surrender: bool)
    requires Inv(rs) && rs.phase == OpeningPhase && CurrentStep(rs) == MissingStep && !rs.opening.missingDone[seat]
    requires AllDone(NoteMissing(rs, seat, suit, surrender).opening.missingDone)
    ensures ApplyMissing(rs, seat, suit, surrender).rs.phase != OpeningPhase
  {
    var r2 := NoteMissing(rs, seat, suit, surrender).(phase := Idle);
    assert SameTable(rs, r2) && SameAmount(rs, r2);
    SameAmountStocked(rs, r2);
    DrawCases(r2);
  }

  lemma MarkKeeps(rs: Round, seat: Seat)
    requires OpeningSizes(rs)
    ensures OpeningSizes(MarkSurrendered(rs, seat))
  {
    var r1 := MarkSurrendered(rs, seat);
    assert Sizes(r1) == Sizes(rs);
    if CurrentStep(rs) == ExchangeStep {
      forall s: Seat ensures Unswapped(r1, s) { assert Unswapped(rs, s); }
    }
  }

  /** What an opening action keeps while the opening lasts. */
  lemma SubmitKeeps(rs: Round, seat: Seat, step: OpeningStep, ts: seq<Tile>, wanted: int, suit: int, surrender: bool)
    requires Inv(rs) && rs.phase == OpeningPhase && OpeningSizes(rs)
    requires ApplyOpening(rs, seat, step, ts, wanted, suit, surrender).ok
    ensures var r1 := ApplyOpening(rs, seat, step, ts, wanted, suit, surrender).rs;
            if r1.phase == OpeningPhase then OpeningSizes(r1) && r1.withExchange == rs.withExchange else CurrentStep(rs) == MissingStep
  {
    if step == ExchangeStep {
      ExchangeKeeps(rs, seat, ts, wanted, surrender);
    } else {
      MissingKeeps(rs, seat, suit, surrender);
      if AllDone(NoteMissing(rs, seat, suit, surrender).opening.missingDone) { LastNameEnds(rs, seat, suit, surrender); }
    }
  }

  lemma TimeoutKeeps(rs: Round)
    requires Inv(rs) && rs.phase == OpeningPhase && OpeningSizes(rs) && ApplyTimeout(rs).ok
    ensures var r1 := ApplyTimeout(rs).rs;
            if r1.phase == OpeningPhase then OpeningSizes(r1) && r1.withExchange == rs.withExchange else CurrentStep(rs) == MissingStep
  {
    var seat := FirstWaiting(Submitted(rs), rs.surrendered);
    MarkKeepsInv(rs, seat);
    MarkKeeps(rs, seat);
    SubmitKeeps(MarkSurrendered(rs, seat), seat, CurrentStep(rs), [], 0, 0, true);
  }

  lemma OpeningStepKeeps(rs: Round, a: Action)
    requires Inv(rs) && rs.phase == OpeningPhase && OpeningSizes(rs)
    ensures var r1 := Step(rs, a).rs;
            if r1.phase == OpeningPhase then OpeningSizes(r1) && r1.withExchange == rs.withExchange else CurrentStep(rs) == MissingStep
  {
    AcceptedIffAllowed(rs, a);
    if !Step(rs, a).ok {
      RefusalEffect(rs, a);
    } else {
      match a
      case DoExchange(seat, ts, wanted) => SubmitKeeps(rs, seat, ExchangeStep, ts, wanted, 0, false);
      case DoMissing(seat, suit) => SubmitKeeps(rs, seat, MissingStep, [], 0, suit, false);
      case DoTimeout => TimeoutKeeps(rs);
      case SeatLeaves(seat) => MarkKeeps(rs, seat);
      case _ =>
    }
  }

  // ---------- from the deal ----------

  lemma {:induction false} RunFromOpening(rs: Round, acts: seq<Action>)
    requires Inv(rs) && rs.phase == OpeningPhase && OpeningSizes(rs)
    ensures Run(rs, acts).phase != OpeningPhase ==>
              exists share: Shares :: FromDeal(rs.withExchange, share) && SizeLaw(Run(rs, acts), share)
    decreases |acts|
  {
    if acts != [] {
      var r1 := Step(rs, acts[0]).rs;
      StepKeepsInv(rs, acts[0]);
      OpeningStepKeeps(rs, acts[0]);
      if r1.phase == OpeningPhase {
        RunFromOpening(r1, acts[1..]);
      } else {
        OpeningFixesSizes(rs, acts[0]);
        RunKeepsSizes(r1, acts[1..], Sizes(rs));
      }
    }
  }

  /**
   * From the deal of a full wall through any actions: once the opening is over, every seat that has
   * not surrendered holds its share, and one more exactly when it is due. Without the exchange the
   * shares are thirteen each; with it they are what the swap of three or no tiles leaves of thirteen.
   */
  lemma SharesFromTheDeal(wall: seq<Tile>, withExchange: bool, acts: seq<Action>)
    requires IsFullWall(wall)
    ensures var rs := Run(StartRound(wall, withExchange).rs, acts);
            rs.phase != OpeningPhase ==> exists share: Shares :: FromDeal(withExchange, share) && SizeLaw(rs, share)
  {
    StartIsInv(wall, withExchange);
    var rs := StartRound(wall, withExchange).rs;
    forall s: Seat ensures Unswapped(rs, s) && rs.melds[s] == [] { assert |rs.hands[s]| == 13; }
    assert !withExchange ==> Sizes(rs) == [13, 13, 13, 13];
    RunFromOpening(rs, acts);
  }
}
