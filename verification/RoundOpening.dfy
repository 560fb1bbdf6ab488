/** What the two steps of the opening do to the hands and the missing suits. */
module RoundOpening {
  import opened Tiles
  import opened Rounds
  import opened RoundInv
  import opened RoundTiles
  import opened RoundRefusals
  import opened RoundDraws
  import opened RoundOffers
  import opened OpeningChoice

  // ---------- the exchange ----------

  /** The direction that the exchange has from now on: the first valid wish, or three places on. */
  function Fixed(rs: Round, wanted: int): int {
    if rs.opening.direction >= 0 then rs.opening.direction else if 1 <= wanted <= 3 then wanted else 3
  }

  /** How many places on the giver sits. */
  function GiverPlaces(direction: int): nat { if direction == 1 then 1 else if direction == 2 then 2 else 3 }

  /** The hand has given its own selection away and received the one of the seat so many places on. */
  ghost predicate Swaps(hands: Piles, after: Piles, sel: Piles, places: nat, s: Seat) {
    forall giver: Seat :: Places(s, giver) == places ==>
      && |after[s]| == |hands[s]| - |sel[s]| + |sel[giver]|
      && forall t: Tile :: Num(after[s], t) == Num(hands[s], t) - Num(sel[s], t) + Num(sel[giver], t)
  }

  /** The seat's selection is noted, and the last one makes everybody swap. */
  ghost predicate Selected(rs: Round, r1: Round, s: Seat, ts: seq<Tile>, direction: int) {
    var sel := rs.opening.selections[s := ts];
    && SameBooks(rs.(opening := r1.opening), r1) && r1.wall == rs.wall && !r1.closed && r1.phase == OpeningPhase
    && r1.opening.exchangeDone == rs.opening.exchangeDone[s := true] && r1.opening.direction == direction
    && r1.opening.missingDone == rs.opening.missingDone && r1.opening.missingSuits == rs.opening.missingSuits
    && if AllDone(r1.opening.exchangeDone) then
         r1.opening.selections == NO_PILES && forall x: Seat :: Swaps(rs.hands, r1.hands, sel, GiverPlaces(direction), x)
       else r1.opening.selections == sel && r1.hands == rs.hands
  }

  lemma GiverSits(s: Seat, direction: int, giver: Seat)
    requires Places(s, giver) == GiverPlaces(direction)
    ensures giver == GiverOf(s, Offset(direction))
  {
  }

  lemma SwapsAll(rs: Round, seat: Seat, ts: seq<Tile>, wanted: int, surrender: bool, x: Seat, r1: Round)
    requires Inv(rs) && rs.phase == OpeningPhase && CurrentStep(rs) == ExchangeStep && (surrender ==> ts == [])
    requires ApplyExchange(rs, seat, ts, wanted, surrender).ok && AllDone(rs.opening.exchangeDone[seat := true])
    requires r1 == ApplyExchange(rs, seat, ts, wanted, surrender).rs
    ensures Swaps(rs.hands, r1.hands, rs.opening.selections[seat := ts], GiverPlaces(Fixed(rs, wanted)), x)
  {
    ExchangeResult(rs, seat, ts, wanted, surrender, x);
    forall giver: Seat | Places(x, giver) == GiverPlaces(Fixed(rs, wanted))
      ensures giver == GiverOf(x, Offset(Direction(rs, wanted)))
    {
      GiverSits(x, Fixed(rs, wanted), giver);
    }
  }

  lemma SelectionNoted(rs: Round, seat: Seat, ts: seq<Tile>, wanted: int, surrender: bool, o: Outcome)
    requires Inv(rs) && rs.phase == OpeningPhase && CurrentStep(rs) == ExchangeStep && (surrender ==> ts == [])
    requires o == ApplyExchange(rs, seat, ts, wanted, surrender) && o.ok
    ensures Selected(rs, o.rs, seat, ts, Fixed(rs, wanted))
  {
    if AllDone(rs.opening.exchangeDone[seat := true]) {
      var sel, places := rs.opening.selections[seat := ts], GiverPlaces(Fixed(rs, wanted));
      forall x: Seat ensures Swaps(rs.hands, o.rs.hands, sel, places, x) {
        SwapsAll(rs, seat, ts, wanted, surrender, x, o.rs);
      }
    }
  }

  /** A submission is noted as it was made; the first one fixes the direction, the last one swaps the hands. */
  lemma ExchangeMovesOn(rs: Round, s: int, ts: seq<Tile>, wanted: int)
    requires Inv(rs) && Step(rs, DoExchange(s, ts, wanted)).ok
    ensures 0 <= s < 4 && Selected(rs, Step(rs, DoExchange(s, ts, wanted)).rs, s, ts, Fixed(rs, wanted))
  {
    AcceptedIffAllowed(rs, DoExchange(s, ts, wanted));
    SelectionNoted(rs, s, ts, wanted, false, Step(rs, DoExchange(s, ts, wanted)));
  }

  // ---------- the missing suit ----------

  /** The hand has no fewer tiles of any other suit, and more of the earlier ones. */
  predicate IsFirstLeast(h: seq<Tile>, suit: int) {
    && 0 <= suit <= 2
    && (forall s: nat :: s <= 2 ==> CountSuit(h, suit) <= CountSuit(h, s))
    && forall s: nat :: s < suit ==> CountSuit(h, suit) < CountSuit(h, s)
  }

  /** The seat's missing suit is on record, and after the fourth one the first draw is made. */
  ghost predicate Named(rs: Round, r1: Round, s: Seat, suit: int) {
    && SameBooks(rs.(opening := r1.opening), r1)
    && r1.opening.missingSuits == rs.opening.missingSuits[s := suit] && r1.opening.missingDone == rs.opening.missingDone[s := true]
    && r1.opening.exchangeDone == rs.opening.exchangeDone
    && if AllDone(r1.opening.missingDone) then rs.wall != [] && Drawn(rs.(opening := r1.opening), r1)
       else r1.phase == OpeningPhase && !r1.closed && r1.hands == rs.hands && r1.wall == rs.wall
  }

  lemma SuitNoted(rs: Round, s: Seat, suit: int, surrender: bool, o: Outcome)
    requires Inv(rs) && rs.phase == OpeningPhase && CurrentStep(rs) == MissingStep
    requires o == ApplyMissing(rs, s, suit, surrender) && o.ok
    ensures surrender ==> Named(rs, o.rs, s, -1)
    ensures !surrender && 0 <= suit <= 2 ==> Named(rs, o.rs, s, suit)
    ensures !surrender && !(0 <= suit <= 2) ==> exists least: int :: IsFirstLeast(rs.hands[s], least) && Named(rs, o.rs, s, least)
  {
    MissingIsFirstLeast(rs.hands[s]);
    assert IsFirstLeast(rs.hands[s], ChooseMissing(rs.hands[s]));
    var r1 := NoteMissing(rs, s, suit, surrender);
    if AllDone(r1.opening.missingDone) {
      var r2 := r1.(phase := Idle);
      assert SameTable(rs, r2) && SameAmount(rs, r2);
      SameAmountStocked(rs, r2);
      DrawEnds(r2, o);
      assert WinsOn(r2, r2.turn, rs.wall[0]) == WinsOn(rs.(opening := r1.opening), rs.turn, rs.wall[0]);
    }
  }

  /** A seat gives up the suit it names, or, naming none, the first of those it has least of. */
  lemma MissingMovesOn(rs: Round, s: int, suit: int)
    requires Inv(rs) && Step(rs, DoMissing(s, suit)).ok
    ensures var r1 := Step(rs, DoMissing(s, suit)).rs;
            && 0 <= s < 4 && (0 <= suit <= 2 ==> Named(rs, r1, s, suit))
            && (!(0 <= suit <= 2) ==> exists least: int :: IsFirstLeast(rs.hands[s], least) && Named(rs, r1, s, least))
  {
    AcceptedIffAllowed(rs, DoMissing(s, suit));
    SuitNoted(rs, s, suit, false, Step(rs, DoMissing(s, suit)));
  }
}
