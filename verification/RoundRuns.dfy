/** Whole hands: from the deal through any actions, in any order, accepted or refused. */
module RoundRuns {
  import opened Tiles
  import opened Walls
  import opened Rounds
  import opened RoundInv
  import opened RoundTiles
  import opened RoundCoherence

  // ---------- the deal ----------

  /** How many of n tiles dealt around the table a seat has got. */
  function Share(n: nat, s: Seat): nat { (n + 3 - s) / 4 }

  ghost predicate Dealt(before: Round, after: Round, n: nat) {
    && n <= |before.wall|
    && after == before.(wall := before.wall[n..], hands := after.hands)
    && SameAmount(before, after)
    && forall s: Seat :: |after.hands[s]| == |before.hands[s]| + Share(n, s)
  }

  lemma DealtOne(before: Round, mid: Round, n: nat)
    requires Stocked(before) && Dealt(before, mid, n) && n < |before.wall|
    requires before.pendingDraw == NO_TILE
    ensures DealOne(mid, n % 4).ok && Dealt(before, DealOne(mid, n % 4).rs, n + 1)
  {
    SameAmountStocked(before, mid);
    DrawTakesFirst(mid, n % 4);
    var after := DealOne(mid, n % 4).rs;
    assert mid.wall[1..] == before.wall[n + 1..];
    forall t: Tile ensures Amount(before, t) == Amount(after, t) {
      assert Amount(before, t) == Amount(mid, t);
      GiveCount(mid.hands, n % 4, mid.wall[0], t);
    }
    forall s: Seat ensures |after.hands[s]| == |before.hands[s]| + Share(n + 1, s) {
      assert |mid.hands[s]| == |before.hands[s]| + Share(n, s);
    }
  }

  lemma {:induction false} DealCounts(rs: Round, n: nat)
    requires Stocked(rs) && rs.pendingDraw == NO_TILE && n <= |rs.wall|
    ensures Deal(rs, n).ok && Dealt(rs, Deal(rs, n).rs, n)
  {
    if n > 0 {
      DealCounts(rs, n - 1);
      DealtOne(rs, Deal(rs, n - 1).rs, n - 1);
    }
  }

  lemma EmptyAmount(wall: seq<Tile>, withExchange: bool, t: Tile)
    ensures Amount(EmptyTable(wall, withExchange), t) == Num(wall, t)
  {
    NumAllFour(NO_PILES, t);
    NothingLaid([[], [], [], []], t);
  }

  lemma FreshIsCoherent(rs: Round, wall: seq<Tile>, withExchange: bool)
    requires rs == EmptyTable(wall, withExchange).(hands := rs.hands, phase := OpeningPhase) && wall != []
    ensures Coherent(rs)
  {
    forall s: Seat ensures SelectionOk(rs, s) { assert rs.opening.selections[s] == []; }
  }

  lemma DealIsFull(wall: seq<Tile>, withExchange: bool)
    requires IsFullWall(wall)
    ensures Deal(EmptyTable(wall, withExchange), 52).ok
    ensures Dealt(EmptyTable(wall, withExchange), Deal(EmptyTable(wall, withExchange), 52).rs, 52)
    ensures forall t: Tile :: Amount(Deal(EmptyTable(wall, withExchange), 52).rs, t) == Supply(t)
  {
    var empty := EmptyTable(wall, withExchange);
    forall t: Tile ensures Amount(empty, t) == Supply(t) { EmptyAmount(wall, withExchange, t); }
    DealCounts(empty, 52);
  }

  /** Every deal from a full wall succeeds: thirteen tiles each, and the hand starts coherent. */
  lemma StartIsInv(wall: seq<Tile>, withExchange: bool)
    requires IsFullWall(wall)
    ensures StartRound(wall, withExchange).ok
    ensures var rs := StartRound(wall, withExchange).rs;
            && Inv(rs)
            && rs == EmptyTable(wall, withExchange).(wall := wall[52..], hands := rs.hands, phase := OpeningPhase)
            && (forall t: Tile :: Amount(rs, t) == Supply(t))
            && (forall s: Seat :: |rs.hands[s]| == 13)
  {
    var empty := EmptyTable(wall, withExchange);
    DealIsFull(wall, withExchange);
    var dealt := Deal(empty, 52).rs;
    var rs := dealt.(phase := OpeningPhase);
    assert SameAmount(dealt, rs);
    SameAmountStocked(dealt, rs);
    forall s: Seat ensures |rs.hands[s]| == 13 { assert |dealt.hands[s]| == |empty.hands[s]| + Share(52, s); }
    FreshIsCoherent(rs, wall[52..], withExchange);
  }

  // ---------- runs ----------

  /** What the actions of a run take off the table, all together. */
  ghost function LostInRun(rs: Round, acts: seq<Action>, t: Tile): nat
    decreases |acts|
  {
    if acts == [] then 0 else Lost(rs, acts[0], t) + LostInRun(Step(rs, acts[0]).rs, acts[1..], t)
  }

  lemma {:induction false} RunKeepsInv(rs: Round, acts: seq<Action>)
    requires Inv(rs)
    ensures Inv(Run(rs, acts))
    decreases |acts|
  {
    if acts != [] {
      StepKeepsInv(rs, acts[0]);
      RunKeepsInv(Step(rs, acts[0]).rs, acts[1..]);
    }
  }

  lemma {:induction false} RunConserves(rs: Round, acts: seq<Action>, t: Tile)
    requires Inv(rs)
    ensures Amount(rs, t) == Amount(Run(rs, acts), t) + LostInRun(rs, acts, t)
    decreases |acts|
  {
    if acts != [] {
      StepTiles(rs, acts[0]);
      StepKeepsInv(rs, acts[0]);
      RunConserves(Step(rs, acts[0]).rs, acts[1..], t);
    }
  }

  /**
   * Whatever the players do, each suited tile is on the table or named as lost four times in all,
   * no other tile ever appears, and the state is coherent.
   */
  lemma TileConservation(wall: seq<Tile>, withExchange: bool, acts: seq<Action>)
    requires IsFullWall(wall)
    ensures var start := StartRound(wall, withExchange).rs;
            && (forall t: Tile :: Amount(Run(start, acts), t) + LostInRun(start, acts, t) == Supply(t))
            && Inv(Run(start, acts))
  {
    StartIsInv(wall, withExchange);
    var start := StartRound(wall, withExchange).rs;
    RunKeepsInv(start, acts);
    forall t: Tile ensures Amount(Run(start, acts), t) + LostInRun(start, acts, t) == Supply(t) {
      RunConserves(start, acts, t);
    }
  }

  /**
   * In no hand does the fan table see a robbed kong on record: added kongs are recorded without a seat
   * that answers for them, so the fan for robbing one is never paid.
   */
  lemma RobbedKongIsNeverPaid(wall: seq<Tile>, withExchange: bool, acts: seq<Action>, seat: Seat)
    requires IsFullWall(wall)
    ensures !SceneOf(Run(StartRound(wall, withExchange).rs, acts), seat).robbedKongOnRecord
  {
    StartIsInv(wall, withExchange);
    RunKeepsInv(StartRound(wall, withExchange).rs, acts);
  }
}
