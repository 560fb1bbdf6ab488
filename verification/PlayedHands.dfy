/** Settling hands that were really played, and the totals of a room after them (internal/service/room/actor/actor_dispatch.go). */
module PlayedHands {
  import opened Tiles
  import opened Walls
  import opened Rounds
  import opened RoundInv
  import opened RoundRuns
  import opened Settlement
  import opened Deals
  import opened RoundScenes

  /** What the engine hands to the settlement of a hand; the orders of the winners are arbitrary. */
  function FactsOf(rs: Round, orders: seq<seq<Seat>>): Facts {
    Facts(rs.hands, rs.opening.missingSuits, rs.scores, set i | 0 <= i < |rs.wins| :: rs.wins[i].seat, orders)
  }

  /** A hand as it was played: the wall, the rule and what was asked of it. */
  datatype Game = Game(wall: seq<Tile>, withExchange: bool, acts: seq<Action>)

  ghost function Played(g: Game): Round { Run(StartRound(g.wall, g.withExchange).rs, g.acts) }

  ghost function ScoresOf(games: seq<Game>): seq<seq<ScoreEvent>> {
    seq(|games|, i requires 0 <= i < |games| => Played(games[i]).scores)
  }

  /** Whatever is played, the events move points between seats. */
  lemma PlayedTransfers(g: Game)
    requires IsFullWall(g.wall)
    ensures AllTransfers(Played(g).scores)
  {
    StartIsInv(g.wall, g.withExchange);
    RunKeepsInv(StartRound(g.wall, g.withExchange).rs, g.acts);
  }

  /** The settlement of a hand that was played cancels out, after the events and after each seat. */
  lemma PlayedIsZeroSum(g: Game, orders: seq<seq<Seat>>, n: nat)
    requires IsFullWall(g.wall) && Ordered(FactsOf(Played(g), orders)) && n <= 4
    ensures var f := FactsOf(Played(g), orders); Sum(PayAll(Fold(f.events), PenaltiesBefore(f, n))) == 0
  {
    PlayedTransfers(g);
    SettlementIsZeroSum(FactsOf(Played(g), orders), n);
  }

  /** The totals of a room cancel out, whatever hands were played in it. */
  lemma PlayedRoomIsZeroSum(games: seq<Game>)
    requires forall i :: 0 <= i < |games| ==> IsFullWall(games[i].wall)
    ensures Sum(RoomTotals(ScoresOf(games))) == 0
  {
    forall i | 0 <= i < |games| ensures AllTransfers(ScoresOf(games)[i]) { PlayedTransfers(games[i]); }
    RoomIsZeroSum(ScoresOf(games));
  }

  // ---------- a hand whose reported totals do not cancel ----------

  /** The hand in which the first three seats win with their first draw, and the last one keeps bamboos. */
  function LuckyGame(): Game
    requires Enough(LuckyTables(), DRAWS)
  {
    Game(WallOf(LuckyTables(), DRAWS), false, NAMES + LUCK)
  }

  lemma LastSeatIsPig(rs: Round, h: Piles, orders: seq<seq<Seat>>)
    requires ThreeHaveWon(rs, h) && 0x21 in h[3]
    ensures IsPig(FactsOf(rs, orders), 3)
  {
    var i :| 0 <= i < |h[3]| && h[3][i] == 0x21;
    assert Suit(rs.hands[3][i]) == BAMBOO;
  }

  lemma LastHandHasBamboo(c: Tables)
    requires c[3][18] > 0
    ensures 0x21 in HandsOf(c)[3]
  {
    LaidAt(c[3], 0x21, 18);
  }

  lemma LuckyPigIs(c: Tables)
    requires c == LuckyTables()
    ensures c[3][18] > 0
  {
    FourAt(18, 4, 19, 4, 20, 4, 21, 1, 18);
  }

  lemma LuckyDoesNotCancel(rs: Round, h: Piles, orders: seq<seq<Seat>>)
    requires ThreeHaveWon(rs, h) && 0x21 in h[3] && AllTransfers(rs.scores) && Ordered(FactsOf(rs, orders))
    ensures var f := FactsOf(rs, orders); Reported(f, 0) + Reported(f, 1) + Reported(f, 2) + Reported(f, 3) < 0
  {
    LastSeatIsPig(rs, h, orders);
    var f := FactsOf(rs, orders);
    assert Pays(f, 3, 0) && PaidFrom(f, 1, 0) && PaidLater(f, 0);
    ReportedCancelIff(f);
  }

  /**
   * A hand from a full wall that is over after seven actions, and whose reported totals do not cancel
   * out, in whatever order the winners come up.
   */
  lemma ReportedMayNotCancel()
    ensures Enough(LuckyTables(), DRAWS) && IsFullWall(LuckyGame().wall) && Played(LuckyGame()).closed
    ensures forall orders: seq<seq<Seat>> ::
              var f := FactsOf(Played(LuckyGame()), orders);
              Ordered(f) ==> Reported(f, 0) + Reported(f, 1) + Reported(f, 2) + Reported(f, 3) < 0
  {
    LuckyIsEnough();
    var c, rs := LuckyTables(), Played(LuckyGame());
    ThreeWin(c, LuckyGame().wall);
    LuckyPigIs(c);
    LastHandHasBamboo(c);
    PlayedTransfers(LuckyGame());
    forall orders: seq<seq<Seat>> | Ordered(FactsOf(rs, orders))
      ensures var f := FactsOf(rs, orders); Reported(f, 0) + Reported(f, 1) + Reported(f, 2) + Reported(f, 3) < 0
    {
      LuckyDoesNotCancel(rs, HandsOf(c), orders);
    }
  }
}
