/** Saving and restoring in the middle of a hand changes nothing that happens afterwards. */
module PersistRuns {
  import opened Tiles
  import opened Walls
  import opened Rounds
  import opened RoundRuns
  import opened RoundProgress
  import opened HandOrder
  import opened Persist

  lemma SortedIsAlike(rs: Round)
    ensures Alike(rs, rs.(hands := SortedHands(rs.hands)))
  {
    forall s: Seat ensures SameTiles(rs.hands[s], SortedHands(rs.hands)[s]) {
      forall t: Tile ensures Num(rs.hands[s], t) == Num(SortTiles(rs.hands[s]), t) { SortCount(rs.hands[s], t); }
    }
  }

  /**
   * At any moment of any hand that is still open, saving and restoring succeeds, and whatever the
   * players do next, the restored hand accepts the same actions and goes through the same states as
   * the hand that was never saved, up to the order of the tiles in the hands.
   */
  lemma RestoredGoesOn(wall: seq<Tile>, withExchange: bool, acts: seq<Action>, later: seq<Action>)
    requires IsFullWall(wall)
    requires !Run(StartRound(wall, withExchange).rs, acts).closed
    ensures var rs := Run(StartRound(wall, withExchange).rs, acts);
            && Marshal(rs).Some? && Restore(Marshal(rs).value).Some?
            && var back := Restore(Marshal(rs).value).value;
               && back.reason == ReasonNumber(rs.phase) && Alike(rs, back.rs)
               && Alike(Run(rs, later), Run(back.rs, later))
               && Accepted(rs, later) == Accepted(back.rs, later)
  {
    var start := StartRound(wall, withExchange).rs;
    StartIsInv(wall, withExchange);
    RunKeepsInv(start, acts);
    var rs := Run(start, acts);
    RestoreMarshal(rs);
    SortedIsAlike(rs);
    RunSame(rs, rs.(hands := SortedHands(rs.hands)), later);
  }
}
