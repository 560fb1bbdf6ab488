/** What the draw at the end of an operation does, and what it leaves alone. */
module RoundDraws {
  import opened Tiles
  import opened SichuanWin
  import opened Rounds
  import opened RoundInv
  import opened RoundTiles

  /** The seat has neither won nor surrendered. */
  predicate InPlay(rs: Round, s: Seat) {
    !rs.surrendered[s] && forall i :: 0 <= i < |rs.wins| ==> rs.wins[i].seat != s
  }

  /** The seat is in play, and t completes its hand without the suit it gave up. */
  ghost predicate WinsOn(rs: Round, s: Seat, t: Tile) {
    InPlay(rs, s) && CheckHu(rs.hands[s], t, rs.opening.missingSuits[s], rs.melds[s])
  }

  lemma InPlayIsActive(rs: Round, s: Seat)
    ensures InPlay(rs, s) <==> Active(rs, s)
    ensures InPlay(rs, s) <==> !rs.surrendered[s] && !HasWon(rs, s)
  {
  }

  lemma WinsOnIsChecked(rs: Round, s: Seat, t: Tile)
    requires AllDone(rs.opening.missingDone)
    ensures WinsOn(rs, s, t) <==> CheckSeatHu(rs, s, t)
  {
    InPlayIsActive(rs, s);
  }

  /** Everything but the wall, the hands, the flowers and the question that is open. */
  predicate SameBooks(a: Round, b: Round) {
    && b.withExchange == a.withExchange && b.discards == a.discards && b.melds == a.melds && b.opening == a.opening
    && b.surrendered == a.surrendered && b.turn == a.turn && b.step == a.step && b.dealerSeat == a.dealerSeat
    && b.openingDrawSeat == a.openingDrawSeat && b.dealerFirstDiscardOpen == a.dealerFirstDiscardOpen
    && b.wins == a.wins && b.scores == a.scores && b.gangs == a.gangs
    && b.lastGangFollowUp == a.lastGangFollowUp && b.lastDiscardAfterGang == a.lastDiscardAfterGang
  }

  /** The tile on top of the wall goes to the seat at turn: as a question if it wins, else into its hand. */
  ghost predicate Drawn(a: Round, b: Round)
    requires a.wall != []
  {
    var t := a.wall[0];
    && !b.closed && b.wall == a.wall[1..] && b.currentDraw == t
    && if WinsOn(a, a.turn, t) then b.phase == TsumoPhase && b.pendingDraw == t && b.hands == a.hands
       else b.phase == DiscardPhase && b.pendingDraw == a.pendingDraw
            && b.hands == a.hands[a.turn := a.hands[a.turn] + [t]]
  }

  /** Three winners or an empty wall end the hand, else the seat at turn draws. */
  ghost predicate Ends(a: Round, b: Round) {
    && SameBooks(a, b)
    && if |a.wins| >= 3 || a.wall == [] then b.closed && b.phase == Idle && b.wall == a.wall && b.hands == a.hands
       else Drawn(a, b)
  }

  lemma DrawEnds(rs: Round, o: Outcome)
    requires Stocked(rs) && AllDone(rs.opening.missingDone) && !rs.closed && o == DrawForCurrentTurn(rs)
    ensures o.ok && Ends(rs, o.rs)
  {
    DrawCases(rs);
    if !ShouldFinish(rs) {
      DrawTakesFirst(rs, rs.turn);
      var t := rs.wall[0];
      WinsOnIsChecked(rs, rs.turn, t);
      assert CheckSeatHu(rs.(wall := rs.wall[1..]), rs.turn, t) == CheckSeatHu(rs, rs.turn, t);
    }
  }

  /** The state was left by a draw from this wall over these hands, or by the end of the hand in its place. */
  ghost predicate DrewFrom(wall: seq<Tile>, hands: Piles, b: Round) {
    if |b.wins| >= 3 || wall == [] then b.closed && b.phase == Idle && b.wall == wall && b.hands == hands
    else Drawn(b.(wall := wall, hands := hands, pendingDraw := NO_TILE), b)
  }

  lemma EndsDrew(a: Round, b: Round)
    requires Ends(a, b) && a.pendingDraw == NO_TILE
    ensures DrewFrom(a.wall, a.hands, b)
  {
    if !(|a.wins| >= 3 || a.wall == []) {
      var m := b.(wall := a.wall, hands := a.hands, pendingDraw := NO_TILE);
      assert WinsOn(a, a.turn, a.wall[0]) == WinsOn(m, m.turn, a.wall[0]);
    }
  }

  /** So many copies of t leave the hand, and no other hand changes. */
  predicate Gives(a: Piles, b: Piles, s: Seat, t: Tile, copies: nat) {
    b == a[s := b[s]] && forall u: Tile :: Num(b[s], u) + (if u == t then copies else 0) == Num(a[s], u)
  }

  /** The pile has lost its last tile, the others stay. */
  predicate LosesLast(a: Piles, b: Piles, s: SeatOrNone) { 0 <= s && a[s] != [] && b == a[s := a[s][..|a[s]| - 1]] }
}
