/** Which kongs are allowed, what they lay on the table and what they pay. */
module RoundKongs {
  import opened Tiles
  import opened SichuanWin
  import opened Rounds
  import opened RoundInv
  import opened RoundTiles
  import opened RoundCoherence
  import opened RoundRefusals
  import opened RoundDraws
  import opened RoundOffers
  import opened RoundPay

  // ---------- guards ----------

  /** The seat is to discard and t is not of its missing suit. */
  predicate MayDeclare(rs: Round, s: int, t: Tile) {
    && 0 <= s < 4 && s == rs.turn && rs.phase == DiscardPhase && !GivenUp(rs, s, t)
    && forall i :: 0 <= i < |rs.wins| ==> rs.wins[i].seat != s
  }

  lemma SelfKongGuards(rs: Round, s: int, t: Tile)
    requires Inv(rs)
    ensures CanBuGang(rs, s, t) <==> MayDeclare(rs, s, t) && LaidPong(rs, s, t) && t in rs.hands[s]
    ensures CanAnGang(rs, s, t) <==> MayDeclare(rs, s, t) && Num(rs.hands[s], t) >= 4
    ensures rs.phase == DiscardPhase ==> !CanClaimGang(rs, s)
    ensures rs.phase != DiscardPhase ==> !CanBuGang(rs, s, t) && !CanAnGang(rs, s, t)
  {
    if 0 <= s < 4 && rs.phase == DiscardPhase {
      LaidPongIsFull(rs, s, t);
      if t in rs.hands[s] { HeldIsReal(rs, s, t); }
      if Num(rs.hands[s], t) >= 4 { NumMember(rs.hands[s], t); }
    }
  }

  /** A pong of t and four more copies would be too many. */
  lemma PongLeavesOne(rs: Round, s: Seat, t: Tile)
    requires Inv(rs) && LaidPong(rs, s, t)
    ensures Num(rs.hands[s], t) <= 1
  {
    var i :| 0 <= i < |rs.melds[s]| && rs.melds[s][i].kind == Pong && rs.melds[s][i].tiles == [t, t, t];
    CopiesCount(t, t);
    ReplaceMeld(rs.melds[s], i, rs.melds[s][i], t);
    TableUpdate(rs.melds, s, rs.melds[s], t);
    PileUpdate(rs.hands, s, rs.hands[s], t);
    assert Amount(rs, t) <= Supply(t);
  }

  // ---------- payments ----------

  /**
   * One more kong is on record, it is the seat's turn, and every other seat in play has paid it: two
   * for a concealed kong, one for a claimed or added one.
   */
  ghost predicate KongBooked(a: Round, b: Round, g: GangRecord) {
    && SameBooks(a.(turn := g.seat, scores := b.scores, gangs := a.gangs + [g], melds := b.melds, discards := b.discards,
                    dealerFirstDiscardOpen := g.reason != GangMing && a.dealerFirstDiscardOpen, lastGangFollowUp := true), b)
    && AllPaid(a, b, g.seat, if g.reason == GangAn then 2 else 1)
    && BookedTo(a, b, g.seat, g.reason, if g.reason == GangAn then 2 else 1, NO_SEAT)
  }

  lemma ScoreGangPays(x: Round, s: Seat, t: Tile, reason: Reason, source: SeatOrNone)
    requires AllTransfers(x.scores)
    ensures var b, each := ScoreGang(x, s, t, reason, source), if reason == GangAn then 2 else 1;
            && AllPaid(x, b, s, each) && BookedTo(x, b, s, reason, each, NO_SEAT)
            && b.gangs == x.gangs + [GangRecord(s, reason, t, source, x.step)] && b.lastGangFollowUp
  {
    var b, each := ScoreGang(x, s, t, reason, source), if reason == GangAn then 2 else 1;
    GangLevy(ActiveSeats(x), s, reason, each, x.step);
    ActiveAreInPlay(x);
    forall p: Seat | p != s ensures p in ActiveSeats(x) <==> InPlay(b, p) {}
    LevyPays(x, b, ActiveSeats(x), s, reason, each, NO_SEAT);
  }

  /** The same payments between states with the same books. */
  lemma KongThrough(a: Round, x: Round, b: Round, s: Seat, t: Tile, reason: Reason, source: SeatOrNone)
    requires AllTransfers(a.scores)
    requires SameBooks(a.(melds := x.melds, discards := x.discards,
                          dealerFirstDiscardOpen := reason != GangMing && a.dealerFirstDiscardOpen), x)
    requires SameBooks(ScoreGang(x, s, t, reason, source).(turn := s), b)
    ensures KongBooked(a, b, GangRecord(s, reason, t, source, a.step))
  {
    ScoreGangPays(x, s, t, reason, source);
    var y, each := ScoreGang(x, s, t, reason, source), if reason == GangAn then 2 else 1;
    forall p: Seat ensures Share(b, p, s, each) == Share(y, p, s, each) {}
  }

  // ---------- one kong each ----------

  /** The seat has one more meld, everybody else the same ones. */
  predicate Laid(a: Round, b: Round, s: Seat, m: Meld) { b.melds == a.melds[s := a.melds[s] + [m]] }

  /** The seat's pong of t has become a kong that remembers whose discard the pong took. */
  ghost predicate Upgraded(a: Round, b: Round, s: Seat, t: Tile) {
    exists i :: 0 <= i < |a.melds[s]| && a.melds[s][i].kind == Pong && a.melds[s][i].tiles == [t, t, t]
      && b.melds == a.melds[s := a.melds[s][i := Meld(BuGang, [t, t, t, t], a.melds[s][i].source)]]
  }

  lemma FinishGangEnds(rs: Round, s: Seat, o: Outcome)
    requires Stocked(rs) && AllDone(rs.opening.missingDone) && !rs.closed && rs.pendingDraw == NO_TILE && o == FinishGang(rs, s)
    ensures SameBooks(rs.(turn := s), o.rs) && DrewFrom(rs.wall, rs.hands, o.rs)
  {
    var r1 := ToDraw(rs, s);
    assert SameTable(rs, r1) && SameAmount(rs, r1);
    SameAmountStocked(rs, r1);
    DrawEnds(r1, DrawForCurrentTurn(r1));
    EndsDrew(r1, o.rs);
  }

  /** The kong uses so many tiles of the seat's hand, and a replacement is drawn or the hand is over. */
  ghost predicate Replaced(a: Round, b: Round, s: Seat, t: Tile, copies: nat) {
    exists h: Piles :: Gives(a.hands, h, s, t, copies) && DrewFrom(a.wall, h, b)
  }

  lemma TakenTiles(a: Piles, s: Seat, own: seq<Tile>, t: Tile)
    requires Within(own, a[s]) && forall u: Tile :: Num(own, u) == if u == t then |own| else 0
    ensures Gives(a, a[s := RemoveEach(a[s], own).0], s, t, |own|)
  {
    RemoveEachTakes(a[s], own);
  }

  lemma ClaimedKong(rs: Round, s: int, o: Outcome)
    requires Inv(rs) && CanClaimGang(rs, s) && o == ClaimGang(rs, s)
    ensures var t := rs.lastDiscard;
            && KongBooked(rs, o.rs, GangRecord(s, GangMing, t, rs.lastDiscardSeat, rs.step))
            && Laid(rs, o.rs, s, Meld(ZhiGang, [t, t, t, t], rs.lastDiscardSeat))
            && LosesLast(rs.discards, o.rs.discards, rs.lastDiscardSeat) && Replaced(rs, o.rs, s, t, 3)
  {
    var t, source := rs.lastDiscard, rs.lastDiscardSeat;
    ClaimGuard(rs, s);
    ClaimGangForm(rs, s);
    Copies(t);
    TakenTiles(rs.hands, s, [t, t, t], t);
    var x := Melded(rs, s, [t, t, t], Meld(ZhiGang, [t, t, t, t], source)).(lastDiscard := NO_TILE, lastDiscardSeat := NO_SEAT);
    var y := KongScored(rs, s, t, source);
    SameAmountStocked(rs, y);
    FinishGangEnds(y, s, o);
    KongThrough(rs, x, o.rs, s, t, GangMing, source);
    assert Gives(rs.hands, y.hands, s, t, 3);
  }

  lemma ConcealedKong(rs: Round, s: int, t: Tile, o: Outcome)
    requires Inv(rs) && CanAnGang(rs, s, t) && o == AnGangBy(rs, s, t)
    ensures KongBooked(rs, o.rs, GangRecord(s, GangAn, t, NO_SEAT, rs.step))
    ensures Laid(rs, o.rs, s, Meld(AnGang, [t, t, t, t], NO_SEAT)) && o.rs.discards == rs.discards && Replaced(rs, o.rs, s, t, 4)
  {
    AnGangForm(rs, s, t);
    Copies(t);
    TakenTiles(rs.hands, s, [t, t, t, t], t);
    var r0 := ClearClaimWindow(rs);
    var r1 := r0.(hands := r0.hands[s := RemoveEach(r0.hands[s], [t, t, t, t]).0]);
    var x := RecordMeld(r1, s, Meld(AnGang, [t, t, t, t], NO_SEAT));
    var y := AnGangScored(rs, s, t);
    SameAmountStocked(rs, y);
    FinishGangEnds(y, s, o);
    KongThrough(rs, x, o.rs, s, t, GangAn, NO_SEAT);
    assert Gives(rs.hands, y.hands, s, t, 4);
  }

  /** The kong that was added to a pong is booked, and the fourth tile lies beside the other three. */
  ghost predicate AddedToPong(rs: Round, b: Round, s: Seat, t: Tile) {
    && KongBooked(rs, b, GangRecord(s, GangBu, t, NO_SEAT, rs.step)) && Upgraded(rs, b, s, t) && b.discards == rs.discards
    && Replaced(rs, b, s, t, 1)
  }

  lemma OneTaken(a: Piles, s: Seat, t: Tile)
    requires t in a[s]
    ensures Gives(a, a[s := RemoveOne(a[s], t)], s, t, 1)
  {
    forall u: Tile ensures Num(RemoveOne(a[s], t), u) + (if u == t then 1 else 0) == Num(a[s], u) { NumRemove(a[s], t, u); }
  }

  /** Completing an added kong from a table at rest. */
  lemma CompletedKong(rs: Round, r0: Round, s: Seat, t: Tile, o: Outcome)
    requires Rested(r0) && Stocked(r0) && LaidPong(r0, s, t) && t in r0.hands[s]
    requires o == FinishGang(CompleteBuGang(r0, s, t).rs.(turn := s), s)
    requires SameBooks(rs, r0) && r0.hands == rs.hands && r0.wall == rs.wall
    ensures AddedToPong(rs, o.rs, s, t)
  {
    LaidPongIsFull(r0, s, t);
    BuGangForm(r0, s, t);
    FirstPongIs(r0.melds[s], t);
    CompleteBuGangTiles(r0, s, t);
    OneTaken(rs.hands, s, t);
    var x := BuGangDone(r0, s, t);
    var z := CompleteBuGang(r0, s, t).rs.(turn := s);
    assert SameAmount(CompleteBuGang(r0, s, t).rs, z);
    SameAmountStocked(r0, z);
    FinishGangEnds(z, s, o);
    KongThrough(rs, x, o.rs, s, t, GangBu, NO_SEAT);
    assert Gives(rs.hands, z.hands, s, t, 1);
    assert MeldOk(r0.melds[s][FirstPong(r0.melds[s], t)]);
  }

  // ---------- one action ----------

  /** Another seat wins on the tile that is added to a pong. */
  ghost predicate MayBeRobbed(rs: Round, s: Seat, t: Tile) { exists r: Seat :: r != s && WinsOn(rs, r, t) }

  /**
   * A kong is allowed exactly to a seat that is asked for it first in a window, and to the seat that
   * is to discard: for four copies in hand, or one beside a pong, not of its missing suit.
   */
  lemma KongAllowed(rs: Round, s: int, t: Tile)
    requires Inv(rs)
    ensures Step(rs, DoGang(s, t)).ok <==>
      || (rs.phase == ClaimPhase && exists i: nat :: Answers(rs, i, s) && rs.candidates[i].gang)
      || (MayDeclare(rs, s, t) && (Num(rs.hands[s], t) >= 4 || (LaidPong(rs, s, t) && t in rs.hands[s])))
  {
    AcceptedIffAllowed(rs, DoGang(s, t));
    SelfKongGuards(rs, s, t);
    if rs.phase == ClaimPhase { ClaimsAnswered(rs, s); }
  }

  /** An added kong that another seat may win on waits; nothing is laid or paid yet. */
  ghost predicate Waits(rs: Round, r1: Round, s: Seat, t: Tile) {
    && SameBooks(rs, r1) && r1.hands == rs.hands && r1.wall == rs.wall && !r1.closed
    && r1.phase == ClaimPhase && r1.qiangGang && r1.lastDiscard == t && r1.lastDiscardSeat == s
    && AsksWhatIsDue(rs, r1.candidates, s, t, true)
  }

  lemma AddedKong(rs: Round, s: int, t: Tile, o: Outcome)
    requires Inv(rs) && CanBuGang(rs, s, t) && o == BuGangBy(rs, s, t)
    ensures MayBeRobbed(rs, s, t) ==> Waits(rs, o.rs, s, t)
    ensures !MayBeRobbed(rs, s, t) ==> AddedToPong(rs, o.rs, s, t)
  {
    var r1 := OfferBuGang(rs, s, t);
    RobbersAsked(rs, r1, s, t);
    if r1.candidates == [] {
      var r0 := ClearClaimWindow(r1);
      BuGangRests(rs, s, t);
      LaidPongIsFull(r0, s, t);
      BuGangForm(r0, s, t);
      assert CompleteBuGang(r0, s, t).rs.(turn := s) == CompleteBuGang(r0, s, t).rs;
      CompletedKong(rs, r0, s, t, o);
    }
  }

  /** What a declared kong leads to: it is laid and paid, or waits because it may be robbed. */
  ghost predicate Konged(rs: Round, s: Seat, t: Tile, r1: Round) {
    if rs.phase == ClaimPhase then
      var u := rs.lastDiscard;
      && KongBooked(rs, r1, GangRecord(s, GangMing, u, rs.lastDiscardSeat, rs.step))
      && Laid(rs, r1, s, Meld(ZhiGang, [u, u, u, u], rs.lastDiscardSeat))
      && LosesLast(rs.discards, r1.discards, rs.lastDiscardSeat) && Replaced(rs, r1, s, u, 3)
    else if !LaidPong(rs, s, t) then
      && KongBooked(rs, r1, GangRecord(s, GangAn, t, NO_SEAT, rs.step))
      && Laid(rs, r1, s, Meld(AnGang, [t, t, t, t], NO_SEAT)) && r1.discards == rs.discards && Replaced(rs, r1, s, t, 4)
    else if MayBeRobbed(rs, s, t) then Waits(rs, r1, s, t)
    else AddedToPong(rs, r1, s, t)
  }

  /** Every accepted kong is on record and paid by all others in play, unless it waits to be robbed. */
  lemma KongIsPaid(rs: Round, s: int, t: Tile)
    requires Inv(rs) && Step(rs, DoGang(s, t)).ok
    ensures 0 <= s < 4 && (rs.phase == ClaimPhase || rs.phase == DiscardPhase) && Konged(rs, s, t, Step(rs, DoGang(s, t)).rs)
  {
    var o := Step(rs, DoGang(s, t));
    AcceptedIffAllowed(rs, DoGang(s, t));
    SelfKongGuards(rs, s, t);
    if CanClaimGang(rs, s) {
      ClaimGuard(rs, s);
      ClaimedKong(rs, s, o);
    } else if CanBuGang(rs, s, t) {
      AddedKong(rs, s, t, o);
    } else {
      if LaidPong(rs, s, t) { PongLeavesOne(rs, s, t); }
      ConcealedKong(rs, s, t, o);
    }
  }

  // ---------- a waiting kong ----------

  lemma AllPassedPays(rs: Round, r0: Round, o: Outcome)
    requires Inv(rs) && rs.phase == ClaimPhase && rs.qiangGang && rs.lastDiscard in rs.hands[rs.turn]
    requires r0 == rs.(candidates := []) && o == AllPassed(r0)
    ensures AddedToPong(rs, o.rs, rs.turn, rs.lastDiscard)
  {
    var r2 := ClearClaimWindow(r0);
    assert SameTable(rs, r2) && SameAmount(rs, r2);
    SameAmountStocked(rs, r2);
    LaidPongIsFull(r2, rs.turn, rs.lastDiscard);
    BuGangForm(r2, rs.turn, rs.lastDiscard);
    CompletedKong(rs, r2, rs.turn, rs.lastDiscard, o);
  }

  /** The last seat asked about a waiting kong lets it through, and it is paid like any other. */
  lemma PassedKongIsPaid(rs: Round, s: int)
    requires Inv(rs) && Step(rs, DoPass(s)).ok && rs.qiangGang && |rs.candidates| == 1
    ensures AddedToPong(rs, Step(rs, DoPass(s)).rs, rs.turn, rs.lastDiscard)
  {
    PassAllowed(rs, s);
    var i: nat :| Answers(rs, i, s);
    AnswerLeaves(rs, i, s);
    AllPassedPays(rs, rs.(candidates := []), Step(rs, DoPass(s)));
  }
}
