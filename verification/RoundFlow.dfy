/** Who is next, and when the hand is over. */
module RoundFlow {
  import opened Tiles
  import opened SichuanWin
  import opened Rounds
  import opened RoundInv
  import opened RoundTiles
  import opened RoundCoherence
  import opened RoundRefusals
  import opened RoundDraws
  import opened RoundOffers
  import opened RoundOpening
  import opened RoundPay
  import opened RoundKongs

  // ---------- going round the table ----------

  /** Going round from a seat, `to` is the first in play; nobody else is when it is the seat itself. */
  predicate NextInPlay(rs: Round, from: Seat, to: Seat) {
    && (to != from ==> InPlay(rs, to))
    && forall s: Seat :: s != from && (to == from || Places(from, s) < Places(from, to)) ==> !InPlay(rs, s)
  }

  lemma NextActiveIsNext(rs: Round, from: Seat)
    ensures NextInPlay(rs, from, NextActive(rs, from))
  {
    SeatsAround(from);
    var x, y, z := SeatAt(from, 1), SeatAt(from, 2), SeatAt(from, 3);
    InPlayIsActive(rs, x);
    InPlayIsActive(rs, y);
    InPlayIsActive(rs, z);
    assert Active(rs, x) ==> NextActive(rs, from) == x;
    assert !Active(rs, x) && Active(rs, y) ==> NextActive(rs, from) == y;
    assert !Active(rs, x) && !Active(rs, y) && Active(rs, z) ==> NextActive(rs, from) == z;
    assert !Active(rs, x) && !Active(rs, y) && !Active(rs, z) ==> NextActive(rs, from) == from;
    NearestIsNext(rs, from, x, y, z, NextActive(rs, from));
  }

  lemma NearestIsNext(rs: Round, from: Seat, x: Seat, y: Seat, z: Seat, to: Seat)
    requires Places(from, x) == 1 && Places(from, y) == 2 && Places(from, z) == 3
    requires to == if InPlay(rs, x) then x else if InPlay(rs, y) then y else if InPlay(rs, z) then z else from
    ensures NextInPlay(rs, from, to)
  {
    forall s: Seat | s != from && (to == from || Places(from, s) < Places(from, to)) ensures !InPlay(rs, s) {
      assert s == x || s == y || s == z;
    }
  }

  lemma NextAlike(a: Round, b: Round, from: Seat, t: Seat)
    requires a.wins == b.wins && a.surrendered == b.surrendered
    ensures NextInPlay(a, from, t) <==> NextInPlay(b, from, t)
  {
    forall s: Seat ensures InPlay(a, s) == InPlay(b, s) {}
  }

  // ---------- after a discard ----------

  /** The hands with a tile that was drawn and not yet taken. */
  function WithDraw(rs: Round): Piles {
    if rs.phase == TsumoPhase then rs.hands[rs.turn := rs.hands[rs.turn] + [rs.pendingDraw]] else rs.hands
  }

  /** The dealer has not discarded since the first draw. */
  predicate FirstDiscard(rs: Round, s: Seat) { s == rs.dealerSeat && rs.openingDrawSeat == s }

  /** The tile lies in the seat's pile, and the next seat in play is at turn; unless anybody is asked, it has drawn. */
  ghost predicate Discarded(rs: Round, s: Seat, t: Tile, r1: Round) {
    var drawn := !r1.closed && r1.phase != ClaimPhase;
    && SameBooks(rs.(turn := r1.turn, step := rs.step + 1, discards := rs.discards[s := rs.discards[s] + [t]],
                     openingDrawSeat := if FirstDiscard(rs, s) then NO_SEAT else rs.openingDrawSeat,
                     dealerFirstDiscardOpen := !drawn && (FirstDiscard(rs, s) || rs.dealerFirstDiscardOpen),
                     lastDiscardAfterGang := rs.lastGangFollowUp, lastGangFollowUp := false), r1)
    && (rs.wall != [] ==> NextInPlay(rs, s, r1.turn))
    && exists h: Piles ::
         Gives(WithDraw(rs), h, s, t, 1) && if drawn then DrewFrom(rs.wall, h, r1) else r1.hands == h && r1.wall == rs.wall
  }

  lemma LaidOut(rs: Round, s: Seat, t: Tile)
    requires Inv(rs) && MayDiscard(rs, s, t)
    ensures var l := Lying(rs, s, t);
            && Gives(WithDraw(rs), l.hands, s, t, 1)
            && SameBooks(rs.(step := rs.step + 1, discards := rs.discards[s := rs.discards[s] + [t]],
                             openingDrawSeat := if FirstDiscard(rs, s) then NO_SEAT else rs.openingDrawSeat,
                             dealerFirstDiscardOpen := FirstDiscard(rs, s) || rs.dealerFirstDiscardOpen,
                             lastDiscardAfterGang := rs.lastGangFollowUp, lastGangFollowUp := false), l)
  {
    assert t in WithDraw(rs)[s];
    OneTaken(WithDraw(rs), s, t);
  }

  lemma AfterLaying(rs: Round, l: Round, s: Seat, t: Tile, o: Outcome)
    requires Stocked(l) && AllDone(l.opening.missingDone) && !l.closed && |l.wins| < 3 && l.pendingDraw == NO_TILE
    requires o == AfterDiscard(l, s, t)
    ensures var drawn := !o.rs.closed && o.rs.phase != ClaimPhase;
            && SameBooks(l.(turn := o.rs.turn, dealerFirstDiscardOpen := !drawn && l.dealerFirstDiscardOpen), o.rs)
            && (l.wall != [] ==> o.rs.turn == NextActive(l, s))
            && if drawn then DrewFrom(l.wall, l.hands, o.rs) else o.rs.hands == l.hands && o.rs.wall == l.wall
  {
    NoWindow(l, s, t);
    var u := Unclaimed(l, s, t);
    if Ends(u, o.rs) { EndsDrew(u, o.rs); }
  }

  /**
   * A discard lays the tile and passes the turn to the next seat in play; if nobody is asked about
   * the tile and the wall is not empty that seat has drawn.
   */
  lemma DiscardMovesOn(rs: Round, s: int, t: Tile)
    requires Inv(rs) && Step(rs, DoDiscard(s, t)).ok
    ensures 0 <= s < 4 && s == rs.turn && Discarded(rs, s, t, Step(rs, DoDiscard(s, t)).rs)
  {
    AcceptedIffAllowed(rs, DoDiscard(s, t));
    DiscardForm(rs, s, t);
    LyingKeeps(rs, s, t);
    LaidOut(rs, s, t);
    var l := Lying(rs, s, t);
    AfterLaying(rs, l, s, t, AfterDiscard(l, s, t));
    NextActiveIsNext(l, s);
    NextAlike(l, rs, s, NextActive(l, s));
    assert Gives(WithDraw(rs), l.hands, s, t, 1);
  }

  // ---------- after a win ----------

  lemma SettlePassesTurn(rs: Round, s: Seat, r1: Round, o: Outcome)
    requires Stocked(r1) && AllDone(r1.opening.missingDone) && !r1.closed && o == Settle(rs, s, r1)
    requires (0 <= rs.lastDiscardSeat || !ByClaim(rs, s)) && r1.pendingDraw == NO_TILE
    ensures o.rs.closed <==> |r1.wins| >= 3 || r1.wall == []
    ensures o.rs.phase != ClaimPhase ==> DrewFrom(r1.wall, r1.hands, o.rs)
    ensures !o.rs.closed && o.rs.phase != ClaimPhase ==>
              NextInPlay(o.rs, if ByClaim(rs, s) then rs.lastDiscardSeat else s, o.rs.turn)
    ensures !o.rs.closed ==> (o.rs.phase == ClaimPhase <==> ByClaim(rs, s) && HuLeftAt(r1.candidates, 3))
    ensures o.rs.phase == ClaimPhase ==> o.rs == r1.(phase := ClaimPhase)
  {
    var r3 := TurnAfterWin(rs, s, r1);
    TurnAfterWinKeeps(rs, s, r1);
    DrawEnds(r3, DrawForCurrentTurn(r3));
    EndsDrew(r3, DrawForCurrentTurn(r3).rs);
    var from: Seat := if ByClaim(rs, s) then rs.lastDiscardSeat else s;
    NextActiveIsNext(ClearClaimWindow(r1), from);
    NextAlike(ClearClaimWindow(r1), o.rs, from, r3.turn);
  }

  /** Another seat is asked for a win on the same tile. */
  predicate AnotherWins(rs: Round, s: int) {
    exists i :: 0 <= i < |rs.candidates| && rs.candidates[i].seat != s && rs.candidates[i].hu
  }

  lemma OtherStays(cs: seq<Candidate>, i: nat, j: nat, rest: seq<Candidate>)
    requires i < |cs| && j < |cs| && i != j && cs[j].hu && cs[j].priority == 3 && rest == cs[..i] + cs[i + 1..]
    ensures HuLeftAt(rest, 3)
  {
    var k := if j < i then j else j - 1;
    assert rest[k] == cs[j];
  }

  lemma StayerIsOther(rs: Round, s: int, i: nat, rest: seq<Candidate>)
    requires CandidatesOk(rs) && Answers(rs, i, s) && HuLeftAt(rest, 3) && rest == rs.candidates[..i] + rs.candidates[i + 1..]
    ensures AnotherWins(rs, s)
  {
    var j :| 0 <= j < |rest| && rest[j].priority == 3 && rest[j].hu;
    var k := if j < i then j else j + 1;
    assert rs.candidates[k] == rest[j];
    assert rs.candidates[k].seat != rs.candidates[i].seat;
  }

  lemma OthersLeft(rs: Round, s: int, i: nat)
    requires Inv(rs) && rs.phase == ClaimPhase && Answers(rs, i, s)
    ensures HuLeftAt(RemoveCandidate(rs.candidates, s), 3) <==> AnotherWins(rs, s)
  {
    AnswerLeaves(rs, i, s);
    var rest := rs.candidates[..i] + rs.candidates[i + 1..];
    if AnotherWins(rs, s) {
      var j :| 0 <= j < |rs.candidates| && rs.candidates[j].seat != s && rs.candidates[j].hu;
      assert CandidateOk(rs, rs.candidates[j]);
      OtherStays(rs.candidates, i, j, rest);
    }
    if HuLeftAt(rest, 3) { StayerIsOther(rs, s, i, rest); }
  }

  /** The hands after the win: a robbed kong's tile has left the konger's hand, if it was still there. */
  ghost predicate Robs(rs: Round, h: Piles) {
    if rs.phase == ClaimPhase && rs.qiangGang && rs.lastDiscard in rs.hands[rs.turn] then
      Gives(rs.hands, h, rs.turn, rs.lastDiscard, 1)
    else h == rs.hands
  }

  lemma RecordedRobs(rs: Round, s: Seat, fan: nat)
    requires Inv(rs) && CanHu(rs, s)
    ensures var r1 := RecordHu(rs, s, fan); Robs(rs, r1.hands) && r1.wall == rs.wall && r1.pendingDraw == NO_TILE
  {
    HuGuard(rs, s);
    if rs.qiangGang {
      if rs.lastDiscard in rs.hands[rs.turn] {
        OneTaken(rs.hands, rs.turn, rs.lastDiscard);
      } else {
        NothingTaken(rs.hands[rs.turn], rs.lastDiscard);
      }
    }
  }

  lemma {:induction false} NothingTaken(h: seq<Tile>, t: Tile)
    requires t !in h
    ensures RemoveOne(h, t) == h
  {
    if h != [] { NothingTaken(h[1..], t); }
  }

  /**
   * What a win leads to. A third win or an empty wall ends the hand. Otherwise other seats that may win
   * on the same tile are still asked, in the same order; failing that the next seat in play draws,
   * counted from the one who laid the tile or from the winner who drew it.
   */
  ghost predicate WonOn(rs: Round, s: Seat, r1: Round) {
    && (r1.closed <==> |rs.wins| == 2 || rs.wall == [])
    && (exists h: Piles :: Robs(rs, h)
          && if r1.phase == ClaimPhase then r1.hands == h && r1.wall == rs.wall else DrewFrom(rs.wall, h, r1))
    && if r1.closed then true
       else if rs.phase == ClaimPhase && AnotherWins(rs, s) then
         && r1.phase == ClaimPhase && r1.turn == rs.turn
         && r1.lastDiscard == rs.lastDiscard && r1.lastDiscardSeat == rs.lastDiscardSeat && r1.qiangGang == rs.qiangGang
         && exists i: nat :: Answers(rs, i, s) && r1.candidates == rs.candidates[..i] + rs.candidates[i + 1..]
       else
         && r1.phase != ClaimPhase && (rs.phase == ClaimPhase ==> 0 <= rs.lastDiscardSeat)
         && NextInPlay(r1, if rs.phase == ClaimPhase then rs.lastDiscardSeat else s, r1.turn)
  }

  lemma WinMovesOn(rs: Round, s: int)
    requires Inv(rs) && Step(rs, DoHu(s)).ok
    ensures 0 <= s < 4 && WonOn(rs, s, Step(rs, DoHu(s)).rs)
  {
    AcceptedIffAllowed(rs, DoHu(s));
    WinTurn(rs, s, WinFan(rs, s), ApplyHu(rs, s, WinFan(rs, s)));
  }

  lemma WinTurn(rs: Round, s: Seat, fan: nat, o: Outcome)
    requires Inv(rs) && CanHu(rs, s) && fan > 0 && o == ApplyHu(rs, s, fan)
    ensures WonOn(rs, s, o.rs)
  {
    var r1 := RecordHu(rs, s, fan);
    HuGuard(rs, s);
    HuForm(rs, s, fan);
    RecordKeeps(rs, s, fan);
    RecordedWin(rs, s, fan);
    RecordedRobs(rs, s, fan);
    SettlePassesTurn(rs, s, r1, o);
    if rs.phase == ClaimPhase {
      ClaimsAnswered(rs, s);
      var i: nat :| Answers(rs, i, s);
      AnswerLeaves(rs, i, s);
      OthersLeft(rs, s, i);
      RecordHuFrame(rs, s, fan);
    }
  }

  // ---------- after a pong ----------

  /** A pong takes two tiles from the hand and the one on offer from the pile, and the claimer is to discard. */
  ghost predicate Ponged(rs: Round, s: Seat, r1: Round) {
    var t := rs.lastDiscard;
    && SameBooks(rs.(turn := s, dealerFirstDiscardOpen := false, discards := r1.discards, melds := r1.melds), r1)
    && !r1.closed && r1.phase == DiscardPhase && r1.wall == rs.wall && LosesLast(rs.discards, r1.discards, rs.lastDiscardSeat)
    && Gives(rs.hands, r1.hands, s, t, 2) && Laid(rs, r1, s, Meld(Pong, [t, t, t], rs.lastDiscardSeat))
  }

  lemma PongMovesOn(rs: Round, s: int)
    requires Inv(rs) && Step(rs, DoPong(s)).ok
    ensures 0 <= s < 4 && Ponged(rs, s, Step(rs, DoPong(s)).rs)
  {
    AcceptedIffAllowed(rs, DoPong(s));
    ClaimGuard(rs, s);
    PongForm(rs, s);
    var t := rs.lastDiscard;
    Copies(t);
    TakenTiles(rs.hands, s, [t, t], t);
  }

  // ---------- after a pass ----------

  /** What an accepted pass leads to. */
  ghost predicate PassedOn(rs: Round, s: Seat, r1: Round) {
    if rs.phase == TsumoPhase then
      && SameBooks(rs.(step := rs.step + 1), r1) && r1.wall == rs.wall && !r1.closed && r1.phase == DiscardPhase
      && r1.pendingDraw == NO_TILE && r1.hands == rs.hands[s := rs.hands[s] + [rs.pendingDraw]]
    else if |rs.candidates| > 1 then
      exists i: nat :: Answers(rs, i, s) && r1 == rs.(candidates := rs.candidates[..i] + rs.candidates[i + 1..])
    else if rs.qiangGang then AddedToPong(rs, r1, rs.turn, rs.lastDiscard)
    else rs.wall != [] && SameBooks(rs.(dealerFirstDiscardOpen := false), r1) && Drawn(rs, r1)
  }

  lemma NobodyClaims(rs: Round, r0: Round, o: Outcome)
    requires Inv(rs) && rs.phase == ClaimPhase && !rs.qiangGang && r0 == rs.(candidates := []) && o == AllPassed(r0)
    ensures rs.wall != [] && SameBooks(rs.(dealerFirstDiscardOpen := false), o.rs) && Drawn(rs, o.rs)
  {
    var r2 := CloseOpeningClaim(ClearClaimWindow(r0));
    assert SameTable(rs, r2) && SameAmount(rs, r2);
    SameAmountStocked(rs, r2);
    DrawEnds(r2, DrawForCurrentTurn(r2));
    assert WinsOn(r2, r2.turn, rs.wall[0]) == WinsOn(rs, rs.turn, rs.wall[0]);
  }

  lemma ClaimPassed(rs: Round, s: int, i: nat, o: Outcome)
    requires Inv(rs) && rs.phase == ClaimPhase && Answers(rs, i, s) && o == ApplyPass(rs, s) && o.ok && IsTop(rs, s)
    ensures 0 <= s < 4 && PassedOn(rs, s, o.rs)
  {
    AnswerLeaves(rs, i, s);
    if |rs.candidates| == 1 {
      var r0 := rs.(candidates := []);
      assert o == AllPassed(r0);
      if rs.qiangGang {
        PassTiles(rs, s);
        AllPassedPays(rs, r0, o);
      } else {
        NobodyClaims(rs, r0, o);
      }
    }
  }

  lemma DrawPassed(rs: Round, s: Seat, r1: Round)
    requires Inv(rs) && rs.phase == TsumoPhase && s == rs.turn && r1 == TakePendingDraw(rs, s).(step := rs.step + 1)
    ensures PassedOn(rs, s, r1)
  {
  }

  /**
   * After a pass: the drawn tile goes to the hand, the other candidates are asked on, the waiting
   * kong is completed, or the seat whose turn it is draws.
   */
  lemma PassMovesOn(rs: Round, s: int)
    requires Inv(rs) && Step(rs, DoPass(s)).ok
    ensures 0 <= s < 4 && PassedOn(rs, s, Step(rs, DoPass(s)).rs)
  {
    PassAllowed(rs, s);
    if rs.phase == ClaimPhase {
      ClaimsAnswered(rs, s);
      var i: nat :| Answers(rs, i, s);
      ClaimPassed(rs, s, i, ApplyPass(rs, s));
    } else {
      DrawPassed(rs, s, ApplyPass(rs, s).rs);
    }
  }

  // ---------- after a timeout ----------

  /** Fewer than two seats are left in play. */
  predicate NoContest(rs: Round) { forall x: Seat, y: Seat :: InPlay(rs, x) && InPlay(rs, y) ==> x == y }

  lemma ContestIsCounted(rs: Round)
    ensures NoContest(rs) <==> ActiveCount(rs) <= 1
  {
    InPlayIsActive(rs, 0);
    InPlayIsActive(rs, 1);
    InPlayIsActive(rs, 2);
    InPlayIsActive(rs, 3);
    CountedPairs(rs);
  }

  lemma CountedPairs(rs: Round)
    ensures NoContest(rs) <==>
      !(InPlay(rs, 0) && InPlay(rs, 1)) && !(InPlay(rs, 0) && InPlay(rs, 2)) && !(InPlay(rs, 0) && InPlay(rs, 3))
      && !(InPlay(rs, 1) && InPlay(rs, 2)) && !(InPlay(rs, 1) && InPlay(rs, 3)) && !(InPlay(rs, 2) && InPlay(rs, 3))
  {
    if !(InPlay(rs, 0) && InPlay(rs, 1)) && !(InPlay(rs, 0) && InPlay(rs, 2)) && !(InPlay(rs, 0) && InPlay(rs, 3))
      && !(InPlay(rs, 1) && InPlay(rs, 2)) && !(InPlay(rs, 1) && InPlay(rs, 3)) && !(InPlay(rs, 2) && InPlay(rs, 3)) {
      forall x: Seat, y: Seat | InPlay(rs, x) && InPlay(rs, y) ensures x == y {
        assert (x == 0 || x == 1 || x == 2 || x == 3) && (y == 0 || y == 1 || y == 2 || y == 3);
      }
    }
  }

  /** The seat has walked out. */
  function WithoutSeat(rs: Round, s: Seat): Round { rs.(surrendered := rs.surrendered[s := true]) }

  /** The seat at turn is out, and the next one in play draws; nothing is left to decide among fewer than two. */
  ghost predicate TurnGivenUp(rs: Round, r1: Round) {
    var m := WithoutSeat(rs, rs.turn);
    && (r1.closed <==> rs.wall == [] || NoContest(m))
    && SameBooks(m.(turn := r1.turn, dealerFirstDiscardOpen := false), r1)
    && (!r1.closed ==> rs.wall != [] && InPlay(m, r1.turn) && NextInPlay(m, rs.turn, r1.turn)
                       && Drawn(m.(turn := r1.turn, pendingDraw := NO_TILE), r1))
  }

  lemma SomebodyNext(m: Round, from: Seat, to: Seat)
    requires NextInPlay(m, from, to) && !NoContest(m) && !InPlay(m, from)
    ensures InPlay(m, to)
  {
  }

  lemma GivenUpTurn(rs: Round, o: Outcome)
    requires Inv(rs) && (rs.phase == TsumoPhase || rs.phase == DiscardPhase) && o == SurrenderTurn(rs)
    ensures TurnGivenUp(rs, o.rs)
  {
    var m := WithoutSeat(rs, rs.turn);
    var r1 := CloseOpeningClaim(ClearClaimWindow(MarkSurrendered(rs, rs.turn).(pendingDraw := NO_TILE, currentDraw := NO_TILE)));
    ContestIsCounted(r1);
    SameContest(m, r1);
    if !(ActiveCount(r1) <= 1 || ShouldFinish(r1)) {
      var r2 := r1.(turn := NextActive(r1, rs.turn), phase := Idle);
      GivenUpStocked(rs, r2);
      DrawEnds(r2, o);
      NextActiveIsNext(r1, rs.turn);
      NextAlike(r1, m, rs.turn, r2.turn);
      SomebodyNext(m, rs.turn, r2.turn);
      DrawnAlike(r2, m.(turn := r2.turn, pendingDraw := NO_TILE), o.rs);
    }
  }

  lemma SameContest(a: Round, b: Round)
    requires a.wins == b.wins && a.surrendered == b.surrendered
    ensures NoContest(a) <==> NoContest(b)
  {
    forall s: Seat ensures InPlay(a, s) == InPlay(b, s) {}
  }

  lemma GivenUpStocked(rs: Round, r2: Round)
    requires Stocked(rs) && SameTable(rs, r2) && r2.pendingDraw == NO_TILE
    ensures Stocked(r2)
  {
    forall t: Tile ensures Amount(r2, t) <= Supply(t) { assert Amount(rs, t) <= Supply(t); }
  }

  lemma DrawnAlike(a: Round, b: Round, r1: Round)
    requires a.wall != [] && Drawn(a, r1) && b.wall == a.wall && b.hands == a.hands && b.turn == a.turn
    requires b.pendingDraw == a.pendingDraw && b.melds == a.melds && b.opening == a.opening
    requires b.wins == a.wins && b.surrendered == a.surrendered
    ensures Drawn(b, r1)
  {
    assert WinsOn(a, a.turn, a.wall[0]) == WinsOn(b, b.turn, b.wall[0]);
  }

  /** The first of the candidates that are asked first. */
  predicate AskedFirst(rs: Round, i: nat) {
    i < |rs.candidates| && Leads(rs, i) && forall j :: 0 <= j < i ==> !Leads(rs, j)
  }

  lemma {:induction false} BestAt(cs: seq<Candidate>) returns (i: nat)
    requires cs != []
    ensures i < |cs| && cs[i] == Best(cs) && cs[i].priority == TopPriority(cs)
    ensures forall j :: 0 <= j < i ==> cs[j].priority < TopPriority(cs)
  {
    if cs[0].priority == TopPriority(cs) || |cs| == 1 {
      i := 0;
    } else {
      i := BestAt(cs[1..]);
      TopIsThere(cs);
      i := i + 1;
    }
  }

  lemma BestIsAskedFirst(rs: Round) returns (i: nat)
    requires rs.candidates != []
    ensures AskedFirst(rs, i) && Best(rs.candidates) == rs.candidates[i]
  {
    i := BestAt(rs.candidates);
    LeadsIsTop(rs, i);
    forall j: nat | j < i ensures !Leads(rs, j) { LeadsIsTop(rs, j); }
  }

  /** The lowest seat that has neither submitted nor walked out. */
  predicate WaitedFor(rs: Round, done: Flags, w: Seat) {
    !done[w] && !rs.surrendered[w] && forall s: Seat :: s < w ==> done[s] || rs.surrendered[s]
  }

  /** What a timeout leads to: whoever is asked first walks out, and has nothing to give or passes. */
  ghost predicate TimedOut(rs: Round, r1: Round) {
    if rs.phase == OpeningPhase then
      if rs.withExchange && !AllDone(rs.opening.exchangeDone) then
        exists w: Seat :: WaitedFor(rs, rs.opening.exchangeDone, w) && Selected(WithoutSeat(rs, w), r1, w, [], Fixed(rs, 0))
      else
        exists w: Seat :: WaitedFor(rs, rs.opening.missingDone, w) && Named(WithoutSeat(rs, w), r1, w, -1)
    else if rs.phase == ClaimPhase then
      exists i: nat :: AskedFirst(rs, i) && PassedOn(WithoutSeat(rs, rs.candidates[i].seat), rs.candidates[i].seat, r1)
    else TurnGivenUp(rs, r1)
  }

  lemma FirstIsWaitedFor(rs: Round, done: Flags, w: Seat)
    requires w == FirstWaiting(done, rs.surrendered)
    ensures WaitedFor(rs, done, w)
  {
    forall s: Seat | s < w ensures done[s] || rs.surrendered[s] { assert s == 0 || s == 1 || s == 2; }
  }

  lemma OpeningTimedOut(rs: Round)
    requires Inv(rs) && rs.phase == OpeningPhase && Step(rs, DoTimeout).ok
    ensures TimedOut(rs, Step(rs, DoTimeout).rs)
  {
    var o := Step(rs, DoTimeout);
    AcceptedIffAllowed(rs, DoTimeout);
    var w: Seat := FirstWaiting(Submitted(rs), rs.surrendered);
    FirstIsWaitedFor(rs, Submitted(rs), w);
    MarkKeepsInv(rs, w);
    if CurrentStep(rs) == ExchangeStep {
      SelectionNoted(WithoutSeat(rs, w), w, [], 0, true, o);
    } else {
      SuitNoted(WithoutSeat(rs, w), w, 0, true, o);
    }
  }

  lemma WindowTimedOut(rs: Round)
    requires Inv(rs) && rs.phase == ClaimPhase && Step(rs, DoTimeout).ok
    ensures TimedOut(rs, Step(rs, DoTimeout).rs)
  {
    var i := BestIsAskedFirst(rs);
    var s := rs.candidates[i].seat;
    MarkKeepsInv(rs, s);
    PassMovesOn(WithoutSeat(rs, s), s);
  }

  /**
   * A timeout takes out the seat that is asked first. At its turn the next seat in play draws, unless
   * fewer than two are left or the wall is empty; in a window it passes; in the opening it gives no
   * tiles, or names no suit.
   */
  lemma TimeoutMovesOn(rs: Round)
    requires Inv(rs) && Step(rs, DoTimeout).ok
    ensures TimedOut(rs, Step(rs, DoTimeout).rs)
  {
    AcceptedIffAllowed(rs, DoTimeout);
    if rs.phase == OpeningPhase {
      OpeningTimedOut(rs);
    } else if rs.phase == ClaimPhase {
      WindowTimedOut(rs);
    } else {
      GivenUpTurn(rs, Step(rs, DoTimeout));
    }
  }
}
