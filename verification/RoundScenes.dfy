/** Hands that are played out: runs from the deal of a full wall into the states that surprise. */
module RoundScenes {
  import opened Tiles
  import Blocks
  import opened SichuanWin
  import opened Walls
  import opened Rounds
  import opened RoundInv
  import opened RoundTiles
  import opened RoundRuns
  import opened RoundRefusals
  import opened Deals
  import RoundOffers

  // ---------- runs ----------

  lemma RunOne(rs: Round, a: Action, more: seq<Action>)
    ensures Run(rs, [a] + more) == Run(Step(rs, a).rs, more)
  {
    assert ([a] + more)[1..] == more;
  }

  lemma RunTail(rs: Round, acts: seq<Action>, r1: Round, rest: seq<Action>)
    requires acts != [] && r1 == Step(rs, acts[0]).rs && rest == acts[1..]
    ensures Run(rs, acts) == Run(r1, rest)
  {
  }

  lemma {:induction false} RunJoin(rs: Round, first: seq<Action>, more: seq<Action>)
    ensures Run(rs, first + more) == Run(Run(rs, first), more)
    decreases |first|
  {
    if first == [] {
      assert first + more == more;
    } else {
      var r1 := Step(rs, first[0]).rs;
      RunJoin(r1, first[1..], more);
      RunTail(rs, first, r1, first[1..]);
      assert (first + more)[0] == first[0] && (first + more)[1..] == first[1..] + more;
      RunTail(rs, first + more, r1, first[1..] + more);
    }
  }

  // ---------- everybody gives up bamboos ----------

  const ALL_DONE: Flags := [true, true, true, true]

  const NO_BAMBOOS: Suits := [BAMBOO, BAMBOO, BAMBOO, BAMBOO]

  const NAMES: seq<Action> := [DoMissing(0, BAMBOO), DoMissing(1, BAMBOO), DoMissing(2, BAMBOO), DoMissing(3, BAMBOO)]

  /** The missing suits are known and seat 0 is about to draw. */
  function Named(h: Piles, rest: seq<Tile>): Round {
    EmptyTable(rest, false).(hands := h, opening := Opening(NOTHING_DONE, ALL_DONE, NO_PILES, -1, NO_BAMBOOS))
  }

  lemma LastName(rs: Round)
    requires CurrentStep(rs) == MissingStep && !rs.closed && rs.opening.missingDone == [true, true, true, false]
    ensures Step(rs, DoMissing(3, BAMBOO)) == DrawForCurrentTurn(NoteMissing(rs, 3, BAMBOO, false).(phase := Idle))
  {
    assert NoteMissing(rs, 3, BAMBOO, false).opening.missingDone == ALL_DONE;
  }

  lemma NamesAreTaken(h: Piles, rest: seq<Tile>)
    ensures Run(Fresh(h, rest, false), NAMES) == DrawForCurrentTurn(Named(h, rest)).rs
  {
    var rs := Fresh(h, rest, false);
    var r1 := rs.(opening := rs.opening.(missingSuits := [2, 0, 0, 0], missingDone := [true, false, false, false]));
    var r2 := rs.(opening := rs.opening.(missingSuits := [2, 2, 0, 0], missingDone := [true, true, false, false]));
    var r3 := rs.(opening := rs.opening.(missingSuits := [2, 2, 2, 0], missingDone := [true, true, true, false]));
    assert Step(rs, DoMissing(0, BAMBOO)).rs == r1;
    assert Step(r1, DoMissing(1, BAMBOO)).rs == r2;
    assert Step(r2, DoMissing(2, BAMBOO)).rs == r3;
    LastName(r3);
    assert NoteMissing(r3, 3, BAMBOO, false).(phase := Idle) == Named(h, rest);
    assert NAMES == [DoMissing(0, BAMBOO)] + ([DoMissing(1, BAMBOO)] + ([DoMissing(2, BAMBOO)] + ([DoMissing(3, BAMBOO)] + [])));
    RunOne(rs, DoMissing(0, BAMBOO), [DoMissing(1, BAMBOO)] + ([DoMissing(2, BAMBOO)] + ([DoMissing(3, BAMBOO)] + [])));
    RunOne(r1, DoMissing(1, BAMBOO), [DoMissing(2, BAMBOO)] + ([DoMissing(3, BAMBOO)] + []));
    RunOne(r2, DoMissing(2, BAMBOO), [DoMissing(3, BAMBOO)] + []);
    RunOne(r3, DoMissing(3, BAMBOO), []);
  }

  // ---------- a kong that is robbed, and then given up by the next ----------

  /** Three of characters. */
  const LURE: Tile := 0x03

  /** Seats 1 and 2 wait for the lure, seat 3 has three of it, seat 0 has the fourth. */
  function RobbedTables(): Tables {
    [Four(2, 1, 18, 4, 19, 4, 20, 4), RunWait(3, 4, 5, 6, 0), RunWait(12, 13, 14, 15, 0), Four(2, 3, 21, 4, 22, 4, 23, 2)]
  }

  lemma RobbedNeeds(n: nat)
    requires n < Blocks.KINDS
    ensures Needed(RobbedTables(), [], n) <= if n < Blocks.SUITED then 4 else 0
  {
    FourAt(2, 1, 18, 4, 19, 4, 20, 4, n);
    FourAt(2, 3, 21, 4, 22, 4, 23, 2, n);
  }

  lemma FourThirteens(c: Tables)
    requires Blocks.Total(c[0]) == 13 && Blocks.Total(c[1]) == 13 && Blocks.Total(c[2]) == 13 && Blocks.Total(c[3]) == 13
    ensures forall s: Seat :: Blocks.Total(c[s]) == 13
  {
  }

  lemma RobbedThirteens(c: Tables)
    requires c == RobbedTables()
    ensures forall s: Seat :: Blocks.Total(c[s]) == 13
  {
    assert Blocks.Total(c[0]) == 13 by { FourTotal(2, 1, 18, 4, 19, 4, 20, 4); }
    assert Blocks.Total(c[1]) == 13 by { RunWaitTotal(3, 4, 5, 6, 0); }
    assert Blocks.Total(c[2]) == 13 by { RunWaitTotal(12, 13, 14, 15, 0); }
    assert Blocks.Total(c[3]) == 13 by { FourTotal(2, 3, 21, 4, 22, 4, 23, 2); }
    FourThirteens(c);
  }

  lemma RobbedIsEnough()
    ensures Enough(RobbedTables(), [])
  {
    RobbedThirteens(RobbedTables());
    forall n | 0 <= n < Blocks.KINDS ensures Needed(RobbedTables(), [], n) <= if n < Blocks.SUITED then 4 else 0 {
      RobbedNeeds(n);
    }
  }

  /** What stays as it is until the kong is robbed. */
  ghost predicate Seated(rs: Round) {
    && !rs.closed && rs.wall != [] && rs.wins == [] && rs.surrendered == NOTHING_DONE && !rs.withExchange
    && rs.opening.missingDone == ALL_DONE && rs.opening.missingSuits == NO_BAMBOOS && rs.pendingDraw == NO_TILE
    && 0x21 in rs.hands[0] && 0x24 in rs.hands[3] && WaitsForLure(rs, 1) && WaitsForLure(rs, 2)
  }

  ghost predicate WaitsForLure(rs: Round, s: Seat) {
    Num(rs.hands[s], LURE) == 0 && CheckHu(rs.hands[s], LURE, BAMBOO, rs.melds[s])
  }

  function Winner(s: Seat): Candidate { Candidate(s, true, false, false, false, 3) }

  const PONGER: Candidate := Candidate(3, false, true, true, false, 2)

  /** The discarded lure is on offer to these seats. */
  ghost predicate OnOffer(rs: Round, cs: seq<Candidate>) {
    && Seated(rs) && rs.phase == ClaimPhase && rs.candidates == cs && rs.lastDiscard == LURE && rs.lastDiscardSeat == 0
    && !rs.qiangGang && rs.currentDraw == NO_TILE && Num(rs.hands[3], LURE) == 3 && rs.melds[3] == []
  }

  lemma OneCandidate(c: Candidate)
    ensures TopPriority([c]) == c.priority && CandidateOf([c], c.seat) == Some(c) && RemoveCandidate([c], c.seat) == []
    ensures forall s: Seat :: s != c.seat ==> RemoveCandidate([c], s) == [c]
  {
    assert [c][1..] == [] && [c][0] == c;
  }

  lemma TwoCandidates(c: Candidate, d: Candidate)
    requires c.seat != d.seat && c.priority >= d.priority
    ensures TopPriority([c, d]) == c.priority && CandidateOf([c, d], c.seat) == Some(c)
    ensures RemoveCandidate([c, d], c.seat) == [d]
  {
    assert [c, d][1..] == [d] && [c, d][0] == c;
    OneCandidate(d);
  }

  lemma WinnerIsOffered(rs: Round, offset: nat, s: Seat)
    requires Seated(rs) && rs.lastDiscard == LURE && 0 <= rs.lastDiscardSeat && 1 <= offset <= 3
    requires s == (rs.lastDiscardSeat + offset) % 4 && (s == 1 || s == 2)
    ensures Offer(rs, offset) == [Winner(s)]
  {
  }

  lemma NobodyIsOffered(rs: Round, offset: nat)
    requires Seated(rs) && rs.lastDiscard == LURE && 0 <= rs.lastDiscardSeat && 1 <= offset <= 3
    requires (rs.lastDiscardSeat + offset) % 4 == 0 && rs.qiangGang
    ensures Offer(rs, offset) == []
  {
    HoldsMissing(rs.hands[0], 0x21, LURE, rs.melds[0]);
  }

  lemma PongIsOffered(rs: Round, offset: nat)
    requires Seated(rs) && rs.lastDiscard == LURE && 0 <= rs.lastDiscardSeat && 1 <= offset <= 3
    requires (rs.lastDiscardSeat + offset) % 4 == 3 && !rs.qiangGang && Num(rs.hands[3], LURE) == 3
    ensures Offer(rs, offset) == [PONGER]
  {
    HoldsMissing(rs.hands[3], 0x24, LURE, rs.melds[3]);
  }

  lemma DiscardIsOffered(rs: Round)
    requires Seated(rs) && rs.lastDiscard == LURE && rs.lastDiscardSeat == 0 && !rs.qiangGang && Num(rs.hands[3], LURE) == 3
    ensures BuildCandidates(rs) == [Winner(1), Winner(2), PONGER]
  {
    RoundOffers.BuiltInThree(rs);
    WinnerIsOffered(rs, 1, 1);
    WinnerIsOffered(rs, 2, 2);
    PongIsOffered(rs, 3);
  }

  lemma KongIsOffered(rs: Round)
    requires Seated(rs) && rs.lastDiscard == LURE && rs.lastDiscardSeat == 3 && rs.qiangGang
    ensures BuildCandidates(rs) == [Winner(1), Winner(2)]
  {
    RoundOffers.BuiltInThree(rs);
    NobodyIsOffered(rs, 1);
    WinnerIsOffered(rs, 2, 1);
    WinnerIsOffered(rs, 3, 2);
  }

  /** Seat 0 is to discard and has the lure. */
  ghost predicate ToDiscard(rs: Round) {
    && Seated(rs) && rs.phase == DiscardPhase && rs.turn == 0 && LURE in rs.hands[0] && !rs.qiangGang
    && Num(rs.hands[3], LURE) == 3 && rs.melds[3] == []
  }

  lemma BambooStays(h: seq<Tile>)
    requires 0x21 in h
    ensures 0x21 in RemoveOne(h, LURE)
  {
    NumMember(h, 0x21);
    NumRemove(h, LURE, 0x21);
    NumMember(RemoveOne(h, LURE), 0x21);
  }

  lemma LureIsLaid(rs: Round, r2: Round)
    requires ToDiscard(rs)
    requires var r1 := LayDiscard(rs, 0, LURE); r2 == r1.(lastDiscard := LURE, lastDiscardSeat := 0, turn := NextActive(r1, 0))
    ensures Seated(r2) && r2.currentDraw == NO_TILE && Num(r2.hands[3], LURE) == 3 && r2.melds[3] == [] && !r2.qiangGang
    ensures r2.lastDiscard == LURE && r2.lastDiscardSeat == 0
  {
    BambooStays(rs.hands[0]);
  }

  lemma DiscardStep(rs: Round, r1: Round, r2: Round)
    requires ToDiscard(rs) && r1 == LayDiscard(rs, 0, LURE)
    requires r2 == r1.(lastDiscard := LURE, lastDiscardSeat := 0, turn := NextActive(r1, 0)) && BuildCandidates(r2) != []
    ensures ApplyDiscard(rs, 0, LURE).rs == OpenClaimWindow(r2)
  {
  }

  lemma LureIsDiscarded(rs: Round)
    requires ToDiscard(rs)
    ensures OnOffer(Step(rs, DoDiscard(0, LURE)).rs, [Winner(1), Winner(2), PONGER])
  {
    var r1 := LayDiscard(rs, 0, LURE);
    var r2 := r1.(lastDiscard := LURE, lastDiscardSeat := 0, turn := NextActive(r1, 0));
    LureIsLaid(rs, r2);
    DiscardIsOffered(r2);
    DiscardStep(rs, r1, r2);
    assert Step(rs, DoDiscard(0, LURE)) == ApplyDiscard(rs, 0, LURE);
  }

  lemma WinnerPasses(rs: Round, s: Seat, more: seq<Candidate>)
    requires OnOffer(rs, [Winner(s)] + more) && more != [] && RemoveCandidate(more, s) == more && TopPriority(more) <= 3
    ensures OnOffer(Step(rs, DoPass(s)).rs, more)
  {
    assert rs.candidates[0] == Winner(s) && rs.candidates[1..] == more;
    assert TopPriority(rs.candidates) == 3;
    assert RemoveCandidate(rs.candidates, s) == more;
  }

  /** Seat 3 has laid out its pong and holds the fourth lure. */
  ghost predicate Ponged(rs: Round) {
    && Seated(rs) && rs.phase == DiscardPhase && rs.turn == 3 && Num(rs.hands[3], LURE) == 1
    && rs.melds[3] == [Meld(Pong, [LURE, LURE, LURE], 0)]
  }

  lemma LureIsPonged(rs: Round)
    requires OnOffer(rs, [PONGER])
    ensures Ponged(Step(rs, DoPong(3)).rs)
  {
    OneCandidate(PONGER);
    assert rs.candidates[0] == PONGER;
    var h := rs.hands[3];
    CopiesCount(LURE, LURE);
    CopiesCount(LURE, 0x24);
    RemoveEachTakes(h, [LURE, LURE]);
    assert Within([LURE, LURE], h) by {
      forall t: Tile ensures Num([LURE, LURE], t) <= Num(h, t) { CopiesCount(LURE, t); }
    }
    NumMember(h, 0x24);
    NumMember(RemoveEach(h, [LURE, LURE]).0, 0x24);
    PongForm2(rs, RemoveEach(h, [LURE, LURE]).0);
  }

  lemma PongForm2(rs: Round, h: seq<Tile>)
    requires OnOffer(rs, [PONGER]) && CanClaimPong(rs, 3) && RemoveEach(rs.hands[3], [LURE, LURE]) == (h, true)
    ensures var r1 := Step(rs, DoPong(3)).rs;
            && r1.hands == rs.hands[3 := h] && r1.melds == rs.melds[3 := [Meld(Pong, [LURE, LURE, LURE], 0)]]
            && r1.phase == DiscardPhase && r1.turn == 3 && r1.wall == rs.wall && r1.wins == rs.wins && r1.closed == rs.closed
            && r1.surrendered == rs.surrendered && r1.opening == rs.opening && r1.withExchange == rs.withExchange
            && r1.pendingDraw == NO_TILE
  {
    var begun := CloseOpeningClaim(ClearClaimWindow(rs));
    assert BeginClaim(rs) == Outcome(begun, true);
    var m := Meld(Pong, [LURE, LURE, LURE], 0);
    assert rs.melds[3] + [m] == [m];
    var r2 := RemoveLastDiscard(begun.(hands := rs.hands[3 := h]), 0, LURE);
    assert Step(rs, DoPong(3)).rs == ClaimerDiscards(RecordMeld(r2, 3, m), 3);
  }

  /** The added kong waits for seats 1 and 2. */
  ghost predicate KongWaits(rs: Round) {
    && Seated(rs) && rs.phase == ClaimPhase && rs.qiangGang && rs.pendingGangSeat == 3 && rs.pendingGangTile == LURE
    && rs.lastDiscard == LURE && rs.lastDiscardSeat == 3 && rs.candidates == [Winner(1), Winner(2)]
    && Num(rs.hands[3], LURE) == 1
  }

  lemma KongMayBeAdded(rs: Round)
    requires Ponged(rs)
    ensures CanBuGang(rs, 3, LURE) && !CanClaimGang(rs, 3)
  {
    NumMember(rs.hands[3], LURE);
    var ms := rs.melds[3];
    assert ms[0] == Meld(Pong, [LURE, LURE, LURE], 0);
    assert FirstPong(ms, LURE) == 0 && HasFullPong(ms, LURE);
  }

  lemma AddedByGang(rs: Round, seat: Seat, t: Tile)
    requires CanBuGang(rs, seat, t) && !CanClaimGang(rs, seat)
    ensures ApplyGang(rs, seat, t) == BuGangBy(rs, seat, t)
  {
  }

  lemma KongIsAdded(rs: Round)
    requires Ponged(rs)
    ensures KongWaits(BuGangBy(rs, 3, LURE).rs)
  {
    var r1 := rs.(lastDiscard := LURE, lastDiscardSeat := 3, pendingGangSeat := 3, pendingGangTile := LURE, qiangGang := true);
    assert Seated(r1);
    KongIsOffered(r1);
    assert OfferBuGang(rs, 3, LURE) == r1.(candidates := [Winner(1), Winner(2)]);
  }

  /** Seat 1 has robbed the kong; seat 2 may still. */
  ghost predicate RobbedOnce(rs: Round) {
    && rs.phase == ClaimPhase && rs.qiangGang && rs.pendingGangSeat == 3 && rs.pendingGangTile == LURE
    && rs.candidates == [Winner(2)] && LURE !in rs.hands[3]
  }

  lemma RobbedTileGoes(h: seq<Tile>)
    requires Num(h, LURE) == 1
    ensures LURE !in RemoveOne(h, LURE)
  {
    NumRemove(h, LURE, LURE);
    NumMember(h, LURE);
    NumMember(RemoveOne(h, LURE), LURE);
  }

  lemma RobberyIsRecorded(rs: Round, fan: nat)
    requires KongWaits(rs)
    ensures CanHu(rs, 1) && ByClaim(rs, 1) && CandidateOf(rs.candidates, 1) == Some(Winner(1))
    ensures var r1 := RecordHu(rs, 1, fan);
            && RobbedOnce(r1.(phase := ClaimPhase)) && !ShouldFinish(r1)
  {
    TwoCandidates(Winner(1), Winner(2));
    assert rs.candidates[0] == Winner(1);
    RobbedTileGoes(rs.hands[3]);
  }

  /** A win by claim leaves the window open for the next one of the same priority. */
  lemma NextMayWin(rs: Round, seat: Seat, fan: nat, r1: Round)
    requires CanHu(rs, seat) && ByClaim(rs, seat) && fan > 0 && r1 == RecordHu(rs, seat, fan)
    requires !ShouldFinish(r1) && HuLeftAt(r1.candidates, CandidateOf(rs.candidates, seat).value.priority)
    ensures ApplyHu(rs, seat, fan).rs == r1.(phase := ClaimPhase)
  {
  }

  lemma KongIsRobbed(rs: Round, fan: nat)
    requires KongWaits(rs) && fan > 0
    ensures RobbedOnce(ApplyHu(rs, 1, fan).rs)
  {
    RobberyIsRecorded(rs, fan);
    var r1 := RecordHu(rs, 1, fan);
    assert r1.candidates[0] == Winner(2);
    NextMayWin(rs, 1, fan, r1);
  }

  // ---------- from the deal on ----------

  const ROBBERY: seq<Action> :=
    [DoDiscard(0, LURE), DoPass(1), DoPass(2), DoPong(3), DoGang(3, LURE), DoHu(1)]

  /** A full wall that deals hands to the seats leaves tiles to draw, and the next one is no flower. */
  lemma TilesAreLeft(c: Tables, next: seq<nat>)
    requires Enough(c, next)
    ensures |RestOf(c, next)| == 56 && RestOf(c, next)[0] != NO_TILE && !IsFlower(RestOf(c, next)[0])
  {
    WallDeals(c, next, false);
    var w := WallOf(c, next);
    HandsAreDealt(c, next);
    assert w == Around(HandsOf(c), 52) + RestOf(c, next);
    TileIsCounted(w, 52);
    assert Num(w, w[52]) == Supply(w[52]) && w[52] == RestOf(c, next)[0];
  }

  lemma DrawIsKept(h: Piles, rest: seq<Tile>)
    requires rest != [] && !IsFlower(rest[0]) && 0x21 in h[0]
    ensures DrawForCurrentTurn(Named(h, rest)).rs == KeepDraw(Named(h, rest).(wall := rest[1..]), rest[0])
  {
    var rs := Named(h, rest);
    HoldsMissing(h[0], 0x21, rest[0], []);
    assert DrawPlayable(rs, 0) == (rs.(wall := rest[1..]), Some(rest[0]));
  }

  lemma RobbedTablesAre(c: Tables)
    requires c == RobbedTables()
    ensures c[0][2] == 1 && c[0][18] == 4 && c[3][2] == 3 && c[3][21] == 4
    ensures c[1] == RunWait(3, 4, 5, 6, 0) && c[2] == RunWait(12, 13, 14, 15, 0)
  {
    FourAt(2, 1, 18, 4, 19, 4, 20, 4, 2);
    FourAt(2, 1, 18, 4, 19, 4, 20, 4, 18);
    FourAt(2, 3, 21, 4, 22, 4, 23, 2, 2);
    FourAt(2, 3, 21, 4, 22, 4, 23, 2, 21);
  }

  lemma RobbedHandsAre(c: Tables)
    requires c[0][2] == 1 && c[0][18] == 4 && c[3][2] == 3 && c[3][21] == 4
    requires c[1] == RunWait(3, 4, 5, 6, 0) && c[2] == RunWait(12, 13, 14, 15, 0)
    ensures var h := HandsOf(c);
            && 0x21 in h[0] && 0x24 in h[3] && LURE in h[0] && Num(h[3], LURE) == 3
            && Num(h[1], LURE) == 0 && Num(h[2], LURE) == 0
            && CheckHu(h[1], LURE, BAMBOO, []) && CheckHu(h[2], LURE, BAMBOO, [])
  {
    LaidAt(c[0], 0x21, 18);
    LaidAt(c[0], LURE, 2);
    LaidAt(c[1], LURE, 2);
    LaidAt(c[2], LURE, 2);
    LaidAt(c[3], LURE, 2);
    LaidAt(c[3], 0x24, 21);
    WinsOn(3, 4, 5, 6, 0, LURE);
    WinsOn(12, 13, 14, 15, 0, LURE);
  }

  lemma FirstToDiscard(h: Piles, rest: seq<Tile>)
    requires |rest| > 1 && 0x21 in h[0] && 0x24 in h[3] && LURE in h[0] && Num(h[3], LURE) == 3
    requires Num(h[1], LURE) == 0 && Num(h[2], LURE) == 0
    requires CheckHu(h[1], LURE, BAMBOO, []) && CheckHu(h[2], LURE, BAMBOO, [])
    ensures ToDiscard(KeepDraw(Named(h, rest).(wall := rest[1..]), rest[0]))
  {
    var g := h[0] + [rest[0]];
    NumMember(h[0], 0x21);
    NumMember(h[0], LURE);
    NumConcat(h[0], [rest[0]], 0x21);
    NumConcat(h[0], [rest[0]], LURE);
    NumMember(g, 0x21);
    NumMember(g, LURE);
  }

  lemma GangStep(rs: Round, a: Action)
    requires a.DoGang?
    ensures Step(rs, a) == ApplyGang(rs, a.seat, a.tile)
  {
  }

  lemma KongIsTaken(r4: Round, r5: Round, r6: Round)
    requires Ponged(r4) && r5 == BuGangBy(r4, 3, LURE).rs && r6 == ApplyHu(r5, 1, WinFan(r5, 1)).rs
    ensures Step(r4, DoGang(3, LURE)).rs == r5 && Step(r5, DoHu(1)).rs == r6 && RobbedOnce(r6)
  {
    KongMayBeAdded(r4);
    AddedByGang(r4, 3, LURE);
    GangStep(r4, DoGang(3, LURE));
    KongIsAdded(r4);
    HuStep(r5, DoHu(1), WinFan(r5, 1), ApplyHu(r5, 1, WinFan(r5, 1)));
    KongIsRobbed(r5, WinFan(r5, 1));
  }

  lemma RobberyRuns(rs: Round)
    requires ToDiscard(rs)
    ensures RobbedOnce(Run(rs, ROBBERY))
  {
    LureIsDiscarded(rs);
    var r1 := Step(rs, DoDiscard(0, LURE)).rs;
    BothPass(r1);
    var r3 := Step(Step(r1, DoPass(1)).rs, DoPass(2)).rs;
    LureIsPonged(r3);
    var r4 := Step(r3, DoPong(3)).rs;
    var r5 := BuGangBy(r4, 3, LURE).rs;
    KongIsTaken(r4, r5, ApplyHu(r5, 1, WinFan(r5, 1)).rs);
    SixSteps(rs, r3, DoDiscard(0, LURE), DoPass(1), DoPass(2), DoPong(3), DoGang(3, LURE), DoHu(1));
  }

  lemma BothPass(rs: Round)
    requires OnOffer(rs, [Winner(1), Winner(2), PONGER])
    ensures OnOffer(Step(Step(rs, DoPass(1)).rs, DoPass(2)).rs, [PONGER])
  {
    assert [Winner(1)] + [Winner(2), PONGER] == [Winner(1), Winner(2), PONGER];
    assert [Winner(2)] + [PONGER] == [Winner(2), PONGER] && [Winner(2), PONGER][1..] == [PONGER];
    TwoCandidates(Winner(2), PONGER);
    OneCandidate(PONGER);
    WinnerPasses(rs, 1, [Winner(2), PONGER]);
    WinnerPasses(Step(rs, DoPass(1)).rs, 2, [PONGER]);
  }

  lemma ThreeSteps(rs: Round, a: Action, b: Action, c: Action)
    ensures Run(rs, [a, b, c]) == Step(Step(Step(rs, a).rs, b).rs, c).rs
  {
    assert [c] == [c] + [] && [b, c] == [b] + [c] && [a, b, c] == [a] + [b, c];
    RunOne(rs, a, [b, c]);
    RunOne(Step(rs, a).rs, b, [c]);
    RunOne(Step(Step(rs, a).rs, b).rs, c, []);
  }

  lemma SixSteps(rs: Round, mid: Round, a: Action, b: Action, c: Action, d: Action, e: Action, f: Action)
    requires mid == Step(Step(Step(rs, a).rs, b).rs, c).rs
    ensures Run(rs, [a, b, c, d, e, f]) == Step(Step(Step(mid, d).rs, e).rs, f).rs
  {
    assert [a, b, c, d, e, f] == [a, b, c] + [d, e, f];
    RunJoin(rs, [a, b, c], [d, e, f]);
    ThreeSteps(rs, a, b, c);
    ThreeSteps(mid, d, e, f);
  }

  lemma RobbedOnceIsDead(rs: Round)
    requires RobbedOnce(rs)
    ensures DeadPass(rs, 2) && MayPass(rs, 2)
  {
    OneCandidate(Winner(2));
    assert rs.candidates[0] == Winner(2);
  }

  lemma LastPassSticks(start: Round, acts: seq<Action>)
    requires Inv(start) && RobbedOnce(Run(start, acts))
    ensures MayPass(Run(start, acts), 2) && !Step(Run(start, acts), DoPass(2)).ok && Stuck(Run(start, acts + [DoPass(2)]))
  {
    var rs := Run(start, acts);
    RunKeepsInv(start, acts);
    RobbedOnceIsDead(rs);
    PassTiles(rs, 2);
    DeadPassLeaves(rs, 2);
    RunJoin(start, acts, [DoPass(2)]);
    assert [DoPass(2)] == [DoPass(2)] + [];
    RunOne(rs, DoPass(2), []);
  }

  lemma NamesLeadThere(c: Tables)
    requires Enough(c, []) && c == RobbedTables()
    ensures ToDiscard(Run(Fresh(HandsOf(c), RestOf(c, []), false), NAMES))
  {
    var h, rest := HandsOf(c), RestOf(c, []);
    TilesAreLeft(c, []);
    RobbedTablesAre(c);
    RobbedHandsAre(c);
    NamesAreTaken(h, rest);
    DrawIsKept(h, rest);
    FirstToDiscard(h, rest);
  }

  lemma RobberyFrom(c: Tables, wall: seq<Tile>, acts: seq<Action>)
    requires Enough(c, []) && c == RobbedTables() && wall == WallOf(c, []) && acts == NAMES + ROBBERY
    ensures IsFullWall(wall) && RobbedOnce(Run(StartRound(wall, false).rs, acts))
  {
    WallDeals(c, [], false);
    NamesLeadThere(c);
    var start := StartRound(wall, false).rs;
    RobberyRuns(Run(start, NAMES));
    RunJoin(start, NAMES, ROBBERY);
  }

  /**
   * From a full wall, in eleven actions: an added kong is robbed by one seat, the next one gives it up,
   * the pass is refused, and the hand is stuck.
   */
  lemma RobbedKongSticks()
    ensures Enough(RobbedTables(), [])
    ensures var wall, acts := WallOf(RobbedTables(), []), NAMES + ROBBERY;
            var start := StartRound(wall, false).rs;
            && IsFullWall(wall) && MayPass(Run(start, acts), 2) && !Step(Run(start, acts), DoPass(2)).ok
            && Stuck(Run(start, acts + [DoPass(2)]))
  {
    RobbedIsEnough();
    var wall, acts := WallOf(RobbedTables(), []), NAMES + ROBBERY;
    RobberyFrom(RobbedTables(), wall, acts);
    StartIsInv(wall, false);
    LastPassSticks(StartRound(wall, false).rs, acts);
  }

  // ---------- three seats that win with their first draw ----------

  const NO_MELDS: MeldTable := [[], [], [], []]

  /** The first three seats wait for what they are about to draw. */
  ghost predicate Lucky(h: Piles, w: seq<Tile>) {
    && |w| > 3 && NO_TILE != w[0] && NO_TILE != w[1] && NO_TILE != w[2]
    && !IsFlower(w[0]) && !IsFlower(w[1]) && !IsFlower(w[2])
    && CheckHu(h[0], w[0], BAMBOO, []) && CheckHu(h[1], w[1], BAMBOO, []) && CheckHu(h[2], w[2], BAMBOO, [])
  }

  predicate OnlyWins(es: seq<ScoreEvent>) { forall i :: 0 <= i < |es| ==> es[i].reason == HuTsumo }

  /** The seats below k have won by their own draws, and nothing else has happened. */
  predicate WonSoFar(rs: Round, h: Piles, k: nat) {
    && rs.hands == h && rs.melds == NO_MELDS && rs.surrendered == NOTHING_DONE && !rs.withExchange
    && rs.opening.missingDone == ALL_DONE && rs.opening.missingSuits == NO_BAMBOOS
    && |rs.wins| == k && (forall i :: 0 <= i < k ==> rs.wins[i].seat == i)
    && rs.candidates == [] && !rs.qiangGang && OnlyWins(rs.scores)
  }

  predicate ToDrawLuck(rs: Round, h: Piles, w: seq<Tile>, k: nat) {
    WonSoFar(rs, h, k) && !rs.closed && k < 3 < |w| && rs.turn == k && rs.wall == w[k..]
  }

  predicate AskedToWin(rs: Round, h: Piles, w: seq<Tile>, k: nat) {
    && WonSoFar(rs, h, k) && !rs.closed && k < 3 < |w| && rs.turn == k && rs.wall == w[k + 1..]
    && rs.phase == TsumoPhase && rs.pendingDraw == w[k]
  }

  lemma LuckIsDrawn(rs: Round, h: Piles, w: seq<Tile>, k: nat)
    requires ToDrawLuck(rs, h, w, k) && Lucky(h, w)
    ensures AskedToWin(DrawForCurrentTurn(rs).rs, h, w, k)
  {
    var r1 := rs.(wall := rs.wall[1..]);
    assert rs.wall[0] == w[k] && rs.wall[1..] == w[k + 1..];
    assert DrawPlayable(rs, rs.turn) == (r1, Some(w[k]));
    assert CheckSeatHu(r1, k, w[k]);
  }

  lemma LuckMayWin(rs: Round, h: Piles, w: seq<Tile>, k: nat)
    requires AskedToWin(rs, h, w, k) && Lucky(h, w)
    ensures CanHu(rs, k) && !ByClaim(rs, k)
  {
    assert !HasWon(rs, k);
  }

  lemma {:induction false} WinPaymentsAreWins(payers: seq<Seat>, seat: Seat, fan: nat, step: nat)
    ensures OnlyWins(WinPayments(payers, seat, fan, step))
  {
    if payers != [] { WinPaymentsAreWins(payers[1..], seat, fan, step); }
  }

  lemma LuckIsRecorded(rs: Round, h: Piles, w: seq<Tile>, k: nat, fan: nat)
    requires AskedToWin(rs, h, w, k) && !ByClaim(rs, k)
    ensures var r1 := RecordHu(rs, k, fan);
            WonSoFar(r1, h, k + 1) && !r1.closed && r1.wall == rs.wall && r1.phase == Idle && ClearClaimWindow(r1) == r1
  {
    WinPaymentsAreWins(ActiveSeats(rs), k, fan, rs.step);
    var r1 := RecordHu(rs, k, fan);
    assert forall i :: 0 <= i < k ==> r1.wins[i] == rs.wins[i];
  }

  lemma AfterSelfDraw(rs: Round, seat: Seat, fan: nat, r1: Round)
    requires CanHu(rs, seat) && !ByClaim(rs, seat) && fan > 0 && r1 == RecordHu(rs, seat, fan) && ClearClaimWindow(r1) == r1
    ensures ApplyHu(rs, seat, fan) ==
      if ShouldFinish(r1) then Outcome(FinishRound(r1), true) else DrawForCurrentTurn(r1.(turn := NextActive(r1, seat)))
  {
  }

  lemma TurnMovesOn(r1: Round, h: Piles, k: nat)
    requires WonSoFar(r1, h, k + 1) && k < 2
    ensures NextActive(r1, k) == k + 1
  {
    assert !HasWon(r1, k + 1);
  }

  lemma LuckGoesOn(rs: Round, h: Piles, w: seq<Tile>, k: nat)
    requires AskedToWin(rs, h, w, k) && Lucky(h, w) && k < 2
    ensures AskedToWin(Step(rs, DoHu(k)).rs, h, w, k + 1)
  {
    var fan := WinFan(rs, k);
    LuckMayWin(rs, h, w, k);
    LuckIsRecorded(rs, h, w, k, fan);
    var r1 := RecordHu(rs, k, fan);
    AfterSelfDraw(rs, k, fan, r1);
    TurnMovesOn(r1, h, k);
    LuckIsDrawn(r1.(turn := k + 1), h, w, k + 1);
    HuStep(rs, DoHu(k), fan, ApplyHu(rs, k, fan));
  }

  /** Three have won: the hand is over. */
  predicate ThreeHaveWon(rs: Round, h: Piles) { WonSoFar(rs, h, 3) && rs.closed }

  lemma LuckEnds(rs: Round, h: Piles, w: seq<Tile>)
    requires AskedToWin(rs, h, w, 2) && Lucky(h, w)
    ensures ThreeHaveWon(Step(rs, DoHu(2)).rs, h)
  {
    var fan := WinFan(rs, 2);
    LuckMayWin(rs, h, w, 2);
    LuckIsRecorded(rs, h, w, 2, fan);
    AfterSelfDraw(rs, 2, fan, RecordHu(rs, 2, fan));
    HuStep(rs, DoHu(2), fan, ApplyHu(rs, 2, fan));
  }

  /** The three wait for three of characters, of dots and of characters; the last seat has only bamboos. */
  function LuckyTables(): Tables {
    [RunWait(3, 4, 5, 6, 0), RunWait(12, 13, 14, 15, 9), RunWait(7, 8, 16, 17, 0), Four(18, 4, 19, 4, 20, 4, 21, 1)]
  }

  const DRAWS: seq<nat> := [2, 11, 2]

  lemma DrawTimes(i: nat)
    ensures TimesIn(DRAWS, i) == (if i == 2 then 2 else 0) + (if i == 11 then 1 else 0)
  {
    assert DRAWS[1..] == [11, 2] && [11, 2][1..] == [2] && [2][1..] == [];
    assert TimesIn([2], i) == if i == 2 then 1 else 0;
    assert TimesIn([11, 2], i) == (if i == 11 then 1 else 0) + TimesIn([2], i);
  }

  lemma LuckyNeeds(n: nat)
    requires n < Blocks.KINDS
    ensures Needed(LuckyTables(), DRAWS, n) <= if n < Blocks.SUITED then 4 else 0
  {
    FourAt(18, 4, 19, 4, 20, 4, 21, 1, n);
    DrawTimes(n);
  }

  lemma LuckyThirteens(c: Tables)
    requires c == LuckyTables()
    ensures forall s: Seat :: Blocks.Total(c[s]) == 13
  {
    FourTotal(18, 4, 19, 4, 20, 4, 21, 1);
    RunWaitTotal(3, 4, 5, 6, 0);
    RunWaitTotal(12, 13, 14, 15, 9);
    RunWaitTotal(7, 8, 16, 17, 0);
  }

  lemma LuckyIsEnough()
    ensures Enough(LuckyTables(), DRAWS)
  {
    LuckyThirteens(LuckyTables());
    forall n | 0 <= n < Blocks.KINDS ensures Needed(LuckyTables(), DRAWS, n) <= if n < Blocks.SUITED then 4 else 0 {
      LuckyNeeds(n);
    }
  }

  lemma OneMoreTile(next: seq<nat>)
    requires next != [] && forall i :: 0 <= i < |next| ==> next[i] < Blocks.KINDS
    ensures TilesAt(next) == [TileAt(next[0])] + TilesAt(next[1..])
  {
  }

  lemma ThreeTilesAt(next: seq<nat>)
    requires |next| == 3 && forall i :: 0 <= i < |next| ==> next[i] < Blocks.KINDS
    ensures TilesAt(next) == [TileAt(next[0]), TileAt(next[1]), TileAt(next[2])]
  {
    OneMoreTile(next);
    OneMoreTile(next[1..]);
    OneMoreTile(next[1..][1..]);
    assert next[1..][1..][1..] == [] && next[1..][0] == next[1] && next[1..][1..][0] == next[2];
  }

  lemma FirstThree(xs: seq<Tile>, more: seq<Tile>)
    requires |xs| == 3
    ensures (xs + more)[0] == xs[0] && (xs + more)[1] == xs[1] && (xs + more)[2] == xs[2]
  {
  }

  lemma DrawsAre(i: nat, j: nat, more: seq<Tile>)
    requires i < Blocks.KINDS && j < Blocks.KINDS
    ensures var rest := TilesAt([i, j, i]) + more;
            |rest| >= 3 && rest[0] == TileAt(i) && rest[1] == TileAt(j) && rest[2] == TileAt(i)
  {
    ThreeTilesAt([i, j, i]);
    FirstThree(TilesAt([i, j, i]), more);
  }

  lemma KindOfTile(i: nat)
    requires i < Blocks.KINDS
    ensures Index(TileAt(i)) == i && TileAt(i) != NO_TILE && !IsFlower(TileAt(i))
  {
    IndexIsReal(i);
  }

  lemma LuckyHandsAre(c: Tables, w: seq<Tile>)
    requires c[0] == RunWait(3, 4, 5, 6, 0) && c[1] == RunWait(12, 13, 14, 15, 9) && c[2] == RunWait(7, 8, 16, 17, 0)
    requires |w| > 3 && Index(w[0]) == 2 && Index(w[1]) == 11 && Index(w[2]) == 2
    requires w[0] != NO_TILE && w[1] != NO_TILE && w[2] != NO_TILE
    requires !IsFlower(w[0]) && !IsFlower(w[1]) && !IsFlower(w[2])
    ensures Lucky(HandsOf(c), w)
  {
    WinsOn(3, 4, 5, 6, 0, w[0]);
    WinsOn(12, 13, 14, 15, 9, w[1]);
    WinsOn(7, 8, 16, 17, 0, w[2]);
  }

  /** After the missing suits seat 0 is asked whether it wins. */
  lemma LuckBegins(c: Tables, rest: seq<Tile>)
    requires Enough(c, DRAWS) && c == LuckyTables() && rest == RestOf(c, DRAWS) && |rest| > 3
    ensures Index(rest[0]) == 2 && Lucky(HandsOf(c), rest)
    ensures AskedToWin(Run(Fresh(HandsOf(c), rest, false), NAMES), HandsOf(c), rest, 0)
  {
    var h := HandsOf(c);
    DrawsAre(2, 11, Laid(Leftover(c, DRAWS), Blocks.KINDS));
    KindOfTile(2);
    KindOfTile(11);
    LuckyHandsAre(c, rest);
    NamesAreTaken(h, rest);
    assert rest[0..] == rest;
    LuckIsDrawn(Named(h, rest), h, rest, 0);
  }

  lemma NoBamboo(c: Tables)
    requires c[0] == RunWait(3, 4, 5, 6, 0)
    ensures 0x21 !in HandsOf(c)[0]
  {
    LaidAt(c[0], 0x21, 18);
  }

  /**
   * From a full wall: a seat that is asked whether it wins by its draw discards a tile it does not
   * hold; that is refused, but the question is gone and the drawn tile is in its hand.
   */
  lemma UnheldDiscardSticks()
    ensures Enough(LuckyTables(), DRAWS)
    ensures var wall, a := WallOf(LuckyTables(), DRAWS), DoDiscard(0, 0x21);
            var rs := Run(StartRound(wall, false).rs, NAMES);
            && IsFullWall(wall) && DiscardsUnheld(rs, a) && !Step(rs, a).ok
            && Step(rs, a).rs == TakePendingDraw(rs, 0) && Step(rs, a).rs != rs
  {
    LuckyIsEnough();
    UnheldFrom(LuckyTables(), WallOf(LuckyTables(), DRAWS));
  }

  lemma UnheldFrom(c: Tables, wall: seq<Tile>)
    requires Enough(c, DRAWS) && c == LuckyTables() && wall == WallOf(c, DRAWS)
    ensures var a := DoDiscard(0, 0x21);
            var rs := Run(StartRound(wall, false).rs, NAMES);
            && IsFullWall(wall) && DiscardsUnheld(rs, a) && !Step(rs, a).ok
            && Step(rs, a).rs == TakePendingDraw(rs, 0) && Step(rs, a).rs != rs
  {
    WallDeals(c, DRAWS, false);
    TilesAreLeft(c, DRAWS);
    LuckBegins(c, RestOf(c, DRAWS));
    NoBamboo(c);
    StartIsInv(wall, false);
    UnheldIsRefused(StartRound(wall, false).rs, NAMES, 0x21);
  }

  lemma UnheldIsRefused(start: Round, acts: seq<Action>, t: Tile)
    requires Inv(start) && t != NO_TILE
    requires var rs := Run(start, acts);
             rs.phase == TsumoPhase && rs.turn == 0 && t !in rs.hands[0] && t != rs.pendingDraw
    ensures var rs, a := Run(start, acts), DoDiscard(0, t);
            DiscardsUnheld(rs, a) && !Step(rs, a).ok && Step(rs, a).rs == TakePendingDraw(rs, 0) && Step(rs, a).rs != rs
  {
    RunKeepsInv(start, acts);
    AcceptedIffAllowed(Run(start, acts), DoDiscard(0, t));
    RefusalEffect(Run(start, acts), DoDiscard(0, t));
  }

  const LUCK: seq<Action> := [DoHu(0), DoHu(1), DoHu(2)]

  lemma LuckRuns(rs: Round, h: Piles, w: seq<Tile>)
    requires AskedToWin(rs, h, w, 0) && Lucky(h, w)
    ensures ThreeHaveWon(Run(rs, LUCK), h)
  {
    LuckGoesOn(rs, h, w, 0);
    LuckGoesOn(Step(rs, DoHu(0)).rs, h, w, 1);
    LuckEnds(Step(Step(rs, DoHu(0)).rs, DoHu(1)).rs, h, w);
    ThreeSteps(rs, DoHu(0), DoHu(1), DoHu(2));
  }

  /** From a full wall, in seven actions, three seats win by their own draws and the hand is over. */
  lemma ThreeWin(c: Tables, wall: seq<Tile>)
    requires Enough(c, DRAWS) && c == LuckyTables() && wall == WallOf(c, DRAWS)
    ensures IsFullWall(wall) && ThreeHaveWon(Run(StartRound(wall, false).rs, NAMES + LUCK), HandsOf(c))
  {
    WallDeals(c, DRAWS, false);
    var rest := RestOf(c, DRAWS);
    TilesAreLeft(c, DRAWS);
    LuckBegins(c, rest);
    LuckRuns(Run(StartRound(wall, false).rs, NAMES), HandsOf(c), rest);
    RunJoin(StartRound(wall, false).rs, NAMES, LUCK);
  }
}
