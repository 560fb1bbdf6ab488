/** Who is asked about a tile: every claim that is due is offered, and no other. */
module RoundOffers {
  import opened Lists
  import opened Tiles
  import opened SichuanWin
  import opened Rounds
  import opened RoundInv
  import opened RoundTiles
  import opened RoundRefusals
  import opened RoundDraws

  // ---------- what is due ----------

  /** The tile is of the suit that the seat has to do without. */
  predicate GivenUp(rs: Round, s: Seat, t: Tile) {
    0 <= rs.opening.missingSuits[s] <= 2 && Suit(t) == rs.opening.missingSuits[s]
  }

  /** The seat is in play, holds so many copies of t, and t is not of the suit it gave up. */
  predicate MayMeld(rs: Round, s: Seat, t: Tile, copies: nat) {
    InPlay(rs, s) && Num(rs.hands[s], t) >= copies && !GivenUp(rs, s, t)
  }

  /** Another seat wins on t, or a pair of its own makes a meld with it. */
  ghost predicate IsDue(rs: Round, s: Seat, t: Tile, robbing: bool) {
    WinsOn(rs, s, t) || (!robbing && MayMeld(rs, s, t, 2))
  }

  predicate HuListed(cs: seq<Candidate>, s: Seat) { exists i :: 0 <= i < |cs| && cs[i].seat == s && cs[i].hu }

  predicate GangListed(cs: seq<Candidate>, s: Seat) { exists i :: 0 <= i < |cs| && cs[i].seat == s && cs[i].gang }

  predicate PongListed(cs: seq<Candidate>, s: Seat) { exists i :: 0 <= i < |cs| && cs[i].seat == s && cs[i].pong }

  /** The seat may do exactly what is due to it; while a kong is being robbed only a win is. */
  ghost predicate SeatIsAsked(rs: Round, cs: seq<Candidate>, s: Seat, t: Tile, robbing: bool) {
    && (HuListed(cs, s) <==> WinsOn(rs, s, t))
    && (GangListed(cs, s) <==> !robbing && MayMeld(rs, s, t, 3))
    && (PongListed(cs, s) <==> !robbing && MayMeld(rs, s, t, 2))
  }

  predicate NotAsked(cs: seq<Candidate>, s: Seat) { !HuListed(cs, s) && !GangListed(cs, s) && !PongListed(cs, s) }

  /** A win comes before a kong, a kong before a pong. */
  function RankOf(c: Candidate): nat { if c.hu then 3 else if c.gang then 2 else 1 }

  /** Asked for something, and ranked by the best of it. */
  predicate Ranked(c: Candidate) { (c.hu || c.gang || c.pong) && !c.chi && c.priority == RankOf(c) }

  /** Each seat stands there once, in turn order. */
  predicate InOrder(cs: seq<Candidate>, from: Seat) {
    && (forall i :: 0 <= i < |cs| ==> Ranked(cs[i]))
    && forall i, j :: 0 <= i < j < |cs| ==> Places(from, cs[i].seat) < Places(from, cs[j].seat)
  }

  /** How many places the seat sits after another one. */
  function Places(from: Seat, s: Seat): nat { if s >= from then s - from else s - from + 4 }

  /** Everybody but the seat that laid t is asked for exactly what is due to it. */
  ghost predicate AsksWhatIsDue(rs: Round, cs: seq<Candidate>, from: Seat, t: Tile, robbing: bool) {
    InOrder(cs, from) && forall s: Seat :: AskedRightly(rs, cs, s, from, t, robbing)
  }

  ghost predicate AskedRightly(rs: Round, cs: seq<Candidate>, s: Seat, from: Seat, t: Tile, robbing: bool) {
    if s == from then NotAsked(cs, s) else SeatIsAsked(rs, cs, s, t, robbing)
  }

  // ---------- one seat ----------

  /** The seat that many places on. */
  function SeatAt(from: Seat, offset: nat): Seat { (from + offset) % 4 }

  lemma SeatsAround(from: Seat)
    ensures Places(from, SeatAt(from, 1)) == 1 && Places(from, SeatAt(from, 2)) == 2 && Places(from, SeatAt(from, 3)) == 3
  {
  }

  lemma OnePlaceEach(from: Seat, s: Seat, u: Seat)
    ensures Places(from, s) == Places(from, u) <==> s == u
    ensures Places(from, s) <= 3 && (Places(from, s) == 0 <==> s == from)
  {
  }

  /** At most one candidate, who sits at u and is asked for what is due to it. */
  ghost predicate AsksOnly(rs: Round, cs: seq<Candidate>, u: Seat, t: Tile, robbing: bool) {
    && |cs| <= 1 && SeatIsAsked(rs, cs, u, t, robbing)
    && (cs != [] ==> cs[0].seat == u && Ranked(cs[0]))
  }

  /** The offer to one seat is what is due to it. */
  lemma OfferIsDue(rs: Round, offset: nat, s: Seat)
    requires 1 <= offset <= 3 && AllDone(rs.opening.missingDone) && rs.lastDiscard != NO_TILE && 0 <= rs.lastDiscardSeat
    requires s == SeatAt(rs.lastDiscardSeat, offset)
    ensures AsksOnly(rs, Offer(rs, offset), s, rs.lastDiscard, rs.qiangGang)
  {
    InPlayIsActive(rs, s);
    var cs := Offer(rs, offset);
    if cs != [] {
      assert HuListed(cs, s) <==> cs[0].hu;
      assert GangListed(cs, s) <==> cs[0].gang;
      assert PongListed(cs, s) <==> cs[0].pong;
    }
  }

  // ---------- the whole window ----------

  lemma JoinListed(a: seq<Candidate>, b: seq<Candidate>, s: Seat)
    ensures HuListed(a + b, s) <==> HuListed(a, s) || HuListed(b, s)
    ensures GangListed(a + b, s) <==> GangListed(a, s) || GangListed(b, s)
    ensures PongListed(a + b, s) <==> PongListed(a, s) || PongListed(b, s)
  {
    var ab := a + b;
    forall i | 0 <= i < |a| ensures a[i] == ab[i] {}
    forall i | 0 <= i < |b| ensures b[i] == ab[|a| + i] {}
    assert forall i :: |a| <= i < |ab| ==> ab[i] == b[i - |a|];
  }

  /** The same seats are asked for the same. */
  predicate SameListing(a: seq<Candidate>, b: seq<Candidate>, s: Seat) {
    (HuListed(a, s) <==> HuListed(b, s)) && (GangListed(a, s) <==> GangListed(b, s)) && (PongListed(a, s) <==> PongListed(b, s))
  }

  lemma JoinUnasked(a: seq<Candidate>, b: seq<Candidate>, s: Seat)
    ensures NotAsked(a, s) ==> SameListing(a + b, b, s)
    ensures NotAsked(b, s) ==> SameListing(a + b, a, s)
  {
    JoinListed(a, b, s);
  }

  lemma OthersUnasked(rs: Round, cs: seq<Candidate>, u: Seat, t: Tile, robbing: bool, s: Seat)
    requires AsksOnly(rs, cs, u, t, robbing) && s != u
    ensures NotAsked(cs, s)
  {
  }

  lemma ThreeAsked(rs: Round, a: seq<Candidate>, b: seq<Candidate>, c: seq<Candidate>, x: Seat, y: Seat, z: Seat,
                   t: Tile, robbing: bool, s: Seat)
    requires AsksOnly(rs, a, x, t, robbing) && AsksOnly(rs, b, y, t, robbing) && AsksOnly(rs, c, z, t, robbing)
    requires x != y && x != z && y != z
    ensures s != x && s != y && s != z ==> NotAsked(a + b + c, s)
    ensures s == x || s == y || s == z ==> SeatIsAsked(rs, a + b + c, s, t, robbing)
  {
    JoinUnasked(a + b, c, s);
    JoinUnasked(a, b, s);
    if s != x { OthersUnasked(rs, a, x, t, robbing, s); }
    if s != y { OthersUnasked(rs, b, y, t, robbing, s); }
    if s != z { OthersUnasked(rs, c, z, t, robbing, s); }
  }

  /** Candidates in order that sit at least so many places after the seat. */
  predicate InOrderFrom(cs: seq<Candidate>, from: Seat, least: nat) {
    InOrder(cs, from) && forall i :: 0 <= i < |cs| ==> Places(from, cs[i].seat) >= least
  }

  lemma PutInOrder(a: seq<Candidate>, b: seq<Candidate>, from: Seat, place: nat)
    requires |a| <= 1 && InOrder(a, from) && InOrderFrom(b, from, place + 1)
    requires a != [] ==> Places(from, a[0].seat) == place
    ensures InOrderFrom(a + b, from, place)
  {
    var ab := a + b;
    forall i | 0 <= i < |ab| ensures Ranked(ab[i]) && Places(from, ab[i].seat) >= place {
      assert ab[i] == if i < |a| then a[i] else b[i - |a|];
    }
    forall i, j | 0 <= i < j < |ab| ensures Places(from, ab[i].seat) < Places(from, ab[j].seat) {
      assert ab[j] == b[j - |a|];
      assert ab[i] == if i < |a| then a[i] else b[i - |a|];
    }
  }

  lemma BuiltInThree(rs: Round)
    ensures BuildCandidates(rs) == Offer(rs, 1) + Offer(rs, 2) + Offer(rs, 3)
  {
    assert OffersFrom(rs, 4) == [];
    assert OffersFrom(rs, 3) == Offer(rs, 3);
    assert OffersFrom(rs, 2) == Offer(rs, 2) + Offer(rs, 3);
    assert OffersFrom(rs, 1) == Offer(rs, 1) + (Offer(rs, 2) + Offer(rs, 3));
  }

  /** Every claim that is due is among the candidates, and nothing else is. */
  lemma BuildAsks(rs: Round)
    requires AllDone(rs.opening.missingDone) && rs.lastDiscard != NO_TILE && 0 <= rs.lastDiscardSeat
    ensures AsksWhatIsDue(rs, BuildCandidates(rs), rs.lastDiscardSeat, rs.lastDiscard, rs.qiangGang)
  {
    var from: Seat, t := rs.lastDiscardSeat, rs.lastDiscard;
    var x, y, z := SeatAt(from, 1), SeatAt(from, 2), SeatAt(from, 3);
    SeatsAround(from);
    OfferIsDue(rs, 1, x);
    OfferIsDue(rs, 2, y);
    OfferIsDue(rs, 3, z);
    BuiltInThree(rs);
    ThreeAsk(rs, Offer(rs, 1), Offer(rs, 2), Offer(rs, 3), from, x, y, z, t, rs.qiangGang);
  }

  lemma OneInOrder(cs: seq<Candidate>, from: Seat, place: nat)
    requires |cs| <= 1 && (cs != [] ==> Ranked(cs[0]) && Places(from, cs[0].seat) == place)
    ensures InOrderFrom(cs, from, place)
  {
  }

  lemma ThreeInOrder(a: seq<Candidate>, b: seq<Candidate>, c: seq<Candidate>, from: Seat)
    requires |a| <= 1 && |b| <= 1 && |c| <= 1
    requires a != [] ==> Ranked(a[0]) && Places(from, a[0].seat) == 1
    requires b != [] ==> Ranked(b[0]) && Places(from, b[0].seat) == 2
    requires c != [] ==> Ranked(c[0]) && Places(from, c[0].seat) == 3
    ensures InOrder(a + b + c, from)
  {
    OneInOrder(a, from, 1);
    OneInOrder(b, from, 2);
    OneInOrder(c, from, 3);
    PutInOrder(b, c, from, 2);
    PutInOrder(a, b + c, from, 1);
    JoinThree(a, b, c);
  }

  lemma ThreeAsk(rs: Round, a: seq<Candidate>, b: seq<Candidate>, c: seq<Candidate>, from: Seat, x: Seat, y: Seat, z: Seat,
                 t: Tile, robbing: bool)
    requires AsksOnly(rs, a, x, t, robbing) && AsksOnly(rs, b, y, t, robbing) && AsksOnly(rs, c, z, t, robbing)
    requires Places(from, x) == 1 && Places(from, y) == 2 && Places(from, z) == 3
    ensures AsksWhatIsDue(rs, a + b + c, from, t, robbing)
  {
    ThreeInOrder(a, b, c, from);
    forall s: Seat ensures AskedRightly(rs, a + b + c, s, from, t, robbing) {
      AskedAt(rs, a, b, c, from, x, y, z, t, robbing, s);
    }
  }

  lemma AskedAt(rs: Round, a: seq<Candidate>, b: seq<Candidate>, c: seq<Candidate>, from: Seat, x: Seat, y: Seat, z: Seat,
                t: Tile, robbing: bool, s: Seat)
    requires AsksOnly(rs, a, x, t, robbing) && AsksOnly(rs, b, y, t, robbing) && AsksOnly(rs, c, z, t, robbing)
    requires Places(from, x) == 1 && Places(from, y) == 2 && Places(from, z) == 3
    ensures AskedRightly(rs, a + b + c, s, from, t, robbing)
  {
    OnePlaceEach(from, s, x);
    OnePlaceEach(from, s, y);
    OnePlaceEach(from, s, z);
    ThreeAsked(rs, a, b, c, x, y, z, t, robbing, s);
  }

  /** Whether anybody is asked at all. */
  lemma AskedIffDue(rs: Round, cs: seq<Candidate>, from: Seat, t: Tile, robbing: bool)
    requires AsksWhatIsDue(rs, cs, from, t, robbing)
    ensures cs != [] <==> exists s: Seat :: s != from && IsDue(rs, s, t, robbing)
  {
    if cs != [] {
      var s := cs[0].seat;
      assert Ranked(cs[0]);
      assert HuListed(cs, s) || GangListed(cs, s) || PongListed(cs, s);
      assert AskedRightly(rs, cs, s, from, t, robbing);
      assert MayMeld(rs, s, t, 3) ==> MayMeld(rs, s, t, 2);
      assert s != from && IsDue(rs, s, t, robbing);
    }
    if s: Seat :| s != from && IsDue(rs, s, t, robbing) {
      assert AskedRightly(rs, cs, s, from, t, robbing);
    }
  }

  /** Claims are judged by the other hands, the melds, the missing suits and who is in play. */
  predicate JudgedAlike(a: Round, b: Round, from: Seat) {
    && a.melds == b.melds && a.opening == b.opening && a.wins == b.wins && a.surrendered == b.surrendered
    && forall s: Seat :: s != from ==> a.hands[s] == b.hands[s]
  }

  lemma AsksAlike(a: Round, b: Round, cs: seq<Candidate>, from: Seat, t: Tile, robbing: bool)
    requires JudgedAlike(a, b, from) && AsksWhatIsDue(a, cs, from, t, robbing)
    ensures AsksWhatIsDue(b, cs, from, t, robbing)
  {
    forall s: Seat ensures AskedRightly(b, cs, s, from, t, robbing) {
      assert AskedRightly(a, cs, s, from, t, robbing);
      if s != from { assert WinsOn(a, s, t) == WinsOn(b, s, t); }
    }
  }

  // ---------- a discard ----------

  /** The tile lies in the pile, and nobody has been asked yet. */
  function Lying(rs: Round, seat: Seat, t: Tile): Round {
    LayDiscard(if rs.phase == TsumoPhase then TakePendingDraw(rs, seat) else rs, seat, t)
  }

  lemma DiscardForm(rs: Round, seat: int, t: Tile)
    requires Inv(rs) && MayDiscard(rs, seat, t)
    ensures ApplyDiscard(rs, seat, t) == AfterDiscard(Lying(rs, seat, t), seat, t) && Stocked(Lying(rs, seat, t))
  {
    var r1 := if rs.phase == TsumoPhase then TakePendingDraw(rs, seat) else rs;
    if rs.phase == TsumoPhase { TakePendingTiles(rs, seat); }
    assert SameAmount(rs, r1);
    LayDiscardTiles(r1, seat, t);
    SameAmountStocked(rs, r1);
    SameAmountStocked(r1, LayDiscard(r1, seat, t));
  }

  lemma LyingKeeps(rs: Round, seat: Seat, t: Tile)
    requires Inv(rs) && MayDiscard(rs, seat, t)
    ensures var r1 := Lying(rs, seat, t);
            && JudgedAlike(r1, rs, seat) && r1.wall == rs.wall && !r1.closed && !r1.qiangGang && |r1.wins| < 3
            && AllDone(r1.opening.missingDone) && r1.pendingDraw == NO_TILE && r1.phase == DiscardPhase
  {
  }

  /** The window that opens over a discard. */
  lemma WindowAsks(rs: Round, r1: Round, seat: Seat, t: Tile)
    requires JudgedAlike(r1, rs, seat) && !r1.qiangGang && AllDone(r1.opening.missingDone) && t != NO_TILE
    ensures AsksWhatIsDue(rs, OpenClaimWindow(Exposed(r1, seat, t)).candidates, seat, t, false)
  {
    var r2 := Exposed(r1, seat, t);
    BuildAsks(r2);
    AsksAlike(r2, rs, BuildCandidates(r2), seat, t, false);
  }

  /** The state from which the next seat draws when nobody is asked about a discard. */
  ghost function Unclaimed(rs: Round, seat: Seat, t: Tile): Round {
    CloseOpeningClaim(ClearClaimWindow(OpenClaimWindow(Exposed(rs, seat, t))))
  }

  lemma NoWindow(rs: Round, seat: Seat, t: Tile)
    requires Stocked(rs) && AllDone(rs.opening.missingDone) && !rs.closed
    ensures ShouldFinish(rs) ==> AfterDiscard(rs, seat, t) == Outcome(FinishRound(rs), true)
    ensures !ShouldFinish(rs) && OpenClaimWindow(Exposed(rs, seat, t)).candidates != [] ==>
      AfterDiscard(rs, seat, t) == Outcome(OpenClaimWindow(Exposed(rs, seat, t)), true)
    ensures !ShouldFinish(rs) && OpenClaimWindow(Exposed(rs, seat, t)).candidates == [] ==>
      AfterDiscard(rs, seat, t).ok && Ends(Unclaimed(rs, seat, t), AfterDiscard(rs, seat, t).rs)
  {
    var r1 := Unclaimed(rs, seat, t);
    assert SameTable(rs, r1) && SameAmount(rs, r1);
    SameAmountStocked(rs, r1);
    DrawEnds(r1, DrawForCurrentTurn(r1));
  }

  /**
   * A discard ends the hand exactly on an empty wall. Otherwise a window opens exactly when another
   * seat wins on the tile or can make a meld of it, and it asks everybody for what is due to them.
   */
  ghost predicate DiscardAsked(rs: Round, s: Seat, t: Tile, r1: Round) {
    && (r1.closed <==> rs.wall == [])
    && (rs.wall != [] ==> (r1.phase == ClaimPhase <==> exists o: Seat :: o != s && IsDue(rs, o, t, false)))
    && (r1.phase == ClaimPhase ==>
          r1.lastDiscard == t && r1.lastDiscardSeat == s && !r1.qiangGang && AsksWhatIsDue(rs, r1.candidates, s, t, false))
  }

  lemma LaidAsks(rs: Round, l: Round, s: Seat, t: Tile, r1: Round)
    requires JudgedAlike(l, rs, s) && l.wall == rs.wall && !l.closed && !l.qiangGang && |l.wins| < 3 && l.phase != ClaimPhase
    requires AllDone(l.opening.missingDone) && Stocked(l) && t != NO_TILE && r1 == AfterDiscard(l, s, t).rs
    ensures DiscardAsked(rs, s, t, r1)
  {
    var cs := OpenClaimWindow(Exposed(l, s, t)).candidates;
    WindowAsks(rs, l, s, t);
    AskedIffDue(rs, cs, s, t, false);
    NoWindow(l, s, t);
    if l.wall == [] {
      assert r1 == FinishRound(l);
    } else if cs == [] {
      assert Ends(Unclaimed(l, s, t), r1);
    } else {
      assert r1 == OpenClaimWindow(Exposed(l, s, t));
    }
  }

  lemma DiscardAsks(rs: Round, s: int, t: Tile)
    requires Inv(rs) && Step(rs, DoDiscard(s, t)).ok
    ensures 0 <= s < 4 && DiscardAsked(rs, s, t, Step(rs, DoDiscard(s, t)).rs)
  {
    AcceptedIffAllowed(rs, DoDiscard(s, t));
    DiscardForm(rs, s, t);
    LyingKeeps(rs, s, t);
    LaidAsks(rs, Lying(rs, s, t), s, t, Step(rs, DoDiscard(s, t)).rs);
  }

  // ---------- an added kong ----------

  /** A pong of t lies in front of the seat. */
  predicate LaidPong(rs: Round, s: Seat, t: Tile) {
    exists i :: 0 <= i < |rs.melds[s]| && rs.melds[s][i].kind == Pong && rs.melds[s][i].tiles == [t, t, t]
  }

  lemma LaidPongIsFull(rs: Round, s: Seat, t: Tile)
    requires MeldsOk(rs.melds)
    ensures LaidPong(rs, s, t) <==> HasFullPong(rs.melds[s], t)
    ensures LaidPong(rs, s, t) ==> HasPong(rs.melds[s], t)
  {
    FirstPongIs(rs.melds[s], t);
    if HasFullPong(rs.melds[s], t) {
      var i :| 0 <= i < |rs.melds[s]| && rs.melds[s][i].kind == Pong && |rs.melds[s][i].tiles| >= 3
        && rs.melds[s][i].tiles[0] == t && rs.melds[s][i].tiles[1] == t && rs.melds[s][i].tiles[2] == t;
      assert MeldOk(rs.melds[s][i]);
      assert rs.melds[s][i].tiles == [t, t, t];
    }
  }

  lemma RobbersAsked(rs: Round, r1: Round, seat: Seat, t: Tile)
    requires AllDone(rs.opening.missingDone) && t != NO_TILE && r1 == OfferBuGang(rs, seat, t)
    ensures AsksWhatIsDue(rs, r1.candidates, seat, t, true)
    ensures r1.candidates != [] <==> exists s: Seat :: s != seat && WinsOn(rs, s, t)
  {
    var r2 := rs.(lastDiscard := t, lastDiscardSeat := seat, pendingGangSeat := seat, pendingGangTile := t, qiangGang := true);
    BuildAsks(r2);
    AsksAlike(r2, rs, r1.candidates, seat, t, true);
    AskedIffDue(rs, r1.candidates, seat, t, true);
    assert forall s: Seat :: IsDue(rs, s, t, true) == WinsOn(rs, s, t);
  }

  // ---------- who may answer ----------

  /** The candidate is asked first: nobody stands above it. */
  predicate Leads(rs: Round, i: nat)
    requires i < |rs.candidates|
  {
    forall j :: 0 <= j < |rs.candidates| ==> rs.candidates[j].priority <= rs.candidates[i].priority
  }

  lemma LeadsIsTop(rs: Round, i: nat)
    requires i < |rs.candidates|
    ensures Leads(rs, i) <==> rs.candidates[i].priority == TopPriority(rs.candidates)
  {
    TopIsThere(rs.candidates);
    if Leads(rs, i) {
      var j :| 0 <= j < |rs.candidates| && rs.candidates[j] == Best(rs.candidates);
      assert rs.candidates[j].priority <= rs.candidates[i].priority;
    }
  }

  lemma {:induction false} CandidateIs(cs: seq<Candidate>, i: nat)
    requires i < |cs| && forall j, k :: 0 <= j < k < |cs| ==> cs[j].seat != cs[k].seat
    ensures CandidateOf(cs, cs[i].seat) == Some(cs[i])
  {
    if i > 0 { CandidateIs(cs[1..], i - 1); }
  }

  /** The place of a seat among the candidates decides what it may claim. */
  lemma ClaimsOf(rs: Round, i: nat)
    requires Inv(rs) && rs.phase == ClaimPhase && i < |rs.candidates|
    ensures var c := rs.candidates[i];
            && (CanClaimPong(rs, c.seat) <==> c.pong && Leads(rs, i)) && (CanClaimGang(rs, c.seat) <==> c.gang && Leads(rs, i))
            && (IsTop(rs, c.seat) <==> Leads(rs, i)) && (ByClaim(rs, c.seat) <==> c.hu)
            && !HasWon(rs, c.seat) && c.seat != rs.lastDiscardSeat && (c.hu ==> Leads(rs, i))
  {
    CandidateIs(rs.candidates, i);
    LeadsIsTop(rs, i);
    assert CandidateOk(rs, rs.candidates[i]);
    forall j | 0 <= j < |rs.candidates| ensures rs.candidates[j].priority <= 3 { assert CandidateOk(rs, rs.candidates[j]); }
  }

  lemma {:induction false} Unlisted(cs: seq<Candidate>, seat: int)
    requires forall i :: 0 <= i < |cs| ==> cs[i].seat != seat
    ensures CandidateOf(cs, seat) == None
  {
    if cs != [] {
      assert cs[0].seat != seat;
      Unlisted(cs[1..], seat);
    }
  }

  /** The candidate sits at the seat and is asked first. */
  predicate Answers(rs: Round, i: nat, seat: int) { i < |rs.candidates| && rs.candidates[i].seat == seat && Leads(rs, i) }

  lemma OneAnswer(rs: Round, seat: int, i: nat, j: nat)
    requires Inv(rs) && rs.phase == ClaimPhase && Answers(rs, i, seat) && j < |rs.candidates| && rs.candidates[j].seat == seat
    ensures i == j
  {
  }

  lemma ClaimsAnswered(rs: Round, seat: int)
    requires Inv(rs) && rs.phase == ClaimPhase
    ensures CanClaimPong(rs, seat) <==> exists i: nat :: Answers(rs, i, seat) && rs.candidates[i].pong
    ensures CanClaimGang(rs, seat) <==> exists i: nat :: Answers(rs, i, seat) && rs.candidates[i].gang
    ensures IsTop(rs, seat) && ByClaim(rs, seat) <==> exists i: nat :: Answers(rs, i, seat) && rs.candidates[i].hu
    ensures IsTop(rs, seat) <==> exists i: nat :: Answers(rs, i, seat)
  {
    if i: nat :| i < |rs.candidates| && rs.candidates[i].seat == seat {
      ClaimsOf(rs, i);
      if Leads(rs, i) {
        assert Answers(rs, i, seat);
        forall j: nat | Answers(rs, j, seat) ensures j == i { OneAnswer(rs, seat, i, j); }
      } else {
        forall j: nat | Answers(rs, j, seat) ensures false { OneAnswer(rs, seat, j, i); }
      }
    } else {
      Unlisted(rs.candidates, seat);
    }
  }

  lemma HuGuarded(rs: Round, seat: int)
    requires Inv(rs)
    ensures CanHu(rs, seat) <==>
      0 <= seat < 4
      && if rs.phase == ClaimPhase then WinsOn(rs, seat, rs.lastDiscard) && IsTop(rs, seat) && ByClaim(rs, seat)
         else rs.phase == TsumoPhase && seat == rs.turn && WinsOn(rs, seat, rs.pendingDraw)
  {
    if 0 <= seat < 4 && (rs.phase == ClaimPhase || rs.phase == TsumoPhase) {
      WinsOnIsChecked(rs, seat, WinTile(rs, seat));
      InPlayIsActive(rs, seat);
    }
  }

  /**
   * In a window a seat may do exactly what it is asked for, as long as nobody stands above it. With
   * an own draw only the drawer may win, if the tile wins.
   */
  lemma AnswersAllowed(rs: Round, seat: int)
    requires Inv(rs)
    ensures Step(rs, DoPong(seat)).ok <==> rs.phase == ClaimPhase && exists i: nat :: Answers(rs, i, seat) && rs.candidates[i].pong
    ensures Step(rs, DoHu(seat)).ok <==>
      0 <= seat < 4
      && if rs.phase == ClaimPhase then
           WinsOn(rs, seat, rs.lastDiscard) && exists i: nat :: Answers(rs, i, seat) && rs.candidates[i].hu
         else rs.phase == TsumoPhase && seat == rs.turn && WinsOn(rs, seat, rs.pendingDraw)
  {
    AcceptedIffAllowed(rs, DoPong(seat));
    AcceptedIffAllowed(rs, DoHu(seat));
    if rs.phase == ClaimPhase { ClaimsAnswered(rs, seat); }
    HuGuarded(rs, seat);
  }

  // ---------- who is left ----------

  lemma {:induction false} NothingRemoved(cs: seq<Candidate>, seat: int)
    requires forall i :: 0 <= i < |cs| ==> cs[i].seat != seat
    ensures RemoveCandidate(cs, seat) == cs
  {
    if cs != [] {
      assert cs[0].seat != seat;
      NothingRemoved(cs[1..], seat);
    }
  }

  /** A seat that has answered leaves the list, the others stay in order. */
  lemma {:induction false} RemovedAt(cs: seq<Candidate>, i: nat)
    requires i < |cs| && forall j, k :: 0 <= j < k < |cs| ==> cs[j].seat != cs[k].seat
    ensures RemoveCandidate(cs, cs[i].seat) == cs[..i] + cs[i + 1..]
  {
    if i > 0 {
      RemovedAt(cs[1..], i - 1);
      assert cs[..i] == [cs[0]] + cs[1..][..i - 1];
      assert cs[1..][i - 1 + 1..] == cs[i + 1..];
    } else {
      NothingRemoved(cs[1..], cs[0].seat);
      assert cs[..0] + cs[1..] == cs[1..];
    }
  }

  lemma AnswerLeaves(rs: Round, i: nat, seat: int)
    requires Inv(rs) && rs.phase == ClaimPhase && Answers(rs, i, seat)
    ensures RemoveCandidate(rs.candidates, seat) == rs.candidates[..i] + rs.candidates[i + 1..]
    ensures RemoveCandidate(rs.candidates, seat) == [] <==> |rs.candidates| == 1
  {
    RemovedAt(rs.candidates, i);
  }

  /** A pass is the asked seat's to make, and refused only as the last one on a kong whose tile is gone. */
  lemma PassAllowed(rs: Round, seat: int)
    requires Inv(rs)
    ensures Step(rs, DoPass(seat)).ok <==>
      if rs.phase == ClaimPhase then
        && (exists i: nat :: Answers(rs, i, seat))
        && !(|rs.candidates| == 1 && rs.qiangGang && rs.lastDiscard !in rs.hands[rs.turn])
      else 0 <= seat < 4 && seat == rs.turn && rs.phase == TsumoPhase
  {
    AcceptedIffAllowed(rs, DoPass(seat));
    if rs.phase == ClaimPhase {
      ClaimsAnswered(rs, seat);
      if i: nat :| Answers(rs, i, seat) { AnswerLeaves(rs, i, seat); }
    }
  }
}
