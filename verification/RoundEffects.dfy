/** What every accepted action does, in one relation, and what follows from it. */
module RoundEffects {
  import opened Tiles
  import opened Rounds
  import opened RoundInv
  import opened RoundTiles
  import opened RoundRefusals
  import opened RoundOffers
  import opened RoundOpening
  import opened RoundPay
  import opened RoundKongs
  import opened RoundFlow

  /** The suit the seat gives up: the one it names, or the first of those it has least of. */
  predicate GivesUp(rs: Round, s: Seat, named: int, suit: int) {
    if 0 <= named <= 2 then suit == named else IsFirstLeast(rs.hands[s], suit)
  }

  /** What an accepted action makes of a state. */
  ghost predicate Effect(rs: Round, a: Action, r1: Round) {
    match a
    case DoExchange(s, ts, wanted) => 0 <= s < 4 && Selected(rs, r1, s, ts, Fixed(rs, wanted))
    case DoMissing(s, named) => 0 <= s < 4 && exists suit: int :: GivesUp(rs, s, named, suit) && Named(rs, r1, s, suit)
    case DoDiscard(s, t) => s == rs.turn && Discarded(rs, s, t, r1) && DiscardAsked(rs, s, t, r1)
    case DoPong(s) => 0 <= s < 4 && rs.phase == ClaimPhase && Ponged(rs, s, r1)
    case DoChi(_, _) => false
    case DoGang(s, t) => 0 <= s < 4 && (rs.phase == ClaimPhase || rs.phase == DiscardPhase) && Konged(rs, s, t, r1)
    case DoHu(s) => 0 <= s < 4 && (rs.phase == ClaimPhase || rs.phase == TsumoPhase)
                    && WinPaid(rs, r1, s, WinFan(rs, s)) && WonOn(rs, s, r1)
    case DoPass(s) => 0 <= s < 4 && (rs.phase == ClaimPhase || (rs.phase == TsumoPhase && s == rs.turn)) && PassedOn(rs, s, r1)
    case DoTimeout => TimedOut(rs, r1)
    case SeatLeaves(s) => r1 == WithoutSeat(rs, s)
  }

  lemma SuitIsGivenUp(rs: Round, s: int, named: int, r1: Round)
    requires Inv(rs) && Step(rs, DoMissing(s, named)).ok && r1 == Step(rs, DoMissing(s, named)).rs
    ensures 0 <= s < 4 && exists suit: int :: GivesUp(rs, s, named, suit) && Named(rs, r1, s, suit)
  {
    MissingMovesOn(rs, s, named);
    if 0 <= named <= 2 {
      assert GivesUp(rs, s, named, named) && Named(rs, r1, s, named);
    } else {
      var least: int :| IsFirstLeast(rs.hands[s], least) && Named(rs, r1, s, least);
      assert GivesUp(rs, s, named, least);
    }
  }

  /** Every accepted action does what is said here: to hands, melds, piles, payments, turn, and the question asked next. */
  lemma StepHasEffect(rs: Round, a: Action)
    requires Inv(rs) && Step(rs, a).ok
    ensures Effect(rs, a, Step(rs, a).rs)
  {
    match a
    case DoExchange(s, ts, wanted) => ExchangeMovesOn(rs, s, ts, wanted);
    case DoMissing(s, named) => SuitIsGivenUp(rs, s, named, Step(rs, a).rs);
    case DoDiscard(s, t) => DiscardMovesOn(rs, s, t); DiscardAsks(rs, s, t);
    case DoPong(s) => AcceptedIffAllowed(rs, a); PongMovesOn(rs, s);
    case DoChi(s, named) => AcceptedIffAllowed(rs, a);
    case DoGang(s, t) => KongIsPaid(rs, s, t);
    case DoHu(s) => WinIsPaid(rs, s); WinMovesOn(rs, s);
    case DoPass(s) => PassAllowed(rs, s); PassMovesOn(rs, s);
    case DoTimeout => TimeoutMovesOn(rs);
    case SeatLeaves(s) =>
  }

  // ---------- the end ----------

  /** One answer is left in the window of a kong that may be robbed. */
  predicate LastOnKong(rs: Round) { rs.phase == ClaimPhase && rs.qiangGang && |rs.candidates| == 1 }

  /** The kong waits because another seat wins on the tile. */
  ghost predicate KongWaits(rs: Round, s: int, t: Tile) {
    0 <= s < 4 && rs.phase == DiscardPhase && LaidPong(rs, s, t) && MayBeRobbed(rs, s, t)
  }

  /** Whether the action is the last of the hand. */
  ghost predicate IsLast(rs: Round, a: Action) {
    match a
    case DoDiscard(_, _) => rs.wall == []
    case DoHu(_) => |rs.wins| == 2 || rs.wall == []
    case DoGang(s, t) => rs.wall == [] && !KongWaits(rs, s, t)
    case DoPass(_) => rs.wall == [] && LastOnKong(rs)
    case DoTimeout =>
      if rs.phase == TsumoPhase || rs.phase == DiscardPhase then rs.wall == [] || NoContest(WithoutSeat(rs, rs.turn))
      else rs.wall == [] && LastOnKong(rs)
    case _ => false
  }

  lemma PassEnds(rs: Round, s: Seat, r1: Round)
    requires Inv(rs) && !rs.closed && PassedOn(rs, s, r1)
    requires rs.phase == ClaimPhase || rs.phase == TsumoPhase
    ensures r1.closed <==> rs.wall == [] && LastOnKong(rs)
  {
  }

  lemma WindowTimeoutEnds(rs: Round, r1: Round)
    requires Inv(rs) && !rs.closed && rs.phase == ClaimPhase && TimedOut(rs, r1)
    ensures r1.closed <==> rs.wall == [] && LastOnKong(rs)
  {
    var i: nat :| AskedFirst(rs, i) && PassedOn(WithoutSeat(rs, rs.candidates[i].seat), rs.candidates[i].seat, r1);
    MarkKeepsInv(rs, rs.candidates[i].seat);
    PassEnds(WithoutSeat(rs, rs.candidates[i].seat), rs.candidates[i].seat, r1);
  }

  lemma TimeoutEnds(rs: Round, r1: Round)
    requires Inv(rs) && !rs.closed && rs.phase != Idle && TimedOut(rs, r1)
    ensures r1.closed <==> IsLast(rs, DoTimeout)
  {
    if rs.phase == ClaimPhase { WindowTimeoutEnds(rs, r1); }
  }

  lemma KongEnds(rs: Round, s: Seat, t: Tile, r1: Round)
    requires Inv(rs) && !rs.closed && (rs.phase == ClaimPhase || rs.phase == DiscardPhase) && Konged(rs, s, t, r1)
    ensures r1.closed <==> rs.wall == [] && !KongWaits(rs, s, t)
  {
  }

  lemma EffectEnds(rs: Round, a: Action, r1: Round)
    requires Inv(rs) && !rs.closed && Effect(rs, a, r1) && (a.DoTimeout? ==> rs.phase != Idle)
    ensures r1.closed <==> IsLast(rs, a)
  {
    match a
    case DoExchange(_, _, _) =>
    case DoMissing(_, _) =>
    case DoDiscard(_, _) =>
    case DoPong(_) =>
    case DoChi(_, _) =>
    case DoGang(s, t) => KongEnds(rs, s, t, r1);
    case DoHu(_) =>
    case DoPass(s) => PassEnds(rs, s, r1);
    case DoTimeout => TimeoutEnds(rs, r1);
    case SeatLeaves(_) =>
  }

  /**
   * The hand ends exactly by the third win, by a discard, win or completed kong on an empty wall, and
   * by a timeout at turn that leaves fewer than two seats in play or finds no tile to draw.
   */
  lemma ClosesIff(rs: Round, a: Action)
    requires Inv(rs) && !rs.closed && Step(rs, a).ok
    ensures Step(rs, a).rs.closed <==> IsLast(rs, a)
  {
    StepHasEffect(rs, a);
    AcceptedIffAllowed(rs, a);
    EffectEnds(rs, a, Step(rs, a).rs);
  }

  // ---------- nothing else is booked ----------

  /** The action completes a kong. */
  ghost predicate KongIsMade(rs: Round, a: Action) {
    (a.DoGang? && !KongWaits(rs, a.seat, a.tile)) || ((a.DoPass? || a.DoTimeout?) && LastOnKong(rs))
  }

  predicate SameRecords(a: Round, b: Round) { b.scores == a.scores && b.gangs == a.gangs }

  /** A kong is on record that was not, and nobody has won. */
  ghost predicate OneMoreKong(a: Round, b: Round) { b.wins == a.wins && exists g: GangRecord :: b.gangs == a.gangs + [g] }

  lemma BookedIsOneMore(a: Round, b: Round, g: GangRecord)
    requires KongBooked(a, b, g)
    ensures OneMoreKong(a, b)
  {
    assert b.gangs == a.gangs + [g];
  }

  lemma PassBooks(rs: Round, s: Seat, r1: Round)
    requires PassedOn(rs, s, r1) && (rs.phase == TsumoPhase || (rs.phase == ClaimPhase && rs.candidates != []))
    ensures r1.wins == rs.wins
    ensures LastOnKong(rs) ==> OneMoreKong(rs, r1)
    ensures !LastOnKong(rs) ==> SameRecords(rs, r1)
  {
    if LastOnKong(rs) { BookedIsOneMore(rs, r1, GangRecord(rs.turn, GangBu, rs.lastDiscard, NO_SEAT, rs.step)); }
  }

  lemma WindowTimeoutBooks(rs: Round, r1: Round)
    requires rs.phase == ClaimPhase && rs.candidates != [] && TimedOut(rs, r1)
    ensures r1.wins == rs.wins
    ensures LastOnKong(rs) ==> OneMoreKong(rs, r1)
    ensures !LastOnKong(rs) ==> SameRecords(rs, r1)
  {
    var i: nat :| AskedFirst(rs, i) && PassedOn(WithoutSeat(rs, rs.candidates[i].seat), rs.candidates[i].seat, r1);
    PassBooks(WithoutSeat(rs, rs.candidates[i].seat), rs.candidates[i].seat, r1);
  }

  lemma TimeoutBooks(rs: Round, r1: Round)
    requires Inv(rs) && rs.phase != Idle && TimedOut(rs, r1)
    ensures r1.wins == rs.wins
    ensures LastOnKong(rs) ==> OneMoreKong(rs, r1)
    ensures !LastOnKong(rs) ==> SameRecords(rs, r1)
  {
    if rs.phase == ClaimPhase { WindowTimeoutBooks(rs, r1); }
  }

  lemma KongBooks(rs: Round, s: Seat, t: Tile, r1: Round)
    requires (rs.phase == ClaimPhase || rs.phase == DiscardPhase) && Konged(rs, s, t, r1)
    ensures r1.wins == rs.wins
    ensures !KongWaits(rs, s, t) ==> OneMoreKong(rs, r1)
    ensures KongWaits(rs, s, t) ==> SameRecords(rs, r1)
  {
    if rs.phase == ClaimPhase {
      BookedIsOneMore(rs, r1, GangRecord(s, GangMing, rs.lastDiscard, rs.lastDiscardSeat, rs.step));
    } else if !LaidPong(rs, s, t) {
      BookedIsOneMore(rs, r1, GangRecord(s, GangAn, t, NO_SEAT, rs.step));
    } else if !MayBeRobbed(rs, s, t) {
      BookedIsOneMore(rs, r1, GangRecord(s, GangBu, t, NO_SEAT, rs.step));
    }
  }

  ghost predicate BookedOnlySo(rs: Round, a: Action, r1: Round) {
    && (!a.DoHu? ==> r1.wins == rs.wins)
    && (KongIsMade(rs, a) ==> OneMoreKong(rs, r1))
    && (!KongIsMade(rs, a) ==> r1.gangs == rs.gangs && (a.DoHu? || r1.scores == rs.scores))
  }

  lemma OpeningBooks(rs: Round, a: Action, r1: Round)
    requires Effect(rs, a, r1) && (a.DoExchange? || a.DoMissing?)
    ensures BookedOnlySo(rs, a, r1)
  {
  }

  lemma DiscardBooks(rs: Round, a: Action, r1: Round)
    requires Effect(rs, a, r1) && a.DoDiscard?
    ensures BookedOnlySo(rs, a, r1)
  {
  }

  lemma PongBooks(rs: Round, a: Action, r1: Round)
    requires Effect(rs, a, r1) && (a.DoPong? || a.DoHu?)
    ensures BookedOnlySo(rs, a, r1)
  {
  }

  lemma EffectBooks(rs: Round, a: Action, r1: Round)
    requires Inv(rs) && Effect(rs, a, r1) && (a.DoTimeout? ==> rs.phase != Idle)
    ensures BookedOnlySo(rs, a, r1)
  {
    if a.DoExchange? || a.DoMissing? { OpeningBooks(rs, a, r1); }
    else if a.DoDiscard? { DiscardBooks(rs, a, r1); }
    else if a.DoPong? || a.DoHu? { PongBooks(rs, a, r1); }
    else if a.DoGang? { KongBooks(rs, a.seat, a.tile, r1); }
    else if a.DoPass? { PassBooks(rs, a.seat, r1); }
    else if a.DoTimeout? { TimeoutBooks(rs, r1); }
  }

  /** Points move exactly when a win is accepted or a kong is completed; no other action books anything. */
  lemma NothingElseIsBooked(rs: Round, a: Action)
    requires Inv(rs) && Step(rs, a).ok
    ensures BookedOnlySo(rs, a, Step(rs, a).rs)
  {
    StepHasEffect(rs, a);
    AcceptedIffAllowed(rs, a);
    EffectBooks(rs, a, Step(rs, a).rs);
  }
}
