/** Every operation, accepted or refused, leaves a coherent state. */
module RoundCoherence {
  import opened Tiles
  import opened SichuanWin
  import opened Rounds
  import opened RoundInv
  import opened RoundTiles

  /** The hand is over, or an answer is awaited that is no longer about the opening. */
  predicate Onward(rs: Round) { rs.closed || (rs.phase != Idle && rs.phase != OpeningPhase) }

  /** Nobody is asked for anything and the next seat may draw. */
  predicate Rested(rs: Round) {
    && RecordsOk(rs) && !rs.closed && rs.phase == Idle && rs.pendingDraw == NO_TILE
    && rs.candidates == [] && !rs.qiangGang && rs.pendingGangTile == NO_TILE && CurrentStep(rs) == OpeningOver
  }

  lemma FinishCoherent(rs: Round)
    requires RecordsOk(rs)
    ensures Coherent(FinishRound(rs)) && Onward(FinishRound(rs))
  {
  }

  lemma DrawCoherent(rs: Round)
    requires Rested(rs) && Stocked(rs)
    ensures Coherent(DrawForCurrentTurn(rs).rs) && Onward(DrawForCurrentTurn(rs).rs)
  {
    DrawCases(rs);
    if ShouldFinish(rs) { FinishCoherent(rs); }
  }

  // ---------- candidates ----------

  /** How many places after the discarder the seat sits. */
  function Distance(rs: Round, seat: Seat): nat { (seat - rs.lastDiscardSeat + 4) % 4 }

  lemma OfferOk(rs: Round, offset: nat)
    requires 1 <= offset <= 3
    ensures |Offer(rs, offset)| <= 1
    ensures Offer(rs, offset) != [] ==>
      CandidateOk(rs, Offer(rs, offset)[0]) && Distance(rs, Offer(rs, offset)[0].seat) == offset
    ensures Offer(rs, offset) != [] ==> rs.lastDiscard != NO_TILE && 0 <= rs.lastDiscardSeat
  {
  }

  /** Fine candidates that sit at least so many places after the discarder. */
  predicate OffersOk(rs: Round, cs: seq<Candidate>, least: nat) {
    && (forall i :: 0 <= i < |cs| ==> CandidateOk(rs, cs[i]) && Distance(rs, cs[i].seat) >= least)
    && (forall i, j :: 0 <= i < j < |cs| ==> cs[i].seat != cs[j].seat)
    && (cs != [] ==> rs.lastDiscard != NO_TILE && 0 <= rs.lastDiscardSeat)
  }

  lemma PutOffer(rs: Round, first: seq<Candidate>, rest: seq<Candidate>, offset: nat)
    requires |first| <= 1 && OffersOk(rs, rest, offset + 1)
    requires first != [] ==> CandidateOk(rs, first[0]) && Distance(rs, first[0].seat) == offset
    requires first != [] ==> rs.lastDiscard != NO_TILE && 0 <= rs.lastDiscardSeat
    ensures OffersOk(rs, first + rest, offset)
  {
    var all := first + rest;
    forall i | 0 <= i < |all| ensures CandidateOk(rs, all[i]) && Distance(rs, all[i].seat) >= offset {
      if i >= |first| { assert all[i] == rest[i - |first|]; }
    }
  }

  lemma {:induction false} OffersFromOk(rs: Round, offset: nat)
    requires offset >= 1
    ensures OffersOk(rs, OffersFrom(rs, offset), offset)
    decreases 4 - offset
  {
    if offset <= 3 {
      OfferOk(rs, offset);
      OffersFromOk(rs, offset + 1);
      PutOffer(rs, Offer(rs, offset), OffersFrom(rs, offset + 1), offset);
    }
  }

  lemma BuiltOk(rs: Round, cs: seq<Candidate>)
    requires cs == BuildCandidates(rs)
    ensures CandidatesOk(rs.(candidates := cs))
    ensures cs != [] ==> rs.lastDiscard != NO_TILE && 0 <= rs.lastDiscardSeat
  {
    OffersFromOk(rs, 1);
    var r1 := rs.(candidates := cs);
    forall i | 0 <= i < |cs| ensures CandidateOk(r1, cs[i]) {
      assert CandidateOk(rs, cs[i]);
    }
  }

  /** Candidates are judged by the tile on offer, the hands and the winners only. */
  lemma CandidatesFrame(a: Round, b: Round)
    requires a.lastDiscard == b.lastDiscard && a.lastDiscardSeat == b.lastDiscardSeat && a.hands == b.hands
    requires a.wins == b.wins && a.qiangGang == b.qiangGang && a.candidates == b.candidates
    ensures CandidatesOk(a) ==> CandidatesOk(b)
  {
    if CandidatesOk(a) {
      forall i | 0 <= i < |b.candidates| ensures CandidateOk(b, b.candidates[i]) {
        assert CandidateOk(a, a.candidates[i]);
      }
    }
  }

  lemma {:induction false} RemovedCandidates(cs: seq<Candidate>, seat: int)
    ensures forall i :: 0 <= i < |RemoveCandidate(cs, seat)| ==>
              RemoveCandidate(cs, seat)[i] in cs && RemoveCandidate(cs, seat)[i].seat != seat
    ensures (forall i, j :: 0 <= i < j < |cs| ==> cs[i].seat != cs[j].seat) ==>
              forall i, j :: 0 <= i < j < |RemoveCandidate(cs, seat)| ==>
                RemoveCandidate(cs, seat)[i].seat != RemoveCandidate(cs, seat)[j].seat
    ensures |RemoveCandidate(cs, seat)| <= |cs|
    ensures (exists i :: 0 <= i < |cs| && cs[i].seat == seat) ==> |RemoveCandidate(cs, seat)| < |cs|
  {
    if cs != [] {
      RemovedCandidates(cs[1..], seat);
      var rest := RemoveCandidate(cs[1..], seat);
      if (forall i, j :: 0 <= i < j < |cs| ==> cs[i].seat != cs[j].seat) && cs[0].seat != seat {
        forall i, j | 0 <= i < j < |[cs[0]] + rest| ensures ([cs[0]] + rest)[i].seat != ([cs[0]] + rest)[j].seat {
          if i == 0 {
            assert rest[j - 1] in cs[1..];
            var k :| 0 <= k < |cs[1..]| && cs[1..][k] == rest[j - 1];
            assert cs[k + 1] == rest[j - 1];
          }
        }
      }
      if (exists i :: 0 <= i < |cs| && cs[i].seat == seat) && cs[0].seat != seat {
        var i :| 0 <= i < |cs| && cs[i].seat == seat;
        assert cs[1..][i - 1].seat == seat;
      }
    }
  }

  /** Fewer candidates are still fine candidates. */
  lemma FewerOk(rs: Round, seat: int)
    requires CandidatesOk(rs)
    ensures CandidatesOk(rs.(candidates := RemoveCandidate(rs.candidates, seat)))
  {
    RemovedCandidates(rs.candidates, seat);
    var r1 := rs.(candidates := RemoveCandidate(rs.candidates, seat));
    forall i | 0 <= i < |r1.candidates| ensures CandidateOk(r1, r1.candidates[i]) {
      var j :| 0 <= j < |rs.candidates| && rs.candidates[j] == r1.candidates[i];
      assert CandidateOk(rs, rs.candidates[j]);
    }
  }

  // ---------- records ----------

  lemma {:induction false} GangPaymentsAre(payers: seq<Seat>, seat: Seat, reason: Reason, amount: int, step: nat)
    requires amount > 0
    ensures AllTransfers(GangPayments(payers, seat, reason, amount, step))
  {
    if payers != [] { GangPaymentsAre(payers[1..], seat, reason, amount, step); }
  }

  lemma {:induction false} WinPaymentsAre(payers: seq<Seat>, seat: Seat, amount: int, step: nat)
    requires amount > 0
    ensures AllTransfers(WinPayments(payers, seat, amount, step))
  {
    if payers != [] { WinPaymentsAre(payers[1..], seat, amount, step); }
  }

  lemma JoinTransfers(a: seq<ScoreEvent>, b: seq<ScoreEvent>)
    requires AllTransfers(a) && AllTransfers(b)
    ensures AllTransfers(a + b)
  {
  }

  lemma ScoreGangOk(rs: Round, seat: Seat, t: Tile, reason: Reason, source: SeatOrNone)
    requires AllTransfers(rs.scores) && !RobbedKongOnRecord(rs.gangs) && (reason == GangBu ==> source == NO_SEAT)
    ensures AllTransfers(ScoreGang(rs, seat, t, reason, source).scores)
    ensures !RobbedKongOnRecord(ScoreGang(rs, seat, t, reason, source).gangs)
  {
    var amount := if reason == GangAn then 2 else 1;
    GangPaymentsAre(ActiveSeats(rs), seat, reason, amount, rs.step);
    JoinTransfers(rs.scores, GangPayments(ActiveSeats(rs), seat, reason, amount, rs.step));
  }

  lemma RecordMeldOk(p: MeldTable, seat: Seat, m: Meld)
    requires MeldsOk(p) && MeldOk(m)
    ensures MeldsOk(p[seat := p[seat] + [m]])
  {
  }

  lemma UpgradeOk(p: MeldTable, seat: Seat, i: nat, m: Meld)
    requires MeldsOk(p) && MeldOk(m) && i < |p[seat]|
    ensures MeldsOk(p[seat := p[seat][i := m]])
  {
  }

  lemma FinishGangCoherent(rs: Round, seat: Seat)
    requires RecordsOk(rs) && !rs.closed && rs.candidates == [] && CurrentStep(rs) == OpeningOver && Stocked(rs)
    requires rs.pendingDraw == NO_TILE
    ensures Coherent(FinishGang(rs, seat).rs) && Onward(FinishGang(rs, seat).rs)
  {
    var r1 := ToDraw(rs, seat);
    assert SameTable(rs, r1);
    assert SameAmount(rs, r1);
    SameAmountStocked(rs, r1);
    assert FinishGang(rs, seat) == DrawForCurrentTurn(r1);
    DrawCoherent(r1);
  }

  // ---------- claims ----------

  lemma PongCoherent(rs: Round, seat: int)
    requires Inv(rs) && CanClaimPong(rs, seat)
    ensures Coherent(ApplyPong(rs, seat).rs) && Onward(ApplyPong(rs, seat).rs)
  {
    ClaimGuard(rs, seat);
    PongForm(rs, seat);
    var t := rs.lastDiscard;
    var m := Meld(Pong, [t, t, t], rs.lastDiscardSeat);
    RecordMeldOk(rs.melds, seat, m);
  }

  lemma KongRecords(rs: Round, seat: Seat, t: Tile, source: SeatOrNone)
    requires RecordsOk(rs)
    ensures RecordsOk(KongScored(rs, seat, t, source))
  {
    var m := Meld(ZhiGang, [t, t, t, t], source);
    RecordMeldOk(rs.melds, seat, m);
    ScoreGangOk(Melded(rs, seat, [t, t, t], m).(lastDiscard := NO_TILE, lastDiscardSeat := NO_SEAT), seat, t, GangMing, source);
  }

  lemma ClaimGangCoherent(rs: Round, seat: int)
    requires Inv(rs) && CanClaimGang(rs, seat)
    ensures Coherent(ClaimGang(rs, seat).rs) && Onward(ClaimGang(rs, seat).rs)
  {
    ClaimGuard(rs, seat);
    ClaimGangForm(rs, seat);
    var r1 := KongScored(rs, seat, rs.lastDiscard, rs.lastDiscardSeat);
    KongRecords(rs, seat, rs.lastDiscard, rs.lastDiscardSeat);
    SameAmountStocked(rs, r1);
    FinishGangCoherent(r1, seat);
  }

  lemma CompleteBuGangOk(rs: Round, seat: Seat, t: Tile)
    requires RecordsOk(rs) && HasFullPong(rs.melds[seat], t) && t in rs.hands[seat]
    ensures CompleteBuGang(rs, seat, t).ok && RecordsOk(CompleteBuGang(rs, seat, t).rs)
  {
    BuGangForm(rs, seat, t);
    FirstPongIs(rs.melds[seat], t);
    var ms, i := rs.melds[seat], FirstPong(rs.melds[seat], t);
    UpgradeOk(rs.melds, seat, i, Meld(BuGang, [t, t, t, t], ms[i].source));
    ScoreGangOk(BuGangDone(rs, seat, t), seat, t, GangBu, NO_SEAT);
  }

  /** Completing an added kong and drawing its replacement. */
  lemma BuGangEndCoherent(rs: Round, seat: Seat, t: Tile)
    requires Rested(rs) && Stocked(rs) && HasFullPong(rs.melds[seat], t) && t in rs.hands[seat]
    ensures Coherent(FinishGang(CompleteBuGang(rs, seat, t).rs, seat).rs) && Onward(FinishGang(CompleteBuGang(rs, seat, t).rs, seat).rs)
    ensures Coherent(FinishGang(CompleteBuGang(rs, seat, t).rs.(turn := seat), seat).rs) && Onward(FinishGang(CompleteBuGang(rs, seat, t).rs.(turn := seat), seat).rs)
  {
    CompleteBuGangTiles(rs, seat, t);
    CompleteBuGangOk(rs, seat, t);
    BuGangForm(rs, seat, t);
    var r1 := CompleteBuGang(rs, seat, t).rs;
    SameAmountStocked(rs, r1);
    FinishGangCoherent(r1, seat);
    assert ToDraw(r1, seat) == ToDraw(r1.(turn := seat), seat);
    assert FinishGang(r1, seat) == FinishGang(r1.(turn := seat), seat);
  }

  /** While nobody may rob it, an added kong is completed from a table at rest. */
  lemma BuGangRests(rs: Round, seat: int, t: Tile)
    requires Inv(rs) && CanBuGang(rs, seat, t)
    ensures var r2 := ClearClaimWindow(OfferBuGang(rs, seat, t));
            && Rested(r2) && Stocked(r2) && HasFullPong(r2.melds[seat], t) && t in r2.hands[seat]
            && SameTable(rs, r2) && SameAmount(rs, r2)
  {
    HeldIsReal(rs, seat, t);
    var r2 := ClearClaimWindow(OfferBuGang(rs, seat, t));
    assert SameTable(rs, r2) && SameAmount(rs, r2);
    SameAmountStocked(rs, r2);
  }

  lemma BuGangCoherent(rs: Round, seat: int, t: Tile)
    requires Inv(rs) && CanBuGang(rs, seat, t)
    ensures Coherent(BuGangBy(rs, seat, t).rs) && Onward(BuGangBy(rs, seat, t).rs)
  {
    var r1 := OfferBuGang(rs, seat, t);
    HeldIsReal(rs, seat, t);
    if r1.candidates == [] {
      BuGangRests(rs, seat, t);
      BuGangEndCoherent(ClearClaimWindow(r1), seat, t);
    } else {
      BuiltOk(rs.(lastDiscard := t, lastDiscardSeat := seat, pendingGangSeat := seat, pendingGangTile := t, qiangGang := true), r1.candidates);
      CandidatesFrame(r1, r1.(phase := ClaimPhase));
    }
  }

  lemma AnGangCoherent(rs: Round, seat: int, t: Tile)
    requires Inv(rs) && CanAnGang(rs, seat, t)
    ensures Coherent(AnGangBy(rs, seat, t).rs) && Onward(AnGangBy(rs, seat, t).rs)
  {
    AnGangForm(rs, seat, t);
    var m := Meld(AnGang, [t, t, t, t], NO_SEAT);
    RecordMeldOk(rs.melds, seat, m);
    var r0 := ClearClaimWindow(rs);
    var r1 := r0.(hands := r0.hands[seat := RemoveEach(r0.hands[seat], [t, t, t, t]).0]);
    ScoreGangOk(RecordMeld(r1, seat, m), seat, t, GangAn, NO_SEAT);
    SameAmountStocked(rs, AnGangScored(rs, seat, t));
    FinishGangCoherent(AnGangScored(rs, seat, t), seat);
  }

  lemma GangCoherent(rs: Round, seat: int, t: Tile)
    requires Inv(rs)
    ensures Coherent(ApplyGang(rs, seat, t).rs) && (ApplyGang(rs, seat, t).ok ==> Onward(ApplyGang(rs, seat, t).rs))
  {
    if CanClaimGang(rs, seat) { ClaimGangCoherent(rs, seat); }
    else if CanBuGang(rs, seat, t) { BuGangCoherent(rs, seat, t); }
    else if CanAnGang(rs, seat, t) { AnGangCoherent(rs, seat, t); }
  }

  // ---------- discarding ----------

  /** Seat and table in the moment after a tile was laid down. */
  predicate JustLaid(rs: Round, seat: Seat, t: Tile) {
    && RecordsOk(rs) && !rs.closed && |rs.wins| < 3 && rs.pendingDraw == NO_TILE && rs.currentDraw == NO_TILE
    && rs.candidates == [] && !rs.qiangGang && rs.pendingGangTile == NO_TILE && CurrentStep(rs) == OpeningOver
    && t != NO_TILE && Real(t) && rs.discards[seat] != [] && rs.discards[seat][|rs.discards[seat]| - 1] == t
  }

  lemma WindowCoherent(rs: Round, seat: Seat, t: Tile)
    requires JustLaid(rs, seat, t) && rs.wall != []
    requires OpenClaimWindow(Exposed(rs, seat, t)).candidates != []
    ensures Coherent(OpenClaimWindow(Exposed(rs, seat, t)))
  {
    var r1 := Exposed(rs, seat, t);
    BuiltOk(r1, OpenClaimWindow(r1).candidates);
    CandidatesFrame(r1.(candidates := BuildCandidates(r1)), OpenClaimWindow(r1));
    OpenedOffers(rs, seat, t);
  }

  lemma OpenedOffers(rs: Round, seat: Seat, t: Tile)
    requires t != NO_TILE && !rs.qiangGang && rs.currentDraw == NO_TILE && rs.wall != []
    requires rs.discards[seat] != [] && rs.discards[seat][|rs.discards[seat]| - 1] == t
    ensures OfferedTileOk(OpenClaimWindow(Exposed(rs, seat, t)))
  {
    TileIsOffered(OpenClaimWindow(Exposed(rs, seat, t)), seat, t);
  }

  lemma TileIsOffered(rs: Round, seat: Seat, t: Tile)
    requires t != NO_TILE && !rs.qiangGang && rs.currentDraw == NO_TILE && rs.wall != []
    requires rs.discards[seat] != [] && rs.discards[seat][|rs.discards[seat]| - 1] == t
    requires rs.lastDiscard == t && rs.lastDiscardSeat == seat
    ensures OfferedTileOk(rs)
  {
  }

  lemma AfterDiscardCoherent(rs: Round, seat: Seat, t: Tile)
    requires JustLaid(rs, seat, t) && Stocked(rs)
    ensures Coherent(AfterDiscard(rs, seat, t).rs) && Onward(AfterDiscard(rs, seat, t).rs)
  {
    if ShouldFinish(rs) {
      FinishCoherent(rs);
    } else {
      var r1 := Exposed(rs, seat, t);
      var r2 := OpenClaimWindow(r1);
      if r2.candidates == [] {
        var r3 := CloseOpeningClaim(ClearClaimWindow(r2));
        assert SameTable(rs, r3) && SameAmount(rs, r3);
        SameAmountStocked(rs, r3);
        DrawCoherent(r3);
      } else {
        WindowCoherent(rs, seat, t);
      }
    }
  }

  lemma DiscardCoherent(rs: Round, seat: int, t: Tile)
    requires Inv(rs)
    ensures Coherent(ApplyDiscard(rs, seat, t).rs) && (ApplyDiscard(rs, seat, t).ok ==> Onward(ApplyDiscard(rs, seat, t).rs))
  {
    if !(rs.closed || seat != rs.turn || t == NO_TILE) {
      var r1 := if rs.phase == TsumoPhase then TakePendingDraw(rs, seat) else rs;
      if rs.phase == TsumoPhase { TakePendingTiles(rs, seat); }
      assert SameAmount(rs, r1);
      if r1.phase == DiscardPhase && t in r1.hands[seat] {
        LayDiscardTiles(r1, seat, t);
        var r2 := LayDiscard(r1, seat, t);
        SameAmountStocked(rs, r1);
        HeldIsReal(r1, seat, t);
        SameAmountStocked(r1, r2);
        AfterDiscardCoherent(r2, seat, t);
      }
    }
  }

  // ---------- winning ----------

  lemma ScoreWinOk(rs: Round, seat: Seat, fan: nat, source: HuSource, payer: SeatOrNone)
    requires fan > 0
    ensures AllTransfers(ScoreWin(rs, seat, fan, source, payer))
  {
    WinPaymentsAre(ActiveSeats(rs), seat, fan, rs.step);
  }

  lemma RecordHuOk(rs: Round, seat: Seat, fan: nat)
    requires Inv(rs) && CanHu(rs, seat) && fan > 0
    ensures RecordsOk(RecordHu(rs, seat, fan)) && |RecordHu(rs, seat, fan).wins| == |rs.wins| + 1
    ensures RecordHu(rs, seat, fan).melds == rs.melds
  {
    HuGuard(rs, seat);
    var r1 := RecordHu(rs, seat, fan);
    var payer := if ByClaim(rs, seat) then rs.lastDiscardSeat else NO_SEAT;
    var paid := ScoreWin(rs, seat, fan, WinSource(rs, seat), payer);
    ScoreWinOk(rs, seat, fan, WinSource(rs, seat), payer);
    JoinTransfers(rs.scores, paid);
    assert r1.scores == rs.scores + paid;
    assert |r1.wins| == |rs.wins| + 1 && r1.wins[..|rs.wins|] == rs.wins && r1.wins[|rs.wins|].seat == seat;
    forall i, j | 0 <= i < j < |r1.wins| ensures r1.wins[i].seat != r1.wins[j].seat {
      if j == |rs.wins| { assert rs.wins[i].seat != seat; }
    }
  }

  lemma OtherWinner(rs: Round, r1: Round, s: Seat)
    requires |r1.wins| == |rs.wins| + 1 && r1.wins[..|rs.wins|] == rs.wins && r1.wins[|rs.wins|].seat != s
    ensures HasWon(r1, s) == HasWon(rs, s)
  {
    if HasWon(r1, s) {
      var k :| 0 <= k < |r1.wins| && r1.wins[k].seat == s;
      assert r1.wins[..|rs.wins|][k] == r1.wins[k];
    }
    if HasWon(rs, s) {
      var k :| 0 <= k < |rs.wins| && rs.wins[k].seat == s;
      assert r1.wins[..|rs.wins|][k] == r1.wins[k];
    }
  }

  /** In a kong-robbing window a candidate stays fine whatever happens to the hands. */
  lemma StaysCandidate(rs: Round, r1: Round, c: Candidate)
    requires CandidateOk(rs, c) && HasWon(r1, c.seat) == HasWon(rs, c.seat)
    requires r1.lastDiscard == rs.lastDiscard && r1.lastDiscardSeat == rs.lastDiscardSeat && r1.qiangGang == rs.qiangGang
    requires rs.qiangGang || r1.hands == rs.hands
    ensures CandidateOk(r1, c)
  {
  }

  /** The candidates that remain after one of them has won. */
  lemma OthersStayOk(rs: Round, r1: Round, seat: Seat)
    requires CandidatesOk(rs) && r1.candidates == RemoveCandidate(rs.candidates, seat)
    requires |r1.wins| == |rs.wins| + 1 && r1.wins[..|rs.wins|] == rs.wins && r1.wins[|rs.wins|].seat == seat
    requires r1.lastDiscard == rs.lastDiscard && r1.lastDiscardSeat == rs.lastDiscardSeat && r1.qiangGang == rs.qiangGang
    requires rs.qiangGang || r1.hands == rs.hands
    ensures CandidatesOk(r1)
  {
    RemovedCandidates(rs.candidates, seat);
    forall i | 0 <= i < |r1.candidates| ensures CandidateOk(r1, r1.candidates[i]) {
      var j :| 0 <= j < |rs.candidates| && rs.candidates[j] == r1.candidates[i];
      assert CandidateOk(rs, rs.candidates[j]);
      OtherWinner(rs, r1, rs.candidates[j].seat);
      StaysCandidate(rs, r1, rs.candidates[j]);
    }
  }

  /** What recording a claimed win changes among the candidates and leaves of the tile on offer. */
  predicate WinRecorded(rs: Round, r1: Round, seat: Seat) {
    && r1.candidates == RemoveCandidate(rs.candidates, seat)
    && |r1.wins| == |rs.wins| + 1 && r1.wins[..|rs.wins|] == rs.wins && r1.wins[|rs.wins|].seat == seat
    && r1.lastDiscard == rs.lastDiscard && r1.lastDiscardSeat == rs.lastDiscardSeat && r1.qiangGang == rs.qiangGang
    && r1.pendingGangSeat == rs.pendingGangSeat && r1.pendingGangTile == rs.pendingGangTile && r1.turn == rs.turn
    && r1.melds == rs.melds && r1.discards == rs.discards && r1.wall == rs.wall && r1.currentDraw == NO_TILE
    && r1.pendingDraw == NO_TILE && r1.closed == rs.closed && r1.opening == rs.opening && r1.withExchange == rs.withExchange
    && (rs.qiangGang || r1.hands == rs.hands)
  }

  lemma RecordHuFrame(rs: Round, seat: Seat, fan: nat)
    requires ByClaim(rs, seat)
    ensures WinRecorded(rs, RecordHu(rs, seat, fan), seat)
  {
    var r1 := RecordHu(rs, seat, fan);
    var e := WinEvent(seat, WinSource(rs, seat), WinTile(rs, seat), rs.lastDiscardSeat, rs.step, fan);
    if rs.qiangGang {
      assert r1.wins == rs.wins + [e];
    } else {
      assert r1.wins == rs.wins + [e] && r1.hands == rs.hands;
    }
  }

  lemma OtherClaimsStand(rs: Round, r1: Round, seat: Seat)
    requires WinRecorded(rs, r1, seat) && OfferedTileOk(rs) && CandidatesOk(rs)
    ensures OfferedTileOk(r1) && CandidatesOk(r1)
  {
    OthersStayOk(rs, r1, seat);
  }

  lemma SettleCoherent(rs: Round, seat: Seat, r1: Round)
    requires RecordsOk(r1) && Stocked(r1) && !r1.closed && r1.pendingDraw == NO_TILE && CurrentStep(r1) == OpeningOver
    requires r1.pendingGangTile != NO_TILE ==> r1.qiangGang
    requires ByClaim(rs, seat) ==> CandidatesOk(r1) && OfferedTileOk(r1)
    ensures Coherent(Settle(rs, seat, r1).rs) && Onward(Settle(rs, seat, r1).rs)
  {
    if ShouldFinish(r1) {
      FinishCoherent(r1);
    } else if ByClaim(rs, seat) && HuLeftAt(r1.candidates, 3) {
      CandidatesFrame(r1, r1.(phase := ClaimPhase));
    } else {
      var r3 := TurnAfterWin(rs, seat, r1);
      assert SameTable(r1, r3) && SameAmount(r1, r3);
      SameAmountStocked(r1, r3);
      DrawCoherent(r3);
    }
  }

  lemma HuRecordedOk(rs: Round, seat: Seat, fan: nat)
    requires Inv(rs) && CanHu(rs, seat) && fan > 0
    ensures var r1 := RecordHu(rs, seat, fan);
            && !r1.closed && CurrentStep(r1) == OpeningOver && (r1.pendingGangTile != NO_TILE ==> r1.qiangGang)
            && (ByClaim(rs, seat) ==> CandidatesOk(r1) && OfferedTileOk(r1))
  {
    HuGuard(rs, seat);
    if ByClaim(rs, seat) {
      RecordHuFrame(rs, seat, fan);
      OtherClaimsStand(rs, RecordHu(rs, seat, fan), seat);
    }
  }

  lemma HuCoherent(rs: Round, seat: int, fan: nat)
    requires Inv(rs) && CanHu(rs, seat) && fan > 0
    ensures Coherent(ApplyHu(rs, seat, fan).rs) && Onward(ApplyHu(rs, seat, fan).rs)
  {
    var r1 := RecordHu(rs, seat, fan);
    HuForm(rs, seat, fan);
    RecordHuOk(rs, seat, fan);
    RecordHuTable(rs, seat, fan);
    RecordHuTiles(rs, seat, fan);
    LosesStocked(rs, r1, rs, seat);
    HuRecordedOk(rs, seat, fan);
    SettleCoherent(rs, seat, r1);
  }

  // ---------- passing ----------

  lemma AllPassedCoherent(rs: Round)
    requires RecordsOk(rs) && Stocked(rs) && OfferedTileOk(rs) && rs.pendingDraw == NO_TILE && !rs.closed
    requires |rs.wins| < 3 && rs.candidates == [] && CurrentStep(rs) == OpeningOver
    ensures Coherent(AllPassed(rs).rs) && (AllPassed(rs).ok ==> Onward(AllPassed(rs).rs))
  {
    var r1 := ClearClaimWindow(rs);
    assert SameTable(rs, r1) && SameAmount(rs, r1);
    SameAmountStocked(rs, r1);
    if rs.qiangGang {
      var seat: Seat := rs.pendingGangSeat;
      var t := rs.pendingGangTile;
      if t in rs.hands[seat] {
        CompleteBuGangTiles(r1, seat, t);
        BuGangEndCoherent(r1, seat, t);
      }
    } else {
      var r2 := CloseOpeningClaim(r1);
      assert SameTable(rs, r2) && SameAmount(rs, r2);
      SameAmountStocked(rs, r2);
      DrawCoherent(r2);
    }
  }

  lemma PassCoherent(rs: Round, seat: int)
    requires Inv(rs)
    ensures Coherent(ApplyPass(rs, seat).rs) && (ApplyPass(rs, seat).ok ==> Onward(ApplyPass(rs, seat).rs))
  {
    if MayPass(rs, seat) && rs.phase == ClaimPhase {
      var r1 := rs.(candidates := RemoveCandidate(rs.candidates, seat));
      assert SameTable(rs, r1) && SameAmount(rs, r1);
      SameAmountStocked(rs, r1);
      FewerOk(rs, seat);
      if r1.candidates == [] { AllPassedCoherent(r1); }
    }
  }

  // ---------- opening ----------

  lemma ExchangeCoherent(rs: Round, seat: Seat, ts: seq<Tile>, wanted: int, surrender: bool)
    requires Inv(rs) && rs.phase == OpeningPhase && CurrentStep(rs) == ExchangeStep
    ensures Coherent(ApplyExchange(rs, seat, ts, wanted, surrender).rs)
  {
    if !(rs.opening.exchangeDone[seat] || (!surrender && !GoodSelection(rs.hands[seat], ts))) {
      var own := if surrender then [] else ts;
      RemoveEachTakes(rs.hands[seat], own);
      NotedIsOk(rs, seat, own, Direction(rs, wanted));
      var r1 := rs.(opening := NoteSelection(rs.opening, seat, own, Direction(rs, wanted)), phase := OpeningPhase);
      if AllDone(r1.opening.exchangeDone) { ExchangedCoherent(r1); }
    }
  }

  lemma ExchangedCoherent(r1: Round)
    requires RecordsOk(r1) && !r1.closed && r1.phase == OpeningPhase && r1.wins == [] && r1.wall != []
    requires r1.currentDraw == NO_TILE && r1.pendingDraw == NO_TILE && r1.candidates == [] && !r1.qiangGang
    requires r1.pendingGangTile == NO_TILE && AllDone(r1.opening.exchangeDone) && r1.opening.missingDone == NOTHING_DONE
    ensures Coherent(Exchange(r1))
  {
    var r2 := Exchange(r1);
    forall s: Seat ensures SelectionOk(r2, s) {
      assert r2.opening.selections[s] == [];
    }
  }

  lemma MissingCoherent(rs: Round, seat: Seat, suit: int, surrender: bool)
    requires Inv(rs) && rs.phase == OpeningPhase && CurrentStep(rs) == MissingStep
    ensures Coherent(ApplyMissing(rs, seat, suit, surrender).rs)
    ensures ApplyMissing(rs, seat, suit, surrender).rs.phase == OpeningPhase || Onward(ApplyMissing(rs, seat, suit, surrender).rs)
  {
    var r1 := NoteMissing(rs, seat, suit, surrender);
    if AllDone(r1.opening.missingDone) {
      var r2 := r1.(phase := Idle);
      assert SameTable(rs, r2) && SameAmount(rs, r2);
      SameAmountStocked(rs, r2);
      DrawCoherent(r2);
    } else {
      var r2 := r1.(phase := OpeningPhase);
      forall s: Seat ensures SelectionOk(r2, s) { assert SelectionOk(rs, s); }
    }
  }

  lemma OpeningCoherent(rs: Round, seat: int, step: OpeningStep, ts: seq<Tile>, wanted: int, suit: int, surrender: bool)
    requires Inv(rs)
    ensures var o := ApplyOpening(rs, seat, step, ts, wanted, suit, surrender);
            Coherent(o.rs) && (o.ok ==> rs.phase == OpeningPhase && (o.rs.phase == OpeningPhase || Onward(o.rs)))
  {
    if rs.closed || step == OpeningOver || CurrentStep(rs) != step || seat < 0 || seat > 3 {
    } else if step == ExchangeStep {
      ExchangeCoherent(rs, seat, ts, wanted, surrender);
    } else {
      MissingCoherent(rs, seat, suit, surrender);
    }
  }

  // ---------- timeouts ----------

  lemma SurrenderTurnCoherent(rs: Round)
    requires Inv(rs) && (rs.phase == TsumoPhase || rs.phase == DiscardPhase)
    ensures Coherent(SurrenderTurn(rs).rs) && Onward(SurrenderTurn(rs).rs)
  {
    var r1 := CloseOpeningClaim(ClearClaimWindow(MarkSurrendered(rs, rs.turn).(pendingDraw := NO_TILE, currentDraw := NO_TILE)));
    if ActiveCount(r1) <= 1 || ShouldFinish(r1) {
      FinishCoherent(r1);
    } else {
      var r2 := r1.(turn := NextActive(r1, rs.turn), phase := Idle);
      forall t: Tile ensures Amount(r2, t) <= Supply(t) {
        assert Amount(rs, t) <= Supply(t);
      }
      DrawCoherent(r2);
    }
  }

  lemma TimeoutCoherent(rs: Round)
    requires Inv(rs)
    ensures Coherent(ApplyTimeout(rs).rs)
    ensures ApplyTimeout(rs).ok ==> Onward(ApplyTimeout(rs).rs) || (rs.phase == OpeningPhase && ApplyTimeout(rs).rs.phase == OpeningPhase)
  {
    if rs.phase == OpeningPhase {
      var seat := FirstWaiting(Submitted(rs), rs.surrendered);
      if seat < 4 {
        MarkKeepsInv(rs, seat);
        OpeningCoherent(MarkSurrendered(rs, seat), seat, CurrentStep(rs), [], 0, 0, true);
      }
    } else if rs.phase == ClaimPhase {
      var seat := Best(rs.candidates).seat;
      MarkKeepsInv(rs, seat);
      PassCoherent(MarkSurrendered(rs, seat), seat);
    } else if rs.phase == TsumoPhase || rs.phase == DiscardPhase {
      SurrenderTurnCoherent(rs);
    }
  }

  // ---------- one step ----------

  lemma StepStocked(rs: Round, a: Action)
    requires Inv(rs)
    ensures Stocked(Step(rs, a).rs)
  {
    StepTiles(rs, a);
    forall t: Tile ensures Amount(Step(rs, a).rs, t) <= Supply(t) {
      assert Amount(rs, t) <= Supply(t);
    }
  }

  lemma OpeningStepCoherent(rs: Round, a: Action)
    requires Inv(rs) && (a.DoExchange? || a.DoMissing?)
    ensures Coherent(Step(rs, a).rs)
    ensures Step(rs, a).ok ==> rs.phase == OpeningPhase && (Step(rs, a).rs.phase == OpeningPhase || Onward(Step(rs, a).rs))
  {
    match a
    case DoExchange(seat, ts, wanted) => OpeningCoherent(rs, seat, ExchangeStep, ts, wanted, 0, false);
    case DoMissing(seat, suit) => OpeningCoherent(rs, seat, MissingStep, [], 0, suit, false);
  }

  /** What an accepted operation leaves behind is over, or asks somebody for something. */
  lemma StepMovesOn(rs: Round, a: Action)
    requires Inv(rs)
    ensures Coherent(Step(rs, a).rs)
    ensures Step(rs, a).ok && !a.SeatLeaves? ==>
      Onward(Step(rs, a).rs) || (rs.phase == OpeningPhase && Step(rs, a).rs.phase == OpeningPhase)
  {
    match a
    case DoExchange(seat, ts, wanted) => OpeningStepCoherent(rs, a);
    case DoMissing(seat, suit) => OpeningStepCoherent(rs, a);
    case DoDiscard(seat, t) => DiscardCoherent(rs, seat, t);
    case DoPong(seat) => if CanClaimPong(rs, seat) { PongCoherent(rs, seat); }
    case DoChi(seat, named) => NoChiClaim(rs, seat);
    case DoGang(seat, t) => GangCoherent(rs, seat, t);
    case DoHu(seat) => if CanHu(rs, seat) { HuCoherent(rs, seat, WinFan(rs, seat)); }
    case DoPass(seat) => PassCoherent(rs, seat);
    case DoTimeout => TimeoutCoherent(rs);
    case SeatLeaves(seat) => MarkKeepsInv(rs, seat);
  }

  /** The invariant survives every operation, whether it is accepted or refused. */
  lemma StepKeepsInv(rs: Round, a: Action)
    requires Inv(rs)
    ensures Inv(Step(rs, a).rs)
  {
    StepStocked(rs, a);
    StepMovesOn(rs, a);
  }
}
