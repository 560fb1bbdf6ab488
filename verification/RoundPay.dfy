/** Who pays whom, and how much, for a win or a kong. */
module RoundPay {
  import opened Rounds
  import opened RoundInv
  import opened RoundTiles
  import opened RoundRefusals
  import opened RoundDraws
  import opened Settlement

  // ---------- payments ----------

  /** What p pays to s when every other seat in play pays `each`. */
  function Share(rs: Round, p: Seat, s: Seat, each: nat): nat { if p != s && InPlay(rs, p) then each else 0 }

  function Collected(rs: Round, s: Seat, each: nat): nat {
    Share(rs, 0, s, each) + Share(rs, 1, s, each) + Share(rs, 2, s, each) + Share(rs, 3, s, each)
  }

  /** Between the two states nothing was booked but these payments, all to s, for one reason and of one amount. */
  predicate BookedTo(a: Round, b: Round, s: Seat, reason: Reason, each: nat, winner: SeatOrNone) {
    && |a.scores| <= |b.scores| && b.scores[..|a.scores|] == a.scores
    && forall i :: |a.scores| <= i < |b.scores| ==>
         b.scores[i] == ScoreEvent(reason, b.scores[i].payer, s, each, a.step, winner)
  }

  /** Every other seat still in play has paid `each` to s, and nobody else has paid or been paid. */
  predicate AllPaid(a: Round, b: Round, s: Seat, each: nat) {
    forall p: Seat ::
      Fold(b.scores)[p] == Fold(a.scores)[p] + if p == s then Collected(b, s, each) else 0 - Share(b, p, s, each)
  }

  /** What one event does to the balance of p. */
  function Moved(e: ScoreEvent, p: Seat): int {
    if e.amount <= 0 then 0 else (if e.payee == p then e.amount else 0) - if e.payer == p then e.amount else 0
  }

  lemma FoldOneMore(events: seq<ScoreEvent>, e: ScoreEvent, p: Seat)
    ensures Fold(events + [e])[p] == Fold(events)[p] + Moved(e, p)
  {
    assert (events + [e])[..|events|] == events;
  }

  lemma {:induction false} FoldJoin(xs: seq<ScoreEvent>, ys: seq<ScoreEvent>, p: Seat)
    ensures Fold(xs + ys)[p] == Fold(xs)[p] + Fold(ys)[p]
  {
    if ys == [] {
      assert xs + ys == xs;
    } else {
      var front, e := ys[..|ys| - 1], ys[|ys| - 1];
      FoldJoin(xs, front, p);
      FoldOneMore(xs + front, e, p);
      FoldOneMore(front, e, p);
      assert xs + ys == xs + front + [e] && ys == front + [e];
    }
  }

  /** One payment to s from everybody on the list but s itself. */
  function Levy(payers: seq<Seat>, s: Seat, reason: Reason, each: int, step: nat, winner: SeatOrNone): seq<ScoreEvent> {
    if payers == [] then []
    else
      (if payers[0] == s then [] else [ScoreEvent(reason, payers[0], s, each, step, winner)])
      + Levy(payers[1..], s, reason, each, step, winner)
  }

  lemma {:induction false} LevyShape(payers: seq<Seat>, s: Seat, reason: Reason, each: int, step: nat, winner: SeatOrNone)
    requires each > 0
    ensures var es := Levy(payers, s, reason, each, step, winner);
            && AllTransfers(es)
            && forall i :: 0 <= i < |es| ==> es[i] == ScoreEvent(reason, es[i].payer, s, each, step, winner)
  {
    if payers != [] { LevyShape(payers[1..], s, reason, each, step, winner); }
  }

  predicate AllDistinct(xs: seq<Seat>) { forall i, j :: 0 <= i < j < |xs| ==> xs[i] != xs[j] }

  lemma FirstPays(payer: Seat, s: Seat, e: ScoreEvent, p: Seat)
    requires e.payer == payer && e.payee == s && e.amount > 0 && p != s
    ensures Fold(if payer == s then [] else [e])[p] == if payer == p then -e.amount else 0
  {
    assert [] + [e] == [e];
    FoldOneMore([], e, p);
  }

  lemma {:induction false} LevyFold(payers: seq<Seat>, s: Seat, reason: Reason, each: int, step: nat, winner: SeatOrNone, p: Seat)
    requires AllDistinct(payers) && each > 0 && p != s
    ensures Fold(Levy(payers, s, reason, each, step, winner))[p] == if p in payers then -each else 0
  {
    if payers != [] {
      var e := ScoreEvent(reason, payers[0], s, each, step, winner);
      LevyFold(payers[1..], s, reason, each, step, winner, p);
      FoldJoin(if payers[0] == s then [] else [e], Levy(payers[1..], s, reason, each, step, winner), p);
      FirstPays(payers[0], s, e, p);
      InRest(payers, p);
    }
  }

  lemma InRest(xs: seq<Seat>, x: Seat)
    requires xs != [] && AllDistinct(xs)
    ensures x in xs <==> x == xs[0] || x in xs[1..]
    ensures x == xs[0] ==> x !in xs[1..]
  {
  }

  lemma ActiveAreInPlay(rs: Round)
    ensures AllDistinct(ActiveSeats(rs))
    ensures forall p: Seat :: p in ActiveSeats(rs) <==> InPlay(rs, p)
  {
    InPlayIsActive(rs, 0);
    InPlayIsActive(rs, 1);
    InPlayIsActive(rs, 2);
    InPlayIsActive(rs, 3);
    forall p: Seat ensures p in ActiveSeats(rs) <==> InPlay(rs, p) { assert p == 0 || p == 1 || p == 2 || p == 3; }
  }

  /** A levy on the seats in play is what was said above. */
  lemma LevyPays(a: Round, b: Round, payers: seq<Seat>, s: Seat, reason: Reason, each: nat, winner: SeatOrNone)
    requires AllTransfers(a.scores) && each > 0 && AllDistinct(payers)
    requires b.scores == a.scores + Levy(payers, s, reason, each, a.step, winner)
    requires forall p: Seat :: p != s ==> (p in payers <==> InPlay(b, p))
    ensures AllPaid(a, b, s, each) && BookedTo(a, b, s, reason, each, winner)
  {
    var es := Levy(payers, s, reason, each, a.step, winner);
    LevyShape(payers, s, reason, each, a.step, winner);
    FoldIsZeroSum(es);
    forall p: Seat
      ensures p != s ==> Fold(es)[p] == 0 - Share(b, p, s, each)
      ensures Fold(b.scores)[p] == Fold(a.scores)[p] + Fold(es)[p]
    {
      FoldJoin(a.scores, es, p);
      if p != s { LevyFold(payers, s, reason, each, a.step, winner, p); }
    }
    FourSum(Fold(es), b, s, each);
  }

  lemma FourSum(f: Balances, rs: Round, s: Seat, each: nat)
    requires Sum(f) == 0 && forall p: Seat :: p != s ==> f[p] == 0 - Share(rs, p, s, each)
    ensures f[s] == Collected(rs, s, each)
  {
    assert s == 0 || s == 1 || s == 2 || s == 3;
  }

  lemma {:induction false} GangLevy(payers: seq<Seat>, s: Seat, reason: Reason, each: int, step: nat)
    ensures GangPayments(payers, s, reason, each, step) == Levy(payers, s, reason, each, step, NO_SEAT)
  {
    if payers != [] { GangLevy(payers[1..], s, reason, each, step); }
  }

  lemma {:induction false} WinLevy(payers: seq<Seat>, s: Seat, each: int, step: nat)
    ensures WinPayments(payers, s, each, step) == Levy(payers, s, HuTsumo, each, step, s)
  {
    if payers != [] { WinLevy(payers[1..], s, each, step); }
  }

  // ---------- wins ----------

  lemma TurnAfterWinKeeps(rs: Round, seat: Seat, r1: Round)
    requires Stocked(r1)
    ensures var r3 := TurnAfterWin(rs, seat, r1);
            Stocked(r3) && SameBooks(r1.(turn := r3.turn), r3) && SameTable(r1, r3) && r3.pendingDraw == r1.pendingDraw
            && r3.closed == r1.closed
  {
    var r3 := TurnAfterWin(rs, seat, r1);
    assert SameTable(r1, r3) && SameAmount(r1, r3);
    SameAmountStocked(r1, r3);
  }

  /** Between the record of a win and what follows nothing is booked. */
  lemma SettleKeeps(rs: Round, seat: Seat, r1: Round, o: Outcome)
    requires Stocked(r1) && AllDone(r1.opening.missingDone) && !r1.closed && o == Settle(rs, seat, r1)
    ensures SameBooks(r1.(turn := o.rs.turn), o.rs)
  {
    var r3 := TurnAfterWin(rs, seat, r1);
    TurnAfterWinKeeps(rs, seat, r1);
    DrawEnds(r3, DrawForCurrentTurn(r3));
  }

  lemma RecordKeeps(rs: Round, seat: Seat, fan: nat)
    requires Inv(rs) && CanHu(rs, seat)
    ensures var r1 := RecordHu(rs, seat, fan);
            Stocked(r1) && AllDone(r1.opening.missingDone) && !r1.closed && r1.surrendered == rs.surrendered
            && r1.gangs == rs.gangs && r1.step == rs.step
  {
    RecordHuTiles(rs, seat, fan);
    LosesStocked(rs, RecordHu(rs, seat, fan), rs, seat);
  }

  /** An accepted win is recorded as it was reached, and the marks that it was judged by are gone. */
  predicate WinBooked(rs: Round, r1: Round, s: Seat, fan: nat) {
    var claimed := rs.phase == ClaimPhase;
    var e := if claimed then
               WinEvent(s, if rs.qiangGang then RobbedKong else OnDiscard, rs.lastDiscard, rs.lastDiscardSeat, rs.step, fan)
             else WinEvent(s, SelfDraw, rs.pendingDraw, NO_SEAT, rs.step, fan);
    SameBooks(rs.(turn := r1.turn, wins := rs.wins + [e], scores := r1.scores,
                  openingDrawSeat := if claimed then rs.openingDrawSeat else NO_SEAT,
                  dealerFirstDiscardOpen := !claimed && rs.dealerFirstDiscardOpen,
                  lastGangFollowUp := false, lastDiscardAfterGang := false), r1)
  }

  /** Who laid the tile pays for a claimed win. */
  predicate GiverPaid(a: Round, b: Round, s: Seat, each: nat) {
    forall p: Seat ::
      Fold(b.scores)[p] == Fold(a.scores)[p] + if p == s then each else if p == a.lastDiscardSeat then 0 - each else 0
  }

  lemma RecordedWin(rs: Round, s: Seat, fan: nat)
    requires Inv(rs) && CanHu(rs, s)
    ensures WinBooked(rs, RecordHu(rs, s, fan), s, fan)
  {
    HuGuard(rs, s);
  }

  lemma ClaimPaid(rs: Round, r1: Round, s: Seat, fan: nat, payer: Seat, reason: Reason)
    requires r1.scores == rs.scores + [ScoreEvent(reason, payer, s, fan, rs.step, s)]
    requires fan > 0 && payer == rs.lastDiscardSeat && s != payer
    ensures GiverPaid(rs, r1, s, fan) && BookedTo(rs, r1, s, reason, fan, s) && |r1.scores| == |rs.scores| + 1
  {
    var e := ScoreEvent(reason, payer, s, fan, rs.step, s);
    forall p: Seat ensures Fold(r1.scores)[p] == Fold(rs.scores)[p] + Moved(e, p) { FoldOneMore(rs.scores, e, p); }
  }

  lemma ClaimedWinPaid(rs: Round, s: Seat, fan: nat)
    requires Inv(rs) && CanHu(rs, s) && rs.phase == ClaimPhase && fan > 0
    ensures var r1 := RecordHu(rs, s, fan);
            GiverPaid(rs, r1, s, fan) && |r1.scores| == |rs.scores| + 1
            && BookedTo(rs, r1, s, if rs.lastDiscardAfterGang then HuQiangGang else HuDiscard, fan, s)
  {
    HuGuard(rs, s);
    ClaimPaid(rs, RecordHu(rs, s, fan), s, fan, rs.lastDiscardSeat, if rs.lastDiscardAfterGang then HuQiangGang else HuDiscard);
  }

  lemma StillInPlay(a: Round, b: Round, e: WinEvent, p: Seat)
    requires b.wins == a.wins + [e] && b.surrendered == a.surrendered && e.seat != p
    ensures InPlay(b, p) <==> InPlay(a, p)
  {
    assert forall i :: 0 <= i < |a.wins| ==> b.wins[i] == a.wins[i];
  }

  lemma DrawnWinPaid(rs: Round, s: Seat, fan: nat)
    requires Inv(rs) && CanHu(rs, s) && rs.phase == TsumoPhase && fan > 0
    ensures var r1 := RecordHu(rs, s, fan);
            AllPaid(rs, r1, s, fan) && BookedTo(rs, r1, s, HuTsumo, fan, s)
  {
    HuGuard(rs, s);
    var r1 := RecordHu(rs, s, fan);
    WinLevy(ActiveSeats(rs), s, fan, rs.step);
    ActiveAreInPlay(rs);
    var e := WinEvent(s, SelfDraw, rs.pendingDraw, NO_SEAT, rs.step, fan);
    forall p: Seat | p != s ensures p in ActiveSeats(rs) <==> InPlay(r1, p) { StillInPlay(rs, r1, e, p); }
    LevyPays(rs, r1, ActiveSeats(rs), s, HuTsumo, fan, s);
  }

  /**
   * The win is on record and paid. By a claim the seat that laid the tile pays all of it; with an own
   * draw every other seat that has neither won nor surrendered pays it, and the winner gets the sum.
   */
  ghost predicate WinPaid(rs: Round, r1: Round, s: Seat, fan: nat) {
    && WinBooked(rs, r1, s, fan)
    && if rs.phase == ClaimPhase then
         && GiverPaid(rs, r1, s, fan) && |r1.scores| == |rs.scores| + 1
         && BookedTo(rs, r1, s, if rs.lastDiscardAfterGang then HuQiangGang else HuDiscard, fan, s)
       else AllPaid(rs, r1, s, fan) && BookedTo(rs, r1, s, HuTsumo, fan, s)
  }

  lemma SameBooksPaid(rs: Round, a: Round, b: Round, s: Seat, fan: nat)
    requires SameBooks(a.(turn := b.turn), b) && WinPaid(rs, a, s, fan)
    ensures WinPaid(rs, b, s, fan)
  {
    assert forall p: Seat :: Share(a, p, s, fan) == Share(b, p, s, fan);
  }

  lemma RecordPaid(rs: Round, s: Seat, fan: nat)
    requires Inv(rs) && CanHu(rs, s) && fan > 0
    ensures WinPaid(rs, RecordHu(rs, s, fan), s, fan)
  {
    RecordedWin(rs, s, fan);
    HuGuard(rs, s);
    if rs.phase == ClaimPhase { ClaimedWinPaid(rs, s, fan); } else { DrawnWinPaid(rs, s, fan); }
  }

  lemma PaidThrough(rs: Round, s: Seat, fan: nat, o: Outcome)
    requires Inv(rs) && CanHu(rs, s) && fan > 0 && o == ApplyHu(rs, s, fan)
    ensures WinPaid(rs, o.rs, s, fan)
  {
    HuForm(rs, s, fan);
    RecordKeeps(rs, s, fan);
    SettleKeeps(rs, s, RecordHu(rs, s, fan), o);
    RecordPaid(rs, s, fan);
    SameBooksPaid(rs, RecordHu(rs, s, fan), o.rs, s, fan);
  }

  /** Every accepted win is paid what the fan table says, by whom the rule says. */
  lemma WinIsPaid(rs: Round, s: int)
    requires Inv(rs) && Step(rs, DoHu(s)).ok
    ensures 0 <= s < 4 && (rs.phase == ClaimPhase || rs.phase == TsumoPhase)
    ensures WinPaid(rs, Step(rs, DoHu(s)).rs, s, WinFan(rs, s))
  {
    AcceptedIffAllowed(rs, DoHu(s));
    HuGuard(rs, s);
    PaidThrough(rs, s, WinFan(rs, s), ApplyHu(rs, s, WinFan(rs, s)));
  }
}
