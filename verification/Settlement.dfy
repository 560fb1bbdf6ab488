/** The score ledger and what is settled at the end of a hand (internal/mahjong/sichuan/xuezhandaodi/settlement.go). */
module Settlement {
  import opened Lists
  import opened Tiles
  import opened SichuanWin
  import opened Ting
  import opened Rounds
  import opened RoundInv

  type Balances = b: seq<int> | |b| == 4 witness [0, 0, 0, 0]

  const NO_BALANCE: Balances := [0, 0, 0, 0]

  const SEATS: nat := 4

  datatype PenaltyReason = HoldsMissingSuit | NotReady | RefundMing | RefundBu | RefundAn

  datatype Penalty = Penalty(reason: PenaltyReason, from: int, to: int, amount: int)

  /** Moves the amount; a side that is no seat is left out. */
  function Pay(b: Balances, from: int, to: int, amount: int): Balances {
    var paid := if 0 <= from < 4 then b[from := b[from] - amount] else b;
    if 0 <= to < 4 then paid[to := paid[to] + amount] else paid
  }

  /** Balances from the events in order; an event without a positive amount is passed over. */
  function Fold(events: seq<ScoreEvent>): Balances {
    if events == [] then NO_BALANCE
    else
      var e := events[|events| - 1];
      var before := Fold(events[..|events| - 1]);
      if e.amount <= 0 then before else Pay(before, e.payer, e.payee, e.amount)
  }

  function PayAll(b: Balances, ps: seq<Penalty>): Balances {
    if ps == [] then b
    else
      var p := ps[|ps| - 1];
      Pay(PayAll(b, ps[..|ps| - 1]), p.from, p.to, p.amount)
  }

  function Sum(b: Balances): int { b[0] + b[1] + b[2] + b[3] }

  // ---------- what has to be paid ----------

  /** What the settlement looks at. `orders[s]` is the order in which the winners come up for seat s. */
  datatype Facts = Facts(hands: Piles, missing: Suits, events: seq<ScoreEvent>, winners: set<Seat>, orders: seq<seq<Seat>>)

  /** Each order lists the winners once each; which one it is, is arbitrary. */
  ghost predicate Ordered(f: Facts) {
    && |f.orders| == 4
    && forall s: Seat :: (forall w: Seat :: w in f.winners <==> w in f.orders[s])
                      && forall i, j :: 0 <= i < j < |f.orders[s]| ==> f.orders[s][i] != f.orders[s][j]
  }

  /** The hand still holds the suit the seat gave up. */
  predicate IsPig(f: Facts, s: Seat) {
    exists i :: 0 <= i < |f.hands[s]| && Suit(f.hands[s][i]) == f.missing[s]
  }

  ghost predicate Ready(f: Facts, s: Seat) { IsReady(HandCounts(f.hands[s])) }

  /** Nobody won, and the seat was not ready either. */
  ghost predicate DrawnUnready(f: Facts, s: Seat) { f.winners == {} && !Ready(f, s) }

  function ToOthers(from: Seat, n: nat): seq<Penalty>
    requires n <= 4
  {
    if n == 0 then []
    else ToOthers(from, n - 1) + if n - 1 == from then [] else [Penalty(HoldsMissingSuit, from, n - 1, 2)]
  }

  function ToWinners(from: Seat, order: seq<Seat>): seq<Penalty> {
    if order == [] then []
    else ToWinners(from, order[..|order| - 1]) + [Penalty(NotReady, from, order[|order| - 1], 1)]
  }

  function RefundReason(r: Reason, withAn: bool): Option<PenaltyReason> {
    match r
    case GangMing => Some(RefundMing)
    case GangBu => Some(RefundBu)
    case GangAn => if withAn then Some(RefundAn) else None
    case _ => None
  }

  /** The event paid the seat for a kong that has to be given back. */
  predicate Refundable(e: ScoreEvent, s: Seat, withAn: bool) {
    e.payee == s && e.payer >= 0 && e.amount > 0 && RefundReason(e.reason, withAn).Some?
  }

  function Refunds(events: seq<ScoreEvent>, s: Seat, withAn: bool): seq<Penalty> {
    if events == [] then []
    else
      var e := events[|events| - 1];
      Refunds(events[..|events| - 1], s, withAn)
      + if Refundable(e, s, withAn) then [Penalty(RefundReason(e.reason, withAn).value, s, e.payer, e.amount)] else []
  }

  ghost function PigPart(f: Facts, s: Seat): seq<Penalty> {
    if IsPig(f, s) then ToOthers(s, SEATS) else []
  }

  ghost function UnreadyPart(f: Facts, s: Seat): seq<Penalty>
    requires |f.orders| == 4
  {
    if f.winners != {} && s !in f.winners && !IsPig(f, s) && !Ready(f, s) then ToWinners(s, f.orders[s]) else []
  }

  ghost function RefundPart(f: Facts, s: Seat): seq<Penalty> {
    if IsPig(f, s) || DrawnUnready(f, s) then Refunds(f.events, s, DrawnUnready(f, s)) else []
  }

  ghost function SeatPenalties(f: Facts, s: Seat): seq<Penalty>
    requires |f.orders| == 4
  {
    PigPart(f, s) + UnreadyPart(f, s) + RefundPart(f, s)
  }

  /** The lists from place n up to m, one behind the other. */
  function Joined(lists: seq<seq<Penalty>>, n: nat, m: nat): seq<Penalty>
    requires n <= m <= |lists|
  {
    if n == m then [] else Joined(lists, n, m - 1) + lists[m - 1]
  }

  /** The penalties of each seat. */
  ghost function Parts(f: Facts): (lists: seq<seq<Penalty>>)
    requires |f.orders| == 4
    ensures |lists| == 4 && forall s: Seat :: lists[s] == SeatPenalties(f, s)
  {
    seq(4, s requires 0 <= s < 4 => SeatPenalties(f, s))
  }

  ghost function PenaltiesBefore(f: Facts, n: nat): seq<Penalty>
    requires |f.orders| == 4 && n <= 4
  {
    Joined(Parts(f), 0, n)
  }

  /** The total that is reported for a seat: its balance when its own turn in the settlement is over. */
  ghost function Reported(f: Facts, s: Seat): int
    requires |f.orders| == 4
  {
    PayAll(Fold(f.events), PenaltiesBefore(f, s + 1))[s]
  }

  // ---------- the ledger ----------

  lemma PayAllMore(b: Balances, ps: seq<Penalty>, p: Penalty)
    ensures PayAll(b, ps + [p]) == Pay(PayAll(b, ps), p.from, p.to, p.amount)
  {
    assert (ps + [p])[..|ps|] == ps;
  }

  lemma RefundsOfOneMore(events: seq<ScoreEvent>, e: ScoreEvent, s: Seat, withAn: bool)
    ensures Refunds(events + [e], s, withAn) == Refunds(events, s, withAn)
      + if Refundable(e, s, withAn) then [Penalty(RefundReason(e.reason, withAn).value, s, e.payer, e.amount)] else []
  {
    assert (events + [e])[..|events|] == events;
  }

  lemma NextBefore(f: Facts, n: Seat, before: seq<Penalty>, b: Balances)
    requires |f.orders| == 4 && before == PenaltiesBefore(f, n) + SeatPenalties(f, n) && b == PayAll(Fold(f.events), before)
    ensures before == PenaltiesBefore(f, n + 1) && b[n] == Reported(f, n)
  {
    assert Parts(f)[n] == SeatPenalties(f, n);
  }

  class Ledger {
    var balances: Balances
    var penalties: seq<Penalty>
    ghost const start: Balances

    /** The balances are what they were at the start after all penalties so far. */
    ghost predicate Valid()
      reads this
    {
      balances == PayAll(start, penalties)
    }

    constructor (events: seq<ScoreEvent>)
      ensures Valid() && start == Fold(events) && penalties == []
    {
      var b: Balances := NO_BALANCE;
      for i := 0 to |events|
        invariant b == Fold(events[..i])
      {
        var e := events[i];
        assert events[..i + 1] == events[..i] + [e];
        if e.amount > 0 { b := Pay(b, e.payer, e.payee, e.amount); }
      }
      assert events[..|events|] == events;
      balances, penalties, start := b, [], b;
    }

    method Append(p: Penalty)
      requires Valid()
      modifies this
      ensures Valid() && penalties == old(penalties) + [p]
    {
      PayAllMore(start, penalties, p);
      penalties := penalties + [p];
      balances := Pay(balances, p.from, p.to, p.amount);
    }

    method AppendPig(from: Seat)
      requires Valid()
      modifies this
      ensures Valid() && penalties == old(penalties) + ToOthers(from, SEATS)
    {
      for to := 0 to 4
        invariant Valid() && penalties == old(penalties) + ToOthers(from, to)
      {
        if to != from { Append(Penalty(HoldsMissingSuit, from, to, 2)); }
      }
    }

    method AppendUnready(from: Seat, order: seq<Seat>)
      requires Valid()
      modifies this
      ensures Valid() && penalties == old(penalties) + ToWinners(from, order)
    {
      for i := 0 to |order|
        invariant Valid() && penalties == old(penalties) + ToWinners(from, order[..i])
      {
        assert order[..i + 1][..i] == order[..i];
        Append(Penalty(NotReady, from, order[i], 1));
      }
      assert order[..|order|] == order;
    }

    method AppendRefunds(events: seq<ScoreEvent>, s: Seat, skipped: bool, drawn: bool)
      requires Valid()
      modifies this
      ensures Valid()
      ensures penalties == old(penalties) + if skipped || drawn then Refunds(events, s, drawn) else []
    {
      if !skipped && !drawn { return; }
      for i := 0 to |events|
        invariant Valid() && penalties == old(penalties) + Refunds(events[..i], s, drawn)
      {
        assert events[..i + 1] == events[..i] + [events[i]];
        RefundsOfOneMore(events[..i], events[i], s, drawn);
        var e := events[i];
        if e.payee == s && e.payer >= 0 && e.amount > 0 {
          var reason := RefundReason(e.reason, drawn);
          if reason.Some? { Append(Penalty(reason.value, s, e.payer, e.amount)); }
        }
      }
      assert events[..|events|] == events;
    }
  }

  method HoldsMissing(h: seq<Tile>, suit: int) returns (b: bool)
    ensures b == exists i :: 0 <= i < |h| && Suit(h[i]) == suit
  {
    for i := 0 to |h|
      invariant forall k :: 0 <= k < i ==> Suit(h[k]) != suit
    {
      if Suit(h[i]) == suit { return true; }
    }
    return false;
  }

  method Examine(f: Facts, s: Seat) returns (skipped: bool, ting: bool)
    ensures skipped == IsPig(f, s) && ting == Ready(f, s)
  {
    skipped := HoldsMissing(f.hands[s], f.missing[s]);
    var counts := Count(f.hands[s]);
    ting := IsTing(counts);
  }

  method SettlePig(ledger: Ledger, f: Facts, s: Seat, skipped: bool)
    requires ledger.Valid() && skipped == IsPig(f, s)
    modifies ledger
    ensures ledger.Valid() && ledger.penalties == old(ledger.penalties) + PigPart(f, s)
  {
    if skipped { ledger.AppendPig(s); }
  }

  method SettleUnready(ledger: Ledger, f: Facts, s: Seat, skipped: bool, ting: bool)
    requires ledger.Valid() && |f.orders| == 4 && skipped == IsPig(f, s) && ting == Ready(f, s)
    modifies ledger
    ensures ledger.Valid() && ledger.penalties == old(ledger.penalties) + UnreadyPart(f, s)
  {
    if f.winners != {} && s !in f.winners && !skipped && !ting {
      ledger.AppendUnready(s, f.orders[s]);
    }
  }

  method SettleRefunds(ledger: Ledger, f: Facts, s: Seat, skipped: bool, ting: bool)
    requires ledger.Valid() && skipped == IsPig(f, s) && ting == Ready(f, s)
    modifies ledger
    ensures ledger.Valid() && ledger.penalties == old(ledger.penalties) + RefundPart(f, s)
  {
    ledger.AppendRefunds(f.events, s, skipped, f.winners == {} && !ting);
  }

  lemma JoinFour(a: seq<Penalty>, b: seq<Penalty>, c: seq<Penalty>, d: seq<Penalty>)
    ensures a + b + c + d == a + (b + c + d)
  {
  }

  method SettleSeat(ledger: Ledger, f: Facts, s: Seat)
    requires ledger.Valid() && |f.orders| == 4
    modifies ledger
    ensures ledger.Valid() && ledger.penalties == old(ledger.penalties) + SeatPenalties(f, s)
  {
    var skipped, ting := Examine(f, s);
    JoinFour(ledger.penalties, PigPart(f, s), UnreadyPart(f, s), RefundPart(f, s));
    SettlePig(ledger, f, s, skipped);
    SettleUnready(ledger, f, s, skipped, ting);
    SettleRefunds(ledger, f, s, skipped, ting);
  }

  /** The settlement: the penalties seat by seat, and the totals as they are reported. */
  method BuildSettlement(f: Facts) returns (totals: Balances, penalties: seq<Penalty>, balances: Balances)
    requires Ordered(f)
    ensures penalties == PenaltiesBefore(f, 4)
    ensures balances == PayAll(Fold(f.events), penalties)
    ensures forall s: Seat :: totals[s] == Reported(f, s)
  {
    var ledger := new Ledger(f.events);
    totals := NO_BALANCE;
    for s := 0 to 4
      invariant fresh(ledger) && ledger.Valid() && ledger.start == Fold(f.events)
      invariant ledger.penalties == PenaltiesBefore(f, s)
      invariant forall t: Seat :: t < s ==> totals[t] == Reported(f, t)
    {
      SettleSeat(ledger, f, s);
      NextBefore(f, s, ledger.penalties, ledger.balances);
      totals := totals[s := ledger.balances[s]];
    }
    penalties, balances := ledger.penalties, ledger.balances;
  }

  // ---------- nothing is created ----------

  predicate IsPaymentBetweenSeats(p: Penalty) { 0 <= p.from < 4 && 0 <= p.to < 4 && p.from != p.to && p.amount > 0 }

  predicate AllBetweenSeats(ps: seq<Penalty>) { forall i :: 0 <= i < |ps| ==> IsPaymentBetweenSeats(ps[i]) }

  lemma PayKeepsSum(b: Balances, from: int, to: int, amount: int)
    requires 0 <= from < 4 && 0 <= to < 4
    ensures Sum(Pay(b, from, to, amount)) == Sum(b)
  {
  }

  /** Events that are transfers fold to balances that cancel out. */
  lemma {:induction false} FoldIsZeroSum(events: seq<ScoreEvent>)
    requires AllTransfers(events)
    ensures Sum(Fold(events)) == 0
  {
    if events != [] {
      var e := events[|events| - 1];
      FoldIsZeroSum(events[..|events| - 1]);
      PayKeepsSum(Fold(events[..|events| - 1]), e.payer, e.payee, e.amount);
    }
  }

  lemma {:induction false} PenaltiesKeepSum(b: Balances, ps: seq<Penalty>)
    requires AllBetweenSeats(ps)
    ensures Sum(PayAll(b, ps)) == Sum(b)
  {
    if ps != [] {
      var p := ps[|ps| - 1];
      PenaltiesKeepSum(b, ps[..|ps| - 1]);
      PayKeepsSum(PayAll(b, ps[..|ps| - 1]), p.from, p.to, p.amount);
    }
  }

  lemma PigsPaySeats(from: Seat)
    ensures AllBetweenSeats(ToOthers(from, SEATS)) && |ToOthers(from, SEATS)| == 3
  {
    assert ToOthers(from, 1) == if from == 0 then [] else [Penalty(HoldsMissingSuit, from, 0, 2)];
    assert ToOthers(from, 2) == ToOthers(from, 1) + if from == 1 then [] else [Penalty(HoldsMissingSuit, from, 1, 2)];
    assert ToOthers(from, 3) == ToOthers(from, 2) + if from == 2 then [] else [Penalty(HoldsMissingSuit, from, 2, 2)];
  }

  lemma {:induction false} UnreadyPaySeats(from: Seat, order: seq<Seat>)
    requires from !in order
    ensures AllBetweenSeats(ToWinners(from, order)) && |ToWinners(from, order)| == |order|
  {
    if order != [] { UnreadyPaySeats(from, order[..|order| - 1]); }
  }

  lemma {:induction false} RefundsPaySeats(events: seq<ScoreEvent>, s: Seat, withAn: bool)
    requires AllTransfers(events)
    ensures AllBetweenSeats(Refunds(events, s, withAn))
  {
    if events != [] { RefundsPaySeats(events[..|events| - 1], s, withAn); }
  }

  lemma SeatPaysSeats(f: Facts, s: Seat)
    requires Ordered(f) && AllTransfers(f.events)
    ensures AllBetweenSeats(SeatPenalties(f, s))
  {
    PigsPaySeats(s);
    if s !in f.winners { UnreadyPaySeats(s, f.orders[s]); }
    RefundsPaySeats(f.events, s, DrawnUnready(f, s));
  }

  lemma {:induction false} JoinedBetweenSeats(lists: seq<seq<Penalty>>, n: nat)
    requires n <= |lists| && forall i :: 0 <= i < |lists| ==> AllBetweenSeats(lists[i])
    ensures AllBetweenSeats(Joined(lists, 0, n))
  {
    if n > 0 { JoinedBetweenSeats(lists, n - 1); }
  }

  /** Every penalty of a settlement goes from one seat to another one. */
  lemma PenaltiesAreTransfers(f: Facts, n: nat)
    requires Ordered(f) && AllTransfers(f.events) && n <= 4
    ensures AllBetweenSeats(PenaltiesBefore(f, n))
  {
    forall s: Seat ensures AllBetweenSeats(Parts(f)[s]) { SeatPaysSeats(f, s); }
    JoinedBetweenSeats(Parts(f), n);
  }

  /** After the events, after each seat's penalties, and in the end, the balances cancel out. */
  lemma SettlementIsZeroSum(f: Facts, n: nat)
    requires Ordered(f) && AllTransfers(f.events) && n <= 4
    ensures Sum(PayAll(Fold(f.events), PenaltiesBefore(f, n))) == 0
  {
    FoldIsZeroSum(f.events);
    PenaltiesAreTransfers(f, n);
    PenaltiesKeepSum(Fold(f.events), PenaltiesBefore(f, n));
  }

  // ---------- refunds ----------

  /** What the seat earned from one payer by kongs of one kind. */
  function Earned(events: seq<ScoreEvent>, s: Seat, payer: Seat, kind: Reason): int {
    if events == [] then 0
    else
      var e := events[|events| - 1];
      Earned(events[..|events| - 1], s, payer, kind)
      + if e.reason == kind && e.payee == s && e.payer == payer && e.amount > 0 then e.amount else 0
  }

  /** What it has to give back to that payer; concealed kongs only when nobody won. */
  function KongIncome(events: seq<ScoreEvent>, s: Seat, payer: Seat, withAn: bool): int {
    Earned(events, s, payer, GangMing) + Earned(events, s, payer, GangBu) + if withAn then Earned(events, s, payer, GangAn) else 0
  }

  /** What the seat gives back to one payer under one label. */
  function Refunded(ps: seq<Penalty>, s: Seat, payer: Seat, tag: PenaltyReason): int {
    if ps == [] then 0
    else
      var p := ps[|ps| - 1];
      Refunded(ps[..|ps| - 1], s, payer, tag) + if p.reason == tag && p.from == s && p.to == payer then p.amount else 0
  }

  lemma {:induction false} RefundedJoin(a: seq<Penalty>, b: seq<Penalty>, s: Seat, payer: Seat, tag: PenaltyReason)
    ensures Refunded(a + b, s, payer, tag) == Refunded(a, s, payer, tag) + Refunded(b, s, payer, tag)
  {
    if b == [] {
      assert a + b == a;
    } else {
      RefundedJoin(a, b[..|b| - 1], s, payer, tag);
      assert (a + b)[..|a + b| - 1] == a + b[..|b| - 1];
    }
  }

  lemma {:induction false} NoRefunds(ps: seq<Penalty>, s: Seat, payer: Seat, tag: PenaltyReason)
    requires forall i :: 0 <= i < |ps| ==> ps[i].from != s || ps[i].reason != tag
    ensures Refunded(ps, s, payer, tag) == 0
  {
    if ps != [] { NoRefunds(ps[..|ps| - 1], s, payer, tag); }
  }

  lemma RefundedOne(ps: seq<Penalty>, p: Penalty, s: Seat, payer: Seat, tag: PenaltyReason)
    ensures Refunded(ps + [p], s, payer, tag) ==
      Refunded(ps, s, payer, tag) + if p.reason == tag && p.from == s && p.to == payer then p.amount else 0
  {
    assert (ps + [p])[..|ps|] == ps;
  }

  lemma EarnedOne(events: seq<ScoreEvent>, e: ScoreEvent, s: Seat, payer: Seat, kind: Reason)
    ensures Earned(events + [e], s, payer, kind) ==
      Earned(events, s, payer, kind) + if e.reason == kind && e.payee == s && e.payer == payer && e.amount > 0 then e.amount else 0
  {
    assert (events + [e])[..|events|] == events;
  }

  /** Each kind of kong is refunded under its own label. */
  predicate Labels(kind: Reason, tag: PenaltyReason) {
    (kind == GangMing && tag == RefundMing) || (kind == GangBu && tag == RefundBu) || (kind == GangAn && tag == RefundAn)
  }

  lemma OneMoreMatches(events: seq<ScoreEvent>, e: ScoreEvent, s: Seat, payer: Seat, withAn: bool, kind: Reason, tag: PenaltyReason)
    requires Labels(kind, tag) && (kind == GangAn ==> withAn)
    requires Refunded(Refunds(events, s, withAn), s, payer, tag) == Earned(events, s, payer, kind)
    ensures Refunded(Refunds(events + [e], s, withAn), s, payer, tag) == Earned(events + [e], s, payer, kind)
  {
    RefundsOfOneMore(events, e, s, withAn);
    EarnedOne(events, e, s, payer, kind);
    var before := Refunds(events, s, withAn);
    if Refundable(e, s, withAn) {
      RefundedOne(before, Penalty(RefundReason(e.reason, withAn).value, s, e.payer, e.amount), s, payer, tag);
    } else {
      assert before + [] == before;
    }
  }

  lemma {:induction false} RefundsMatch(events: seq<ScoreEvent>, s: Seat, payer: Seat, withAn: bool, kind: Reason, tag: PenaltyReason)
    requires Labels(kind, tag) && (kind == GangAn ==> withAn)
    ensures Refunded(Refunds(events, s, withAn), s, payer, tag) == Earned(events, s, payer, kind)
  {
    if events != [] {
      var front, e := events[..|events| - 1], events[|events| - 1];
      RefundsMatch(front, s, payer, withAn, kind, tag);
      OneMoreMatches(front, e, s, payer, withAn, kind, tag);
      assert front + [e] == events;
    }
  }

  lemma {:induction false} NoneForConcealed(events: seq<ScoreEvent>, s: Seat)
    ensures forall i :: 0 <= i < |Refunds(events, s, false)| ==> Refunds(events, s, false)[i].reason != RefundAn
  {
    if events != [] { NoneForConcealed(events[..|events| - 1], s); }
  }

  lemma {:induction false} RefundsFrom(events: seq<ScoreEvent>, s: Seat, withAn: bool)
    ensures forall i :: 0 <= i < |Refunds(events, s, withAn)| ==> Refunds(events, s, withAn)[i].from == s
  {
    if events != [] { RefundsFrom(events[..|events| - 1], s, withAn); }
  }

  lemma {:induction false} ToOthersPlain(from: Seat, n: nat)
    requires n <= 4
    ensures forall i :: 0 <= i < |ToOthers(from, n)| ==> ToOthers(from, n)[i].reason == HoldsMissingSuit
  {
    if n > 0 { ToOthersPlain(from, n - 1); }
  }

  lemma {:induction false} ToWinnersPlain(from: Seat, order: seq<Seat>)
    ensures forall i :: 0 <= i < |ToWinners(from, order)| ==>
              ToWinners(from, order)[i].reason == NotReady
  {
    if order != [] { ToWinnersPlain(from, order[..|order| - 1]); }
  }

  predicate IsRefund(tag: PenaltyReason) { tag == RefundMing || tag == RefundBu || tag == RefundAn }

  lemma SeatRefunds(f: Facts, own: Seat, s: Seat, payer: Seat, tag: PenaltyReason)
    requires |f.orders| == 4 && IsRefund(tag)
    ensures Refunded(SeatPenalties(f, own), s, payer, tag) == if own == s then Refunded(RefundPart(f, s), s, payer, tag) else 0
  {
    ToOthersPlain(own, SEATS);
    ToWinnersPlain(own, f.orders[own]);
    RefundsFrom(f.events, own, DrawnUnready(f, own));
    var plain := PigPart(f, own) + UnreadyPart(f, own);
    NoRefunds(plain, s, payer, tag);
    RefundedJoin(plain, RefundPart(f, own), s, payer, tag);
    if own != s { NoRefunds(RefundPart(f, own), s, payer, tag); }
  }

  lemma {:induction false} RefundsJoined(lists: seq<seq<Penalty>>, n: nat, own: nat, s: Seat, payer: Seat, tag: PenaltyReason)
    requires n <= |lists| && own < |lists| && forall i :: 0 <= i < |lists| && i != own ==> Refunded(lists[i], s, payer, tag) == 0
    ensures Refunded(Joined(lists, 0, n), s, payer, tag) == if own < n then Refunded(lists[own], s, payer, tag) else 0
  {
    if n > 0 {
      RefundsJoined(lists, n - 1, own, s, payer, tag);
      RefundedJoin(Joined(lists, 0, n - 1), lists[n - 1], s, payer, tag);
    }
  }

  lemma AllRefunds(f: Facts, s: Seat, payer: Seat, tag: PenaltyReason)
    requires Ordered(f) && IsRefund(tag)
    ensures Refunded(PenaltiesBefore(f, 4), s, payer, tag) == Refunded(RefundPart(f, s), s, payer, tag)
  {
    forall own: Seat | own != s ensures Refunded(Parts(f)[own], s, payer, tag) == 0 { SeatRefunds(f, own, s, payer, tag); }
    SeatRefunds(f, s, s, payer, tag);
    RefundsJoined(Parts(f), SEATS, s, s, payer, tag);
  }

  /**
   * A seat that holds its missing suit gives back to each payer exactly what it earned from it by
   * claimed and by added kongs, and one that is not ready when nobody won also what it earned by
   * concealed ones; each kind under its own label and once, and nobody else gives anything back.
   */
  lemma KongIncomeIsRefunded(f: Facts, s: Seat, payer: Seat)
    requires Ordered(f)
    ensures var ps, due := PenaltiesBefore(f, 4), IsPig(f, s) || DrawnUnready(f, s);
            && Refunded(ps, s, payer, RefundMing) == (if due then Earned(f.events, s, payer, GangMing) else 0)
            && Refunded(ps, s, payer, RefundBu) == (if due then Earned(f.events, s, payer, GangBu) else 0)
            && Refunded(ps, s, payer, RefundAn) == (if DrawnUnready(f, s) then Earned(f.events, s, payer, GangAn) else 0)
  {
    AllRefunds(f, s, payer, RefundMing);
    AllRefunds(f, s, payer, RefundBu);
    AllRefunds(f, s, payer, RefundAn);
    var drawn := DrawnUnready(f, s);
    RefundsMatch(f.events, s, payer, drawn, GangMing, RefundMing);
    RefundsMatch(f.events, s, payer, drawn, GangBu, RefundBu);
    if drawn {
      RefundsMatch(f.events, s, payer, drawn, GangAn, RefundAn);
    } else {
      NoneForConcealed(f.events, s);
      NoRefunds(RefundPart(f, s), s, payer, RefundAn);
    }
  }

  // ---------- reported totals ----------

  lemma {:induction false} PayAllJoin(b: Balances, ps: seq<Penalty>, qs: seq<Penalty>)
    ensures PayAll(b, ps + qs) == PayAll(PayAll(b, ps), qs)
  {
    if qs == [] {
      assert ps + qs == ps;
    } else {
      PayAllJoin(b, ps, qs[..|qs| - 1]);
      assert (ps + qs)[..|ps + qs| - 1] == ps + qs[..|qs| - 1];
    }
  }

  /** What the seat gains by a list of penalties. */
  function Gain(ps: seq<Penalty>, s: Seat): int {
    if ps == [] then 0
    else
      var p := ps[|ps| - 1];
      Gain(ps[..|ps| - 1], s) + (if p.to == s then p.amount else 0) - (if p.from == s then p.amount else 0)
  }

  lemma {:induction false} GainIsDifference(b: Balances, ps: seq<Penalty>, s: Seat)
    ensures PayAll(b, ps)[s] == b[s] + Gain(ps, s)
  {
    if ps != [] { GainIsDifference(b, ps[..|ps| - 1], s); }
  }

  lemma {:induction false} JoinedSplit(lists: seq<seq<Penalty>>, n: nat, m: nat)
    requires n <= m <= |lists|
    ensures Joined(lists, 0, m) == Joined(lists, 0, n) + Joined(lists, n, m)
    decreases m - n
  {
    if n < m {
      JoinedSplit(lists, n, m - 1);
      JoinThree(Joined(lists, 0, n), Joined(lists, n, m - 1), lists[m - 1]);
    } else {
      assert Joined(lists, 0, n) + [] == Joined(lists, 0, n);
    }
  }

  // ---------- who is paid later ----------

  /** Seat t pays seat s when its own turn in the settlement comes. */
  ghost predicate Pays(f: Facts, t: Seat, s: Seat) {
    || IsPig(f, t)
    || (s in f.winners && t !in f.winners && !Ready(f, t))
    || (DrawnUnready(f, t) && KongIncome(f.events, t, s, true) > 0)
  }

  lemma {:induction false} GainJoin(a: seq<Penalty>, b: seq<Penalty>, s: Seat)
    ensures Gain(a + b, s) == Gain(a, s) + Gain(b, s)
  {
    if b == [] {
      assert a + b == a;
    } else {
      GainJoin(a, b[..|b| - 1], s);
      assert (a + b)[..|a + b| - 1] == a + b[..|b| - 1];
    }
  }

  lemma GainOne(ps: seq<Penalty>, p: Penalty, s: Seat)
    ensures Gain(ps + [p], s) == Gain(ps, s) + (if p.to == s then p.amount else 0) - (if p.from == s then p.amount else 0)
  {
    assert (ps + [p])[..|ps|] == ps;
  }

  /** A pig brings two points to every other seat. */
  lemma {:induction false} PigGain(from: Seat, s: Seat, n: nat)
    requires n <= 4 && s != from
    ensures Gain(ToOthers(from, n), s) == if s < n then 2 else 0
  {
    if n > 0 {
      PigGain(from, s, n - 1);
      if n - 1 != from {
        GainOne(ToOthers(from, n - 1), Penalty(HoldsMissingSuit, from, n - 1, 2), s);
      } else {
        assert ToOthers(from, n) == ToOthers(from, n - 1);
      }
    }
  }

  /** A seat that was not ready brings one point to every winner. */
  lemma {:induction false} WinnerGain(from: Seat, order: seq<Seat>, s: Seat)
    requires s != from && forall i, j :: 0 <= i < j < |order| ==> order[i] != order[j]
    ensures Gain(ToWinners(from, order), s) == if s in order then 1 else 0
  {
    if order != [] {
      var before, last := order[..|order| - 1], order[|order| - 1];
      WinnerGain(from, before, s);
      GainOne(ToWinners(from, before), Penalty(NotReady, from, last, 1), s);
      assert order == before + [last];
    }
  }

  lemma IncomeOne(events: seq<ScoreEvent>, e: ScoreEvent, s: Seat, payer: Seat, withAn: bool)
    ensures KongIncome(events + [e], s, payer, withAn) == KongIncome(events, s, payer, withAn)
      + if Refundable(e, s, withAn) && e.payer == payer then e.amount else 0
  {
    EarnedOne(events, e, s, payer, GangMing);
    EarnedOne(events, e, s, payer, GangBu);
    EarnedOne(events, e, s, payer, GangAn);
  }

  /** A refund brings back what was paid. */
  lemma {:induction false} RefundGain(events: seq<ScoreEvent>, from: Seat, s: Seat, withAn: bool)
    requires s != from
    ensures Gain(Refunds(events, from, withAn), s) == KongIncome(events, from, s, withAn) >= 0
  {
    if events != [] {
      var front, e := events[..|events| - 1], events[|events| - 1];
      var before := Refunds(front, from, withAn);
      RefundGain(front, from, s, withAn);
      IncomeOne(front, e, from, s, withAn);
      assert front + [e] == events;
      if Refundable(e, from, withAn) {
        GainOne(before, Penalty(RefundReason(e.reason, withAn).value, from, e.payer, e.amount), s);
      } else {
        assert before + [] == before;
      }
    }
  }

  /** Another seat's turn never costs a seat anything, and brings it something exactly when that seat pays it. */
  lemma SeatGain(f: Facts, t: Seat, s: Seat)
    requires Ordered(f) && s != t
    ensures Gain(SeatPenalties(f, t), s) ==
      (if IsPig(f, t) then 2 else 0)
      + (if s in f.winners && t !in f.winners && !IsPig(f, t) && !Ready(f, t) then 1 else 0)
      + (if IsPig(f, t) || DrawnUnready(f, t) then KongIncome(f.events, t, s, DrawnUnready(f, t)) else 0)
    ensures Gain(SeatPenalties(f, t), s) >= 0
    ensures Gain(SeatPenalties(f, t), s) > 0 <==> Pays(f, t, s)
  {
    GainJoin(PigPart(f, t) + UnreadyPart(f, t), RefundPart(f, t), s);
    GainJoin(PigPart(f, t), UnreadyPart(f, t), s);
    PigGain(t, s, SEATS);
    WinnerGain(t, f.orders[t], s);
    RefundGain(f.events, t, s, DrawnUnready(f, t));
  }

  lemma {:induction false} GainJoined(lists: seq<seq<Penalty>>, n: nat, m: nat, s: Seat)
    requires n <= m <= |lists| && forall i :: n <= i < m ==> Gain(lists[i], s) >= 0
    ensures Gain(Joined(lists, n, m), s) >= 0
    ensures Gain(Joined(lists, n, m), s) > 0 <==> exists i :: n <= i < m && Gain(lists[i], s) > 0
    decreases m
  {
    if n < m {
      var before, last := Joined(lists, n, m - 1), lists[m - 1];
      GainJoined(lists, n, m - 1, s);
      GainJoin(before, last, s);
      assert Joined(lists, n, m) == before + last;
    }
  }

  /** A seat from n on pays s. */
  ghost predicate PaidFrom(f: Facts, n: nat, s: Seat) {
    exists t: Seat :: t >= n && Pays(f, t, s)
  }

  lemma LaterGain(f: Facts, n: nat, s: Seat)
    requires Ordered(f) && s < n <= 4
    ensures Gain(Joined(Parts(f), n, 4), s) >= 0
    ensures Gain(Joined(Parts(f), n, 4), s) > 0 <==> PaidFrom(f, n, s)
  {
    var lists := Parts(f);
    forall t: Seat | t >= n ensures Gain(lists[t], s) >= 0 && (Gain(lists[t], s) > 0 <==> Pays(f, t, s)) { SeatGain(f, t, s); }
    GainJoined(lists, n, SEATS, s);
    if PaidFrom(f, n, s) {
      var t: Seat :| t >= n && Pays(f, t, s);
      assert Gain(lists[t], s) > 0;
    }
    if i :| n <= i < 4 && Gain(lists[i], s) > 0 {
      var t: Seat := i;
      assert Pays(f, t, s);
    }
  }

  /** A seat whose turn comes later pays s. */
  ghost predicate PaidLater(f: Facts, s: Seat) { PaidFrom(f, s + 1, s) }

  function FinalBalance(b: Balances, ps: seq<Penalty>, s: Seat): int { PayAll(b, ps)[s] }

  /**
   * A seat's total is reported before the seats after it have paid: it is never above the final
   * balance, and equals it exactly when no later seat holds its missing suit, owes a winner for not
   * being ready, or gives back kongs to it.
   */
  lemma ReportedIsEarly(f: Facts, s: Seat)
    requires Ordered(f)
    ensures Reported(f, s) <= FinalBalance(Fold(f.events), PenaltiesBefore(f, 4), s)
    ensures Reported(f, s) == FinalBalance(Fold(f.events), PenaltiesBefore(f, 4), s) <==> !PaidLater(f, s)
  {
    var later := Joined(Parts(f), s + 1, SEATS);
    JoinedSplit(Parts(f), s + 1, SEATS);
    PayAllJoin(Fold(f.events), PenaltiesBefore(f, s + 1), later);
    GainIsDifference(PayAll(Fold(f.events), PenaltiesBefore(f, s + 1)), later, s);
    LaterGain(f, s + 1, s);
  }

  /** The reported totals never add up to more than nothing, and cancel out exactly when no seat is paid later. */
  lemma ReportedCancelIff(f: Facts)
    requires Ordered(f) && AllTransfers(f.events)
    ensures Reported(f, 0) + Reported(f, 1) + Reported(f, 2) + Reported(f, 3) <= 0
    ensures Reported(f, 0) + Reported(f, 1) + Reported(f, 2) + Reported(f, 3) == 0 <==> forall s: Seat :: !PaidLater(f, s)
  {
    SettlementIsZeroSum(f, 4);
    ReportedIsEarly(f, 0);
    ReportedIsEarly(f, 1);
    ReportedIsEarly(f, 2);
    ReportedIsEarly(f, 3);
    AllOrOne(f);
  }

  lemma AllOrOne(f: Facts)
    ensures (forall s: Seat :: !PaidLater(f, s)) <==>
              !PaidLater(f, 0) && !PaidLater(f, 1) && !PaidLater(f, 2) && !PaidLater(f, 3)
  {
    if !PaidLater(f, 0) && !PaidLater(f, 1) && !PaidLater(f, 2) && !PaidLater(f, 3) {
      forall s: Seat ensures !PaidLater(f, s) { assert s == 0 || s == 1 || s == 2 || s == 3; }
    }
  }

  // ---------- the room ----------

  /** The totals of a room after its hands: the events of every hand, without its penalties. */
  function RoomTotals(games: seq<seq<ScoreEvent>>): Balances {
    if games == [] then NO_BALANCE
    else
      var before, score := RoomTotals(games[..|games| - 1]), Fold(games[|games| - 1]);
      [before[0] + score[0], before[1] + score[1], before[2] + score[2], before[3] + score[3]]
  }

  /** Over any number of hands the totals of a room cancel out. */
  lemma {:induction false} RoomIsZeroSum(games: seq<seq<ScoreEvent>>)
    requires forall i :: 0 <= i < |games| ==> AllTransfers(games[i])
    ensures Sum(RoomTotals(games)) == 0
  {
    if games != [] {
      RoomIsZeroSum(games[..|games| - 1]);
      FoldIsZeroSum(games[|games| - 1]);
    }
  }

  class Room {
    var totalScores: Balances

    constructor ()
      ensures totalScores == NO_BALANCE
    {
      totalScores := NO_BALANCE;
    }

    method AddRoundScores(scores: Balances)
      modifies this
      ensures forall s: Seat :: totalScores[s] == old(totalScores[s]) + scores[s]
    {
      for s := 0 to 4
        invariant forall t: Seat :: totalScores[t] == old(totalScores[t]) + if t < s then scores[t] else 0
      {
        totalScores := totalScores[s := totalScores[s] + scores[s]];
      }
    }

    method CloseHand(ghost games: seq<seq<ScoreEvent>>, events: seq<ScoreEvent>)
      requires totalScores == RoomTotals(games)
      modifies this
      ensures totalScores == RoomTotals(games + [events])
    {
      var ledger := new Ledger(events);
      assert (games + [events])[..|games|] == games;
      AddRoundScores(ledger.balances);
    }
  }
}
