/**
 * The engine's one mutable record of a hand. Each operation updates its fields in place, with the
 * loops and early returns of the engine, and is proved to do what the functions of Rounds say.
 */
module RoundEngine {
  import opened Tiles
  import opened SichuanWin
  import opened SichuanScore
  import opened Rounds

  /** Which of the four kinds of answer the table waits for. */
  datatype Waiting = Waiting(opening: bool, claimWindow: bool, tsumo: bool, discard: bool)

  const NOT_WAITING := Waiting(false, false, false, false)

  /** All flags down, then the one that goes with the reason up. */
  method FlagOf(reason: Phase) returns (flags: Waiting)
    ensures flags == Waiting(reason == OpeningPhase, reason == ClaimPhase, reason == TsumoPhase, reason == DiscardPhase)
  {
    flags := NOT_WAITING;
    match reason {
      case Idle =>
      case OpeningPhase => flags := flags.(opening := true);
      case ClaimPhase => flags := flags.(claimWindow := true);
      case TsumoPhase => flags := flags.(tsumo := true);
      case DiscardPhase => flags := flags.(discard := true);
    }
  }

  class RoundState {
    var withExchange: bool
    var wall: seq<Tile>
    var hands: Piles
    var discards: Piles
    var flowers: Piles
    var melds: MeldTable
    var opening: Opening
    var surrendered: Flags
    var waiting: Waiting
    var phaseReason: Phase
    var pendingDraw: Tile
    var currentDraw: Tile
    var lastDiscard: Tile
    var lastDiscardSeat: SeatOrNone
    var claimCandidates: seq<Candidate>
    var qiangGangWindow: bool
    var pendingGangSeat: SeatOrNone
    var pendingGangTile: Tile
    var turn: Seat
    var step: nat
    var dealerSeat: Seat
    var openingDrawSeat: SeatOrNone
    var dealerFirstDiscardOpen: bool
    var winEvents: seq<WinEvent>
    var scoreEvents: seq<ScoreEvent>
    var gangRecords: seq<GangRecord>
    var lastGangFollowUp: bool
    var lastDiscardAfterGang: bool
    var closed: bool

    /** At most one waiting flag is up, and it is the one the reason names. */
    ghost predicate Valid()
      reads this
    {
      waiting == Waiting(phaseReason == OpeningPhase, phaseReason == ClaimPhase, phaseReason == TsumoPhase, phaseReason == DiscardPhase)
    }

    ghost function State(): Round
      reads this
    {
      Round(withExchange, wall, hands, discards, flowers, melds, opening, surrendered, phaseReason,
            pendingDraw, currentDraw, lastDiscard, lastDiscardSeat, claimCandidates, qiangGangWindow,
            pendingGangSeat, pendingGangTile, turn, step, dealerSeat, openingDrawSeat, dealerFirstDiscardOpen,
            winEvents, scoreEvents, gangRecords, lastGangFollowUp, lastDiscardAfterGang, closed)
    }

    // ---------- phases ----------

    /** The only place where the flags and the reason are written. */
    method EnterPhase(reason: Phase)
      modifies this
      ensures Valid() && State() == old(State()).(phase := reason)
    {
      var flags := FlagOf(reason);
      waiting, phaseReason := flags, reason;
    }

    // ---------- single changes ----------

    method SetDraws(pending: Tile, current: Tile)
      requires Valid()
      modifies this
      ensures Valid() && State() == old(State()).(pendingDraw := pending, currentDraw := current)
    {
      pendingDraw, currentDraw := pending, current;
    }

    method SetOffer(t: Tile, seat: SeatOrNone)
      requires Valid()
      modifies this
      ensures Valid() && State() == old(State()).(lastDiscard := t, lastDiscardSeat := seat)
    {
      lastDiscard, lastDiscardSeat := t, seat;
    }

    method SetWindow(cs: seq<Candidate>, robbing: bool)
      requires Valid()
      modifies this
      ensures Valid() && State() == old(State()).(candidates := cs, qiangGang := robbing)
    {
      claimCandidates, qiangGangWindow := cs, robbing;
    }

    method SetPendingGang(seat: SeatOrNone, t: Tile)
      requires Valid()
      modifies this
      ensures Valid() && State() == old(State()).(pendingGangSeat := seat, pendingGangTile := t)
    {
      pendingGangSeat, pendingGangTile := seat, t;
    }

    method SetTurn(seat: Seat)
      requires Valid()
      modifies this
      ensures Valid() && State() == old(State()).(turn := seat)
    {
      turn := seat;
    }

    method CountStep()
      requires Valid()
      modifies this
      ensures Valid() && State() == old(State()).(step := old(step) + 1)
    {
      step := step + 1;
    }

    method SetHands(h: Piles)
      requires Valid()
      modifies this
      ensures Valid() && State() == old(State()).(hands := h)
    {
      hands := h;
    }

    method SetOpening(op: Opening)
      requires Valid()
      modifies this
      ensures Valid() && State() == old(State()).(opening := op)
    {
      opening := op;
    }

    method CloseOpeningWindow()
      requires Valid()
      modifies this
      ensures Valid() && State() == CloseOpeningClaim(old(State()))
    {
      dealerFirstDiscardOpen := false;
    }

    method SetFollowUps(gang: bool, discard: bool)
      requires Valid()
      modifies this
      ensures Valid() && State() == old(State()).(lastGangFollowUp := gang, lastDiscardAfterGang := discard)
    {
      lastGangFollowUp, lastDiscardAfterGang := gang, discard;
    }

    method AddScores(events: seq<ScoreEvent>)
      requires Valid()
      modifies this
      ensures Valid() && State() == old(State()).(scores := old(scoreEvents) + events)
    {
      scoreEvents := scoreEvents + events;
    }

    method MarkClosed()
      requires Valid()
      modifies this
      ensures Valid() && State() == old(State()).(closed := true)
    {
      closed := true;
    }

    method CloseClaimWindow()
      requires Valid()
      modifies this
      ensures Valid() && State() == ClearClaimWindow(old(State()))
    {
      SetWindow([], false);
      SetPendingGang(NO_SEAT, NO_TILE);
      EnterPhase(Idle);
    }

    method Finish()
      requires Valid()
      modifies this
      ensures Valid() && State() == FinishRound(old(State()))
    {
      MarkClosed();
      SetDraws(NO_TILE, NO_TILE);
      SetOffer(NO_TILE, NO_SEAT);
      CloseClaimWindow();
    }

    // ---------- seats ----------

    method IsHued(seat: int) returns (b: bool)
      ensures b == HasWon(State(), seat)
    {
      for i := 0 to |winEvents|
        invariant forall k :: 0 <= k < i ==> winEvents[k].seat != seat
      {
        if winEvents[i].seat == seat { return true; }
      }
      return false;
    }

    method IsActive(seat: Seat) returns (b: bool)
      ensures b == Active(State(), seat)
    {
      var hued := IsHued(seat);
      b := !hued && !surrendered[seat];
    }

    method ListActiveSeats() returns (out: seq<Seat>)
      ensures out == ActiveSeats(State())
    {
      out := [];
      for seat := 0 to 4
        invariant out == (if seat > 0 && Active(State(), 0) then [0] else [])
                       + (if seat > 1 && Active(State(), 1) then [1] else [])
                       + (if seat > 2 && Active(State(), 2) then [2] else [])
                       + (if seat > 3 && Active(State(), 3) then [3] else [])
      {
        var active := IsActive(seat);
        if active { out := out + [seat]; }
      }
    }

    method NextActiveSeat(from: Seat) returns (next: Seat)
      ensures next == NextActive(State(), from)
    {
      for offset := 1 to 5
        invariant offset > 1 ==> !Active(State(), (from + 1) % 4)
        invariant offset > 2 ==> !Active(State(), (from + 2) % 4)
        invariant offset > 3 ==> !Active(State(), (from + 3) % 4)
      {
        var active := IsActive((from + offset) % 4);
        if active { return (from + offset) % 4; }
      }
      return from;
    }

    method Surrender(seat: Seat)
      requires Valid()
      modifies this
      ensures Valid() && State() == MarkSurrendered(old(State()), seat)
    {
      surrendered := surrendered[seat := true];
    }

    // ---------- hands and piles ----------

    method AddToHand(seat: Seat, t: Tile)
      requires Valid()
      modifies this
      ensures Valid() && State() == old(State()).(hands := GiveTile(old(hands), seat, t))
    {
      hands := hands[seat := hands[seat] + [t]];
    }

    /** Takes the tiles one by one and stops at the first that is missing. */
    method TakeFromHand(seat: Seat, ts: seq<Tile>) returns (ok: bool)
      requires Valid()
      modifies this
      ensures Valid() && ok == RemoveEach(old(hands[seat]), ts).1
      ensures State() == old(State()).(hands := old(hands)[seat := RemoveEach(old(hands[seat]), ts).0])
    {
      for i := 0 to |ts|
        invariant Valid() && State() == old(State()).(hands := hands)
        invariant hands == old(hands)[seat := hands[seat]]
        invariant RemoveEach(hands[seat], ts[i..]) == RemoveEach(old(hands[seat]), ts)
      {
        assert ts[i..][0] == ts[i] && ts[i..][1..] == ts[i + 1..];
        if ts[i] !in hands[seat] { return false; }
        hands := hands[seat := RemoveOne(hands[seat], ts[i])];
      }
      return true;
    }

    method TakeOffPile(seat: SeatOrNone, t: Tile)
      requires Valid()
      modifies this
      ensures Valid() && State() == RemoveLastDiscard(old(State()), seat, t)
    {
      if seat < 0 { return; }
      var pile := discards[seat];
      if pile == [] || pile[|pile| - 1] != t { return; }
      discards := discards[seat := pile[..|pile| - 1]];
    }

    method AddMeld(seat: Seat, m: Meld)
      requires Valid()
      modifies this
      ensures Valid() && State() == RecordMeld(old(State()), seat, m)
    {
      melds := melds[seat := melds[seat] + [m]];
    }

    method CountCopies(h: seq<Tile>, t: Tile) returns (count: nat)
      ensures count == Num(h, t)
    {
      count := 0;
      for i := 0 to |h|
        invariant count == Num(h[..i], t)
      {
        assert h[..i + 1] == h[..i] + [h[i]];
        NumAppend(h[..i], h[i], t);
        if h[i] == t { count := count + 1; }
      }
      assert h[..|h|] == h;
    }

    method SetMeld(seat: Seat, i: nat, m: Meld)
      requires Valid() && i < |melds[seat]|
      modifies this
      ensures Valid() && State() == old(State()).(melds := old(melds)[seat := old(melds[seat])[i := m]])
    {
      melds := melds[seat := melds[seat][i := m]];
    }

    // ---------- drawing ----------

    method DrawNextPlayable(seat: Seat) returns (drawn: Option<Tile>)
      requires Valid()
      modifies this
      ensures Valid() && (State(), drawn) == DrawPlayable(old(State()), seat)
    {
      while true
        invariant Valid() && DrawPlayable(State(), seat) == DrawPlayable(old(State()), seat)
        decreases |wall|
      {
        if wall == [] { return None; }
        var t := wall[0];
        wall := wall[1..];
        if !IsFlower(t) { return Some(t); }
        flowers := flowers[seat := flowers[seat] + [t]];
      }
    }

    function MissingOf(seat: Seat): int
      reads this
    {
      if opening.missingDone[seat] then opening.missingSuits[seat] else -1
    }

    predicate IsMissing(seat: Seat, t: Tile)
      reads this
    {
      t != NO_TILE && 0 <= MissingOf(seat) <= 2 && Suit(t) == MissingOf(seat)
    }

    method CheckSeat(seat: int, t: Tile) returns (ok: bool)
      ensures ok <==> CheckSeatHu(State(), seat, t)
    {
      if t == NO_TILE || seat < 0 || seat > 3 { return false; }
      var active := IsActive(seat);
      if !active { return false; }
      ok := DecideHu(hands[seat], t, MissingOf(seat), melds[seat]);
    }

    method DrawForTurn() returns (ok: bool)
      requires Valid()
      modifies this
      ensures Valid() && Outcome(State(), ok) == DrawForCurrentTurn(old(State()))
    {
      if |winEvents| >= 3 || wall == [] {
        Finish();
        return true;
      }
      var drawn := DrawNextPlayable(turn);
      if drawn.None? { return false; }
      var hu := CheckSeat(turn, drawn.value);
      if hu {
        SetDraws(drawn.value, drawn.value);
        EnterPhase(TsumoPhase);
      } else {
        SetDraws(pendingDraw, drawn.value);
        AddToHand(turn, drawn.value);
        EnterPhase(DiscardPhase);
      }
      return true;
    }

    // ---------- candidates ----------

    /** The copies of the tile on offer that the seat may meld it with: none when it may only win. */
    method CopiesToMeld(seat: Seat) returns (count: nat)
      ensures count == if qiangGangWindow || IsMissing(seat, lastDiscard) then 0 else Num(hands[seat], lastDiscard)
    {
      if qiangGangWindow || IsMissing(seat, lastDiscard) { return 0; }
      count := CountCopies(hands[seat], lastDiscard);
    }

    /** What the Sichuan policy offers the seat so many places after the discarder. */
    method OfferTo(offset: nat) returns (offer: seq<Candidate>)
      requires lastDiscard != NO_TILE && lastDiscardSeat >= 0 && 1 <= offset <= 3
      ensures offer == Offer(State(), offset)
    {
      var seat: Seat := (lastDiscardSeat + offset) % 4;
      if surrendered[seat] { return []; }
      var hued := IsHued(seat);
      if hued { return []; }
      var hu := DecideHu(hands[seat], lastDiscard, MissingOf(seat), melds[seat]);
      var copies := CopiesToMeld(seat);
      var gang, pong := copies >= 3, copies >= 2;
      if !hu && !gang && !pong { return []; }
      return [Candidate(seat, hu, gang, pong, false, Priority(hu, gang, pong))];
    }

    method BuildClaimCandidates() returns (out: seq<Candidate>)
      ensures out == BuildCandidates(State())
    {
      ghost var rs := State();
      out := [];
      if lastDiscard == NO_TILE || lastDiscardSeat < 0 {
        NothingOnOffer(rs, 1);
        return;
      }
      for offset := 1 to 4
        invariant Collected(rs, out, offset)
      {
        var offer := OfferTo(offset);
        CollectNext(rs, out, offer, offset);
        out := out + offer;
      }
      AllCollected(rs, out);
    }

    method BestCandidate() returns (best: Option<Candidate>)
      ensures best == if phaseReason == ClaimPhase && claimCandidates != [] then Some(Best(claimCandidates)) else None
      requires Valid()
    {
      if !waiting.claimWindow || claimCandidates == [] { return None; }
      var current := claimCandidates[0];
      for i := 1 to |claimCandidates|
        invariant current == Best(claimCandidates[..i]) && current.priority == TopPriority(claimCandidates[..i])
      {
        assert claimCandidates[..i + 1] == claimCandidates[..i] + [claimCandidates[i]];
        BestOfMore(claimCandidates[..i], claimCandidates[i]);
        if claimCandidates[i].priority > current.priority { current := claimCandidates[i]; }
      }
      assert claimCandidates[..|claimCandidates|] == claimCandidates;
      return Some(current);
    }

    method IsTopSeat(seat: int) returns (b: bool)
      requires Valid()
      ensures b == IsTop(State(), seat)
    {
      var best := BestCandidate();
      if best.None? { return false; }
      TopIsBest(claimCandidates);
      for i := 0 to |claimCandidates|
        invariant forall k :: 0 <= k < i ==> !(claimCandidates[k].seat == seat && claimCandidates[k].priority == best.value.priority)
      {
        if claimCandidates[i].seat == seat && claimCandidates[i].priority == best.value.priority { return true; }
      }
      return false;
    }

    method DropCandidate(seat: int)
      requires Valid()
      modifies this
      ensures Valid() && State() == old(State()).(candidates := RemoveCandidate(old(claimCandidates), seat))
    {
      var out := [];
      for i := 0 to |claimCandidates|
        invariant Valid() && State() == old(State())
        invariant out + RemoveCandidate(claimCandidates[i..], seat) == RemoveCandidate(claimCandidates, seat)
      {
        if claimCandidates[i].seat != seat { out := out + [claimCandidates[i]]; }
      }
      claimCandidates := out;
    }

    method FindCandidate(seat: int) returns (c: Option<Candidate>)
      ensures c == CandidateOf(claimCandidates, seat)
    {
      for i := 0 to |claimCandidates|
        invariant CandidateOf(claimCandidates[i..], seat) == CandidateOf(claimCandidates, seat)
      {
        if claimCandidates[i].seat == seat { return Some(claimCandidates[i]); }
      }
      return None;
    }

    /** The seat's candidate, when it may claim at all: it has not won and is among the top ones. */
    method ClaimOf(seat: int) returns (c: Option<Candidate>)
      requires Valid()
      ensures c == if MayClaim(State(), seat) then CandidateOf(claimCandidates, seat) else None
    {
      if seat < 0 || seat > 3 { return None; }
      var hued := IsHued(seat);
      if hued { return None; }
      var top := IsTopSeat(seat);
      if !top { return None; }
      c := FindCandidate(seat);
    }

    method PutBack(t: Tile)
      requires Valid()
      modifies this
      ensures Valid() && State() == old(State()).(wall := [t] + old(wall))
    {
      wall := [t] + wall;
    }

    method ReturnDraw(drawn: Tile)
      requires Valid()
      modifies this
      ensures Valid()
      ensures State() == old(State()).(pendingDraw := NO_TILE, currentDraw := NO_TILE, wall := [drawn] + old(wall))
    {
      SetDraws(NO_TILE, NO_TILE);
      PutBack(drawn);
    }

    method TakeDrawBack(drawn: Tile)
      requires Valid()
      modifies this
      ensures Valid()
      ensures State() == old(State()).(hands := old(hands)[old(turn) := RemoveOne(old(hands)[old(turn)], drawn)],
                                       pendingDraw := NO_TILE, currentDraw := NO_TILE, wall := [drawn] + old(wall))
    {
      SetHands(hands[turn := RemoveOne(hands[turn], drawn)]);
      ReturnDraw(drawn);
    }

    method RewindTurn() returns (ok: bool)
      requires Valid()
      modifies this
      ensures Valid() && Outcome(State(), ok) == RewindInterruptedTurn(old(State()))
    {
      if currentDraw == NO_TILE { return true; }
      var drawn := currentDraw;
      if pendingDraw != NO_TILE {
        ReturnDraw(drawn);
        return true;
      }
      if drawn !in hands[turn] { return false; }
      TakeDrawBack(drawn);
      return true;
    }

    method BeginClaiming() returns (ok: bool)
      requires Valid()
      modifies this
      ensures Valid() && Outcome(State(), ok) == BeginClaim(old(State()))
    {
      CloseClaimWindow();
      CloseOpeningWindow();
      ok := RewindTurn();
    }

    method LetClaimerDiscard(seat: Seat)
      requires Valid()
      modifies this
      ensures Valid() && State() == ClaimerDiscards(old(State()), seat)
    {
      SetTurn(seat);
      SetDraws(NO_TILE, NO_TILE);
      SetOffer(NO_TILE, NO_SEAT);
      EnterPhase(DiscardPhase);
    }

    method ApplyPong(seat: int) returns (ok: bool)
      requires Valid()
      modifies this
      ensures Valid() && Outcome(State(), ok) == Rounds.ApplyPong(old(State()), seat)
    {
      var claim := ClaimOf(seat);
      if claim.None? || !claim.value.pong { return false; }
      var t, source := lastDiscard, lastDiscardSeat;
      var begun := BeginClaiming();
      if !begun { return false; }
      var taken := TakeFromHand(seat, [t, t]);
      if !taken { return false; }
      TakeOffPile(source, t);
      AddMeld(seat, Meld(SichuanWin.Pong, [t, t, t], source));
      LetClaimerDiscard(seat);
      return true;
    }

    /** Looks through the three sequences that contain the claimed tile, from the lowest. */
    method FindChi(seat: Seat, claimed: Tile, named: seq<Tile>) returns (tiles: Option<seq<Tile>>)
      ensures tiles == ResolveChi(hands[seat], claimed, named)
    {
      if claimed == NO_TILE { return None; }
      if named != [] {
        if IsChiSequence(named) && HoldsChiRemainder(hands[seat], claimed, named) { return Some(named); }
        return None;
      }
      var low := Rank(claimed) - 2;
      for start := low to low + 3
        invariant forall k :: low <= k < start ==> ChiAt(hands[seat], claimed, k).None?
      {
        var found := ChiAt(hands[seat], claimed, start);
        if found.Some? {
          assert start == low || start == low + 1 || start == low + 2;
          return found;
        }
      }
      return None;
    }

    method ApplyChi(seat: int, named: seq<Tile>) returns (ok: bool)
      requires Valid()
      modifies this
      ensures Valid() && Outcome(State(), ok) == Rounds.ApplyChi(old(State()), seat, named)
    {
      var claim := ClaimOf(seat);
      if claim.None? || !claim.value.chi { return false; }
      var t, source := lastDiscard, lastDiscardSeat;
      var tiles := FindChi(seat, t, named);
      if tiles.None? { return false; }
      var begun := BeginClaiming();
      if !begun { return false; }
      var taken := TakeFromHand(seat, ChiRemainder(tiles.value, t));
      if !taken { return false; }
      TakeOffPile(source, t);
      AddMeld(seat, Meld(SichuanWin.Chi, tiles.value, source));
      LetClaimerDiscard(seat);
      return true;
    }

    // ---------- kongs ----------

    method AddGangRecord(g: GangRecord)
      requires Valid()
      modifies this
      ensures Valid() && State() == old(State()).(gangs := old(gangRecords) + [g], lastGangFollowUp := true)
    {
      gangRecords, lastGangFollowUp := gangRecords + [g], true;
    }

    /** Every other seat still in play pays. */
    method KongPayments(payers: seq<Seat>, seat: Seat, reason: Reason, amount: int, now: nat) returns (events: seq<ScoreEvent>)
      ensures events == GangPayments(payers, seat, reason, amount, now)
    {
      events := [];
      for i := 0 to |payers|
        invariant events + GangPayments(payers[i..], seat, reason, amount, now) == GangPayments(payers, seat, reason, amount, now)
      {
        if payers[i] != seat { events := events + [ScoreEvent(reason, payers[i], seat, amount, now, NO_SEAT)]; }
      }
    }

    method ScoreKong(seat: Seat, t: Tile, reason: Reason, source: SeatOrNone)
      requires Valid()
      modifies this
      ensures Valid() && State() == ScoreGang(old(State()), seat, t, reason, source)
    {
      var payers := ListActiveSeats();
      var events := KongPayments(payers, seat, reason, if reason == GangAn then 2 else 1, step);
      AddScores(events);
      AddGangRecord(GangRecord(seat, reason, t, source, step));
    }

    /** The first pong of the tile among the seat's melds, or their number. */
    method FindPong(seat: Seat, t: Tile) returns (i: nat)
      ensures i == FirstPong(melds[seat], t) <= |melds[seat]|
    {
      var ms := melds[seat];
      i := 0;
      while i < |ms|
        invariant i <= |ms| && i + FirstPong(ms[i..], t) == FirstPong(ms, t)
      {
        if ms[i].kind == SichuanWin.Pong && |ms[i].tiles| > 0 && ms[i].tiles[0] == t { return; }
        i := i + 1;
      }
    }

    method HoldsFullPong(seat: Seat, t: Tile) returns (b: bool)
      ensures b == HasFullPong(melds[seat], t)
    {
      var ms := melds[seat];
      for i := 0 to |ms|
        invariant forall k :: 0 <= k < i ==> !(ms[k].kind == SichuanWin.Pong && |ms[k].tiles| >= 3
                                               && ms[k].tiles[0] == t && ms[k].tiles[1] == t && ms[k].tiles[2] == t)
      {
        if ms[i].kind == SichuanWin.Pong && |ms[i].tiles| >= 3 && ms[i].tiles[0] == t && ms[i].tiles[1] == t && ms[i].tiles[2] == t {
          return true;
        }
      }
      return false;
    }

    method MayDeclareKong(seat: int) returns (b: bool)
      requires Valid()
      ensures b == MaySelfGang(State(), seat)
    {
      if seat < 0 || seat > 3 || seat != turn || !waiting.discard { return false; }
      var hued := IsHued(seat);
      return !hued;
    }

    method MayDeclareAnGang(seat: int, t: Tile) returns (b: bool)
      requires Valid()
      ensures b == CanAnGang(State(), seat, t)
    {
      var may := MayDeclareKong(seat);
      if !may || t == NO_TILE || IsMissing(seat, t) { return false; }
      var count := CountCopies(hands[seat], t);
      return count >= 4;
    }

    method MayDeclareBuGang(seat: int, t: Tile) returns (b: bool)
      requires Valid()
      ensures b == CanBuGang(State(), seat, t)
    {
      var may := MayDeclareKong(seat);
      if !may || t == NO_TILE { return false; }
      var i := FindPong(seat, t);
      if i == |melds[seat]| || IsMissing(seat, t) || t !in hands[seat] { return false; }
      b := HoldsFullPong(seat, t);
    }

    method ScoreAddedKong(seat: Seat, t: Tile)
      requires Valid()
      modifies this
      ensures Valid()
      ensures State() == ScoreGang(old(State()), seat, t, GangBu, NO_SEAT).(pendingGangSeat := NO_SEAT, pendingGangTile := NO_TILE)
    {
      ScoreKong(seat, t, GangBu, NO_SEAT);
      SetPendingGang(NO_SEAT, NO_TILE);
    }

    method CompleteKong(seat: Seat, t: Tile) returns (ok: bool)
      requires Valid()
      modifies this
      ensures Valid() && Outcome(State(), ok) == CompleteBuGang(old(State()), seat, t)
    {
      if t !in hands[seat] { return false; }
      SetHands(hands[seat := RemoveOne(hands[seat], t)]);
      var i := FindPong(seat, t);
      if i == |melds[seat]| { return false; }
      SetMeld(seat, i, Meld(SichuanWin.BuGang, [t, t, t, t], melds[seat][i].source));
      ScoreAddedKong(seat, t);
      return true;
    }

    method FinishKong(seat: Seat) returns (ok: bool)
      requires Valid()
      modifies this
      ensures Valid() && Outcome(State(), ok) == FinishGang(old(State()), seat)
    {
      SetTurn(seat);
      SetDraws(NO_TILE, NO_TILE);
      SetOffer(NO_TILE, NO_SEAT);
      SetWindow(claimCandidates, false);
      SetPendingGang(NO_SEAT, NO_TILE);
      EnterPhase(Idle);
      ok := DrawForTurn();
    }

    method ClaimKong(seat: Seat) returns (ok: bool)
      requires Valid()
      modifies this
      ensures Valid() && Outcome(State(), ok) == ClaimGang(old(State()), seat)
    {
      var t, source := lastDiscard, lastDiscardSeat;
      var begun := BeginClaiming();
      if !begun { return false; }
      var taken := TakeFromHand(seat, [t, t, t]);
      if !taken { return false; }
      TakeOffPile(source, t);
      AddMeld(seat, Meld(ZhiGang, [t, t, t, t], source));
      SetOffer(NO_TILE, NO_SEAT);
      ScoreKong(seat, t, GangMing, source);
      ok := FinishKong(seat);
    }

    method OfferAddedKong(seat: Seat, t: Tile)
      requires Valid()
      modifies this
      ensures Valid() && State() == OfferBuGang(old(State()), seat, t)
    {
      SetOffer(t, seat);
      SetPendingGang(seat, t);
      SetWindow(claimCandidates, true);
      var offers := BuildClaimCandidates();
      SetWindow(offers, true);
    }

    method AddKong(seat: Seat, t: Tile) returns (ok: bool)
      requires Valid()
      modifies this
      ensures Valid() && Outcome(State(), ok) == BuGangBy(old(State()), seat, t)
    {
      OfferAddedKong(seat, t);
      if claimCandidates != [] {
        EnterPhase(ClaimPhase);
        return true;
      }
      CloseClaimWindow();
      var done := CompleteKong(seat, t);
      if !done { return false; }
      ok := FinishKong(seat);
    }

    method ConcealedKong(seat: Seat, t: Tile) returns (ok: bool)
      requires Valid()
      modifies this
      ensures Valid() && Outcome(State(), ok) == AnGangBy(old(State()), seat, t)
    {
      CloseClaimWindow();
      var taken := TakeFromHand(seat, [t, t, t, t]);
      if !taken { return false; }
      AddMeld(seat, Meld(AnGang, [t, t, t, t], NO_SEAT));
      ScoreKong(seat, t, GangAn, NO_SEAT);
      ok := FinishKong(seat);
    }

    /** A claimed kong comes first, then an added one, then a concealed one. */
    method ApplyGang(seat: int, t: Tile) returns (ok: bool)
      requires Valid()
      modifies this
      ensures Valid() && Outcome(State(), ok) == Rounds.ApplyGang(old(State()), seat, t)
    {
      var claim := ClaimOf(seat);
      var bu := MayDeclareBuGang(seat, t);
      var an := MayDeclareAnGang(seat, t);
      if claim.Some? && claim.value.gang {
        ok := ClaimKong(seat);
      } else if bu {
        ok := AddKong(seat, t);
      } else if an {
        ok := ConcealedKong(seat, t);
      } else {
        return false;
      }
    }

    // ---------- discarding ----------

    method ExposeTile(seat: Seat, t: Tile)
      requires Valid()
      modifies this
      ensures Valid()
      ensures State() == OpenClaimWindow(old(State()).(lastDiscard := t, lastDiscardSeat := seat, turn := NextActive(old(State()), seat)))
    {
      var next := NextActiveSeat(seat);
      SetOffer(t, seat);
      SetTurn(next);
      var offers := BuildClaimCandidates();
      SetWindow(offers, qiangGangWindow);
      EnterPhase(ClaimPhase);
    }

    method SettleDiscard(seat: Seat, t: Tile) returns (ok: bool)
      requires Valid()
      modifies this
      ensures Valid() && Outcome(State(), ok) == AfterDiscard(old(State()), seat, t)
    {
      if |winEvents| >= 3 || wall == [] {
        Finish();
        return true;
      }
      ExposeTile(seat, t);
      if claimCandidates != [] { return true; }
      CloseClaimWindow();
      CloseOpeningWindow();
      ok := DrawForTurn();
    }

    method MoveToPile(seat: Seat, t: Tile)
      requires Valid()
      modifies this
      ensures Valid()
      ensures State() == old(State()).(hands := old(hands)[seat := RemoveOne(old(hands[seat]), t)],
                                       discards := GiveTile(old(discards), seat, t))
    {
      hands := hands[seat := RemoveOne(hands[seat], t)];
      discards := discards[seat := discards[seat] + [t]];
    }

    /** The dealer's first discard opens the window for an early win. */
    method NoteFirstDiscard(seat: Seat)
      requires Valid()
      modifies this
      ensures var first := seat == old(dealerSeat) && old(openingDrawSeat) == seat;
              Valid() && State() == old(State()).(dealerFirstDiscardOpen := first || old(dealerFirstDiscardOpen),
                                                  openingDrawSeat := if first then NO_SEAT else old(openingDrawSeat))
    {
      if seat == dealerSeat && openingDrawSeat == seat {
        dealerFirstDiscardOpen := true;
        openingDrawSeat := NO_SEAT;
      }
    }

    method LayTile(seat: Seat, t: Tile)
      requires Valid()
      modifies this
      ensures Valid() && State() == LayDiscard(old(State()), seat, t)
    {
      MoveToPile(seat, t);
      SetDraws(pendingDraw, NO_TILE);
      NoteFirstDiscard(seat);
      SetFollowUps(false, lastGangFollowUp);
      CountStep();
    }

    method KeepPendingDraw(seat: Seat)
      requires Valid()
      modifies this
      ensures Valid() && State() == TakePendingDraw(old(State()), seat)
    {
      AddToHand(seat, pendingDraw);
      SetDraws(NO_TILE, currentDraw);
      EnterPhase(DiscardPhase);
    }

    method ApplyDiscard(seat: int, t: Tile) returns (ok: bool)
      requires Valid()
      modifies this
      ensures Valid() && Outcome(State(), ok) == Rounds.ApplyDiscard(old(State()), seat, t)
    {
      if closed || seat != turn || t == NO_TILE { return false; }
      if waiting.tsumo { KeepPendingDraw(seat); }
      if !waiting.discard || t !in hands[seat] { return false; }
      LayTile(seat, t);
      ok := SettleDiscard(seat, t);
    }

    // ---------- winning ----------

    method DrawnWinPayments(payers: seq<Seat>, seat: Seat, fan: nat, now: nat) returns (events: seq<ScoreEvent>)
      ensures events == WinPayments(payers, seat, fan, now)
    {
      events := [];
      for i := 0 to |payers|
        invariant events + WinPayments(payers[i..], seat, fan, now) == WinPayments(payers, seat, fan, now)
      {
        if payers[i] != seat { events := events + [ScoreEvent(HuTsumo, payers[i], seat, fan, now, seat)]; }
      }
    }

    method ScoreHu(seat: Seat, fan: nat, source: HuSource, payer: SeatOrNone) returns (events: seq<ScoreEvent>)
      ensures events == ScoreWin(State(), seat, fan, source, payer)
    {
      events := [];
      if source == SelfDraw {
        var payers := ListActiveSeats();
        events := DrawnWinPayments(payers, seat, fan, step);
      } else if 0 <= payer && payer != seat {
        events := [ScoreEvent(if lastDiscardAfterGang then HuQiangGang else HuDiscard, payer, seat, fan, step, seat)];
      }
    }

    method AddWin(e: WinEvent)
      requires Valid()
      modifies this
      ensures Valid() && State() == old(State()).(wins := old(winEvents) + [e])
    {
      winEvents := winEvents + [e];
    }

    method ForgetOpeningDraw()
      requires Valid()
      modifies this
      ensures Valid() && State() == old(State()).(openingDrawSeat := NO_SEAT)
    {
      openingDrawSeat := NO_SEAT;
    }

    /** A robbed konger loses the tile, if it still has it. */
    method TakeRobbedTile(source: HuSource)
      requires Valid()
      modifies this
      ensures Valid()
      ensures State() == old(State()).(hands := if source == RobbedKong then RobbedHands(old(State())) else old(hands))
    {
      if source == RobbedKong && pendingGangSeat >= 0 && pendingGangTile != NO_TILE {
        SetHands(hands[pendingGangSeat := RemoveOne(hands[pendingGangSeat], pendingGangTile)]);
      }
    }

    method CloseOpeningHu(source: HuSource)
      requires Valid()
      modifies this
      ensures Valid()
      ensures State() == old(State()).(openingDrawSeat := if source == SelfDraw then NO_SEAT else old(openingDrawSeat),
                                       dealerFirstDiscardOpen := source == SelfDraw && old(dealerFirstDiscardOpen))
    {
      if source == SelfDraw { ForgetOpeningDraw(); } else { CloseOpeningWindow(); }
    }

    method RecordWin(seat: Seat, fan: nat, byClaim: bool)
      requires Valid() && byClaim == ByClaim(State(), seat)
      modifies this
      ensures Valid() && State() == RecordHu(old(State()), seat, fan)
    {
      var source := if !byClaim then SelfDraw else if qiangGangWindow then RobbedKong else OnDiscard;
      var t := if byClaim then lastDiscard else pendingDraw;
      var payer := if byClaim then lastDiscardSeat else NO_SEAT;
      var events := ScoreHu(seat, fan, source, payer);
      AddScores(events);
      TakeRobbedTile(source);
      AddWin(WinEvent(seat, source, t, payer, step, fan));
      SetDraws(NO_TILE, NO_TILE);
      SetFollowUps(false, false);
      CloseOpeningHu(source);
      if byClaim { DropCandidate(seat); } else { CloseClaimWindow(); }
    }

    method HuLeft(priority: nat) returns (b: bool)
      ensures b == HuLeftAt(claimCandidates, priority)
    {
      if priority == 0 { return false; }
      for i := 0 to |claimCandidates|
        invariant forall k :: 0 <= k < i ==> !(claimCandidates[k].priority == priority && claimCandidates[k].hu)
      {
        if claimCandidates[i].priority == priority && claimCandidates[i].hu { return true; }
      }
      return false;
    }

    method MayWin(seat: int, fan: nat) returns (ok: bool, byClaim: bool)
      requires Valid()
      ensures ok == (CanHu(State(), seat) && fan > 0)
      ensures ok ==> byClaim == ByClaim(State(), seat) && 0 <= seat < 4
    {
      byClaim := false;
      if closed { return false, false; }
      var hued := IsHued(seat);
      if hued { return false, false; }
      var claim := FindCandidate(seat);
      byClaim := waiting.claimWindow && claim.Some? && claim.value.hu;
      if byClaim {
        var top := IsTopSeat(seat);
        if !top { return false, byClaim; }
      } else if seat != turn || !waiting.tsumo {
        return false, byClaim;
      }
      var hu := CheckSeat(seat, if byClaim then lastDiscard else pendingDraw);
      return hu && fan > 0, byClaim;
    }

    method CountKongs(seat: Seat, concealed: bool) returns (n: nat)
      ensures n == if concealed then ConcealedKongsOf(gangRecords, seat) else KongsOf(gangRecords, seat)
    {
      n := 0;
      for i := 0 to |gangRecords|
        invariant n == if concealed then ConcealedKongsOf(gangRecords[..i], seat) else KongsOf(gangRecords[..i], seat)
      {
        assert gangRecords[..i + 1][..i] == gangRecords[..i];
        if gangRecords[i].seat == seat && (!concealed || gangRecords[i].reason == GangAn) { n := n + 1; }
      }
      assert gangRecords[..|gangRecords|] == gangRecords;
    }

    method FindRobbedKong() returns (b: bool)
      ensures b == RobbedKongOnRecord(gangRecords)
    {
      for i := 0 to |gangRecords|
        invariant forall k :: 0 <= k < i ==> !(gangRecords[k].reason == GangBu && gangRecords[k].source >= 0)
      {
        if gangRecords[i].reason == GangBu && gangRecords[i].source >= 0 { return true; }
      }
      return false;
    }

    /** Looks up what the rule pays for a win of the seat. */
    method ComputeFan(seat: int) returns (fan: nat)
      requires Valid()
      ensures fan == WinFan(State(), seat)
    {
      if seat < 0 || seat > 3 { return 1; }
      var claim := FindCandidate(seat);
      var byClaim := waiting.claimWindow && claim.Some? && claim.value.hu;
      var c := BuildWinTable(hands[seat], if byClaim then lastDiscard else pendingDraw, melds[seat]);
      var kongs := CountKongs(seat, false);
      var concealed := CountKongs(seat, true);
      var robbed := FindRobbedKong();
      fan := ScoreFans(c, Scene(seat == dealerSeat, !byClaim, !byClaim && seat == openingDrawSeat,
                                byClaim && dealerFirstDiscardOpen, kongs, concealed, robbed,
                                !byClaim && lastGangFollowUp, byClaim && lastDiscardAfterGang, wall == []));
    }

    method ApplyHu(seat: int) returns (ok: bool)
      requires Valid()
      modifies this
      ensures Valid() && Outcome(State(), ok) == Rounds.ApplyHu(old(State()), seat, WinFan(old(State()), seat))
    {
      var fan := ComputeFan(seat);
      ok := TakeWin(seat, fan);
    }

    /** After a win: the hand ends, another claimer may still win, or the next seat draws. */
    method GoOnAfterWin(byClaim: bool, accepted: nat, next: Seat) returns (ok: bool)
      requires Valid()
      modifies this
      ensures Valid()
      ensures Outcome(State(), ok) ==
        var r1 := old(State());
        if ShouldFinish(r1) then Outcome(FinishRound(r1), true)
        else if byClaim && HuLeftAt(r1.candidates, accepted) then Outcome(r1.(phase := ClaimPhase), true)
        else
          var r2 := ClearClaimWindow(r1);
          DrawForCurrentTurn(r2.(turn := NextActive(r2, next)))
    {
      if |winEvents| >= 3 || wall == [] {
        Finish();
        return true;
      }
      if byClaim {
        var left := HuLeft(accepted);
        if left {
          EnterPhase(ClaimPhase);
          return true;
        }
      }
      CloseClaimWindow();
      var following := NextActiveSeat(next);
      SetTurn(following);
      ok := DrawForTurn();
    }

    /** A win that is worth `fan`. */
    method TakeWin(seat: int, fan: nat) returns (ok: bool)
      requires Valid()
      modifies this
      ensures Valid() && Outcome(State(), ok) == Rounds.ApplyHu(old(State()), seat, fan)
    {
      var may, byClaim := MayWin(seat, fan);
      if !may { return false; }
      var claim := FindCandidate(seat);
      var accepted := if byClaim then claim.value.priority else 0;
      var next: Seat := if byClaim && lastDiscardSeat >= 0 then lastDiscardSeat else seat;
      RecordWin(seat, fan, byClaim);
      ok := GoOnAfterWin(byClaim, accepted, next);
    }

    // ---------- passing ----------

    method NobodyClaims() returns (ok: bool)
      requires Valid()
      modifies this
      ensures Valid() && Outcome(State(), ok) == AllPassed(old(State()))
    {
      if qiangGangWindow && pendingGangSeat >= 0 && pendingGangTile != NO_TILE {
        var seat: Seat := pendingGangSeat;
        var t := pendingGangTile;
        CloseClaimWindow();
        var done := CompleteKong(seat, t);
        if !done { return false; }
        SetTurn(seat);
        ok := FinishKong(seat);
      } else {
        CloseClaimWindow();
        CloseOpeningWindow();
        ok := DrawForTurn();
      }
    }

    method ApplyPass(seat: int) returns (ok: bool)
      requires Valid()
      modifies this
      ensures Valid() && Outcome(State(), ok) == Rounds.ApplyPass(old(State()), seat)
    {
      if seat < 0 || seat > 3 { return false; }
      if waiting.claimWindow {
        var top := IsTopSeat(seat);
        if !top { return false; }
        DropCandidate(seat);
        var best := BestCandidate();
        if best.Some? { return true; }
        ok := NobodyClaims();
      } else if seat == turn && waiting.tsumo {
        if pendingDraw == NO_TILE { return false; }
        KeepPendingDraw(seat);
        CountStep();
        return true;
      } else {
        return false;
      }
    }

    // ---------- opening ----------

    method OpeningStepNow() returns (s: OpeningStep)
      ensures s == CurrentStep(State())
    {
      if withExchange && !AllDone(opening.exchangeDone) { return ExchangeStep; }
      if !AllDone(opening.missingDone) { return MissingStep; }
      return OpeningOver;
    }

    /** Every seat gives its selection away. */
    method GiveAway(sel: Piles)
      requires Valid()
      modifies this
      ensures Valid() && State() == old(State()).(hands := Kept(old(hands), sel))
    {
      var left: Piles := hands;
      for seat := 0 to 4
        invariant forall s: Seat :: left[s] == (if s < seat then RemoveAll(hands[s], sel[s]) else hands[s])
      {
        var h := left[seat];
        for i := 0 to |sel[seat]|
          invariant RemoveAll(h, sel[seat][i..]) == RemoveAll(hands[seat], sel[seat])
        {
          assert sel[seat][i..][1..] == sel[seat][i + 1..];
          h := RemoveOne(h, sel[seat][i]);
        }
        left := left[seat := h];
      }
      assert left == Kept(hands, sel);
      SetHands(left);
    }

    method Receive(left: Piles, sel: Piles, offset: nat) returns (full: Piles)
      ensures full == Received(left, sel, offset)
    {
      full := left;
      for seat := 0 to 4
        invariant full[0] == if 0 < seat then left[0] + sel[GiverOf(0, offset)] else left[0]
        invariant full[1] == if 1 < seat then left[1] + sel[GiverOf(1, offset)] else left[1]
        invariant full[2] == if 2 < seat then left[2] + sel[GiverOf(2, offset)] else left[2]
        invariant full[3] == if 3 < seat then left[3] + sel[GiverOf(3, offset)] else left[3]
      {
        full := full[seat := full[seat] + sel[GiverOf(seat, offset)]];
      }
    }

    /** First every seat gives, then every seat receives. */
    method SwapHands()
      requires Valid()
      modifies this
      ensures Valid() && State() == Exchange(old(State()))
    {
      var op, before := opening, hands;
      GiveAway(op.selections);
      var full := Receive(hands, op.selections, Offset(op.direction));
      assert full == ExchangeHands(before, op.selections, Offset(op.direction));
      SetHands(full);
      SetOpening(op.(selections := NO_PILES));
    }

    method NoteExchange(seat: Seat, ts: seq<Tile>, direction: int)
      requires Valid()
      modifies this
      ensures Valid()
      ensures State() == old(State()).(opening := NoteSelection(old(opening), seat, ts, direction), phase := OpeningPhase)
    {
      SetOpening(NoteSelection(opening, seat, ts, direction));
      EnterPhase(OpeningPhase);
    }

    method SubmitExchange(seat: Seat, ts: seq<Tile>, wanted: int, surrender: bool) returns (ok: bool)
      requires Valid()
      modifies this
      ensures Valid() && Outcome(State(), ok) == ApplyExchange(old(State()), seat, ts, wanted, surrender)
    {
      if opening.exchangeDone[seat] { return false; }
      if !surrender && !GoodSelection(hands[seat], ts) { return false; }
      var direction := if opening.direction >= 0 then opening.direction else if 1 <= wanted <= 3 then wanted else 3;
      NoteExchange(seat, if surrender then [] else ts, direction);
      if AllDone(opening.exchangeDone) { SwapHands(); }
      return true;
    }

    method SubmitMissing(seat: Seat, suit: int, surrender: bool) returns (ok: bool)
      requires Valid()
      modifies this
      ensures Valid() && Outcome(State(), ok) == ApplyMissing(old(State()), seat, suit, surrender)
    {
      if opening.missingDone[seat] { return false; }
      var chosen := if surrender then -1 else if 0 <= suit <= 2 then suit else ChooseMissing(hands[seat]);
      SetOpening(opening.(missingSuits := opening.missingSuits[seat := chosen], missingDone := opening.missingDone[seat := true]));
      if AllDone(opening.missingDone) {
        EnterPhase(Idle);
        ok := DrawForTurn();
      } else {
        EnterPhase(OpeningPhase);
        return true;
      }
    }

    method ApplyOpening(seat: int, wantedStep: OpeningStep, ts: seq<Tile>, wanted: int, suit: int, surrender: bool)
      returns (ok: bool)
      requires Valid()
      modifies this
      ensures Valid()
      ensures Outcome(State(), ok) == Rounds.ApplyOpening(old(State()), seat, wantedStep, ts, wanted, suit, surrender)
    {
      var now := OpeningStepNow();
      if closed || wantedStep == OpeningOver || now != wantedStep || seat < 0 || seat > 3 { return false; }
      if wantedStep == ExchangeStep {
        ok := SubmitExchange(seat, ts, wanted, surrender);
      } else {
        ok := SubmitMissing(seat, suit, surrender);
      }
    }

    // ---------- timeouts ----------

    method GiveUpTurn()
      requires Valid()
      modifies this
      ensures Valid()
      ensures State() == CloseOpeningClaim(ClearClaimWindow(
                           MarkSurrendered(old(State()), old(turn)).(pendingDraw := NO_TILE, currentDraw := NO_TILE)))
    {
      Surrender(turn);
      SetDraws(NO_TILE, NO_TILE);
      CloseClaimWindow();
      CloseOpeningWindow();
    }

    method SurrenderTurnAndContinue() returns (ok: bool)
      requires Valid()
      modifies this
      ensures Valid() && Outcome(State(), ok) == SurrenderTurn(old(State()))
    {
      var seat := turn;
      GiveUpTurn();
      var active := ListActiveSeats();
      if |active| <= 1 || |winEvents| >= 3 || wall == [] {
        Finish();
        return true;
      }
      var next := NextActiveSeat(seat);
      SetTurn(next);
      EnterPhase(Idle);
      ok := DrawForTurn();
    }

    /** The first seat that has neither submitted nor surrendered, 4 when there is none. */
    method FindWaiting(done: Flags) returns (seat: nat)
      ensures seat == FirstWaiting(done, surrendered)
    {
      for s := 0 to 4
        invariant forall k :: 0 <= k < s ==> done[k] || surrendered[k]
      {
        if !done[s] && !surrendered[s] { return s; }
      }
      return 4;
    }

    method ApplyTimeout() returns (ok: bool)
      requires Valid()
      modifies this
      ensures Valid() && Outcome(State(), ok) == Rounds.ApplyTimeout(old(State()))
    {
      if closed { return false; }
      if waiting.opening {
        var now := OpeningStepNow();
        if now == OpeningOver { return false; }
        var seat := FindWaiting(if now == ExchangeStep then opening.exchangeDone else opening.missingDone);
        if seat == 4 { return false; }
        Surrender(seat);
        ok := ApplyOpening(seat, now, [], 0, 0, true);
      } else if waiting.claimWindow {
        var best := BestCandidate();
        if best.None? {
          CloseClaimWindow();
          CloseOpeningWindow();
          ok := DrawForTurn();
        } else {
          Surrender(best.value.seat);
          ok := ApplyPass(best.value.seat);
        }
      } else if waiting.tsumo || waiting.discard {
        ok := SurrenderTurnAndContinue();
      } else {
        return false;
      }
    }

    // ---------- dealing ----------

    constructor (tiles: seq<Tile>, exchange: bool)
      ensures Valid() && State() == EmptyTable(tiles, exchange)
    {
      withExchange, wall := exchange, tiles;
      hands, discards, flowers, melds := NO_PILES, NO_PILES, NO_PILES, [[], [], [], []];
      opening := Opening(NOTHING_DONE, NOTHING_DONE, NO_PILES, -1, [0, 0, 0, 0]);
      surrendered := NOTHING_DONE;
      waiting, phaseReason := NOT_WAITING, Idle;
      pendingDraw, currentDraw, lastDiscard, lastDiscardSeat := NO_TILE, NO_TILE, NO_TILE, NO_SEAT;
      claimCandidates, qiangGangWindow, pendingGangSeat, pendingGangTile := [], false, 0, NO_TILE;
      turn, step, dealerSeat, openingDrawSeat, dealerFirstDiscardOpen := 0, 0, 0, 0, false;
      winEvents, scoreEvents, gangRecords := [], [], [];
      lastGangFollowUp, lastDiscardAfterGang, closed := false, false, false;
    }

    method DealTo(seat: Seat) returns (ok: bool)
      requires Valid()
      modifies this
      ensures Valid() && Outcome(State(), ok) == DealOne(old(State()), seat)
    {
      var drawn := DrawNextPlayable(seat);
      if drawn.None? { return false; }
      AddToHand(seat, drawn.value);
      return true;
    }

    /** Thirteen times around the table, then the opening. */
    method StartRound() returns (ok: bool)
      requires Valid()
      modifies this
      ensures Valid()
      ensures ok == Deal(old(State()), 52).ok
      ensures ok ==> State() == Deal(old(State()), 52).rs.(phase := OpeningPhase)
    {
      ghost var start := State();
      for round := 0 to 13
        invariant Valid() && DealtSoFar(start, round, 0, State())
      {
        ok := DealRound(start, round);
        if !ok { return; }
      }
      EnterPhase(OpeningPhase);
      return true;
    }

    /** One tile to each seat. */
    method DealRound(ghost start: Round, round: nat) returns (ok: bool)
      requires Valid() && DealtSoFar(start, round, 0, State()) && round < 13
      modifies this
      ensures Valid()
      ensures ok ==> DealtSoFar(start, round + 1, 0, State())
      ensures !ok ==> !Deal(start, 52).ok
    {
      for seat := 0 to 4
        invariant Valid() && DealtSoFar(start, round, seat, State())
      {
        ghost var was := State();
        ok := DealTo(seat);
        DealNext(start, round, seat, was, Outcome(State(), ok));
        if !ok { return; }
      }
      RoundDealt(start, round, State());
      return true;
    }
  }

  // ---------- helpers ----------

  /** What was offered so far, and what the remaining seats will be offered, is what there is to offer. */
  ghost predicate Collected(rs: Round, out: seq<Candidate>, offset: nat)
    requires offset >= 1
  {
    out + OffersFrom(rs, offset) == BuildCandidates(rs)
  }

  lemma CollectNext(rs: Round, out: seq<Candidate>, offer: seq<Candidate>, offset: nat)
    requires 1 <= offset <= 3 && Collected(rs, out, offset) && offer == Offer(rs, offset)
    ensures Collected(rs, out + offer, offset + 1)
  {
    assert out + (offer + OffersFrom(rs, offset + 1)) == out + offer + OffersFrom(rs, offset + 1);
  }

  lemma AllCollected(rs: Round, out: seq<Candidate>)
    requires Collected(rs, out, 4)
    ensures out == BuildCandidates(rs)
  {
    assert OffersFrom(rs, 4) == [];
    assert out + [] == out;
  }

  lemma {:induction false} NothingOnOffer(rs: Round, offset: nat)
    requires offset >= 1 && (rs.lastDiscard == NO_TILE || rs.lastDiscardSeat < 0)
    ensures OffersFrom(rs, offset) == []
    decreases 4 - offset
  {
    if offset <= 3 { NothingOnOffer(rs, offset + 1); }
  }

  /** A later candidate wins only with a strictly higher priority. */
  lemma {:induction false} BestOfMore(cs: seq<Candidate>, c: Candidate)
    requires cs != []
    ensures TopPriority(cs + [c]) == if c.priority > TopPriority(cs) then c.priority else TopPriority(cs)
    ensures Best(cs).priority == TopPriority(cs)
    ensures Best(cs + [c]) == if c.priority > TopPriority(cs) then c else Best(cs)
  {
    assert (cs + [c])[1..] == cs[1..] + [c];
    if |cs| > 1 { BestOfMore(cs[1..], c); }
  }

  lemma TopIsBest(cs: seq<Candidate>)
    requires cs != []
    ensures Best(cs).priority == TopPriority(cs)
  {
    BestOfMore(cs, cs[0]);
  }

  /** So many whole rounds and single tiles have been dealt. */
  ghost predicate DealtSoFar(start: Round, round: nat, seats: nat, now: Round) {
    Deal(start, 4 * round + seats) == Outcome(now, true)
  }

  lemma DealNext(start: Round, round: nat, seat: Seat, was: Round, o: Outcome)
    requires DealtSoFar(start, round, seat, was) && o == DealOne(was, seat) && round < 13
    ensures o.ok ==> DealtSoFar(start, round, seat + 1, o.rs)
    ensures !o.ok ==> !Deal(start, 52).ok
  {
    assert (4 * round + seat) % 4 == seat;
    assert Deal(start, 4 * round + seat + 1) == o;
    if !o.ok { DealFails(start, 4 * round + seat + 1, 52); }
  }

  lemma RoundDealt(start: Round, round: nat, now: Round)
    requires DealtSoFar(start, round, 4, now)
    ensures DealtSoFar(start, round + 1, 0, now)
  {
  }

  /** The hands after everybody gave. */
  function Kept(hands: Piles, sel: Piles): Piles {
    [RemoveAll(hands[0], sel[0]), RemoveAll(hands[1], sel[1]), RemoveAll(hands[2], sel[2]), RemoveAll(hands[3], sel[3])]
  }

  /** The hands after everybody received. */
  function Received(left: Piles, sel: Piles, offset: nat): Piles {
    [left[0] + sel[GiverOf(0, offset)], left[1] + sel[GiverOf(1, offset)],
     left[2] + sel[GiverOf(2, offset)], left[3] + sel[GiverOf(3, offset)]]
  }

  lemma {:induction false} DealFails(rs: Round, n: nat, m: nat)
    requires !Deal(rs, n).ok && n <= m
    ensures !Deal(rs, m).ok
    decreases m - n
  {
    if n < m {
      assert Deal(rs, n + 1) == Deal(rs, n);
      DealFails(rs, n + 1, m);
    }
  }
}
