/**
 * One hand of Sichuan mahjong as a value, and what each engine operation does to it
 * (internal/service/room/engine). The class RoundState in RoundEngine.dfy updates the same fields in
 * place and is proved against these functions.
 */
module Rounds {
  import opened Tiles
  import opened SichuanWin
  import opened SichuanScore

  type Seat = s: int | 0 <= s < 4
  type SeatOrNone = s: int | -1 <= s < 4 witness -1

  const NO_SEAT: SeatOrNone := -1

  type Piles = p: seq<seq<Tile>> | |p| == 4 witness [[], [], [], []]
  type MeldTable = p: seq<seq<Meld>> | |p| == 4 witness [[], [], [], []]
  type Flags = p: seq<bool> | |p| == 4 witness [false, false, false, false]
  type Suits = p: seq<int> | |p| == 4 witness [0, 0, 0, 0]

  const NO_PILES: Piles := [[], [], [], []]
  const NOTHING_DONE: Flags := [false, false, false, false]

  /** What the table is waiting for. */
  datatype Phase = Idle | OpeningPhase | ClaimPhase | TsumoPhase | DiscardPhase

  datatype HuSource = SelfDraw | OnDiscard | RobbedKong

  datatype WinEvent = WinEvent(seat: Seat, source: HuSource, tile: Tile, payer: SeatOrNone, step: nat, fan: nat)

  datatype Reason = HuTsumo | HuDiscard | HuQiangGang | GangMing | GangBu | GangAn

  /** `amount` points go from one seat to another. */
  datatype ScoreEvent = ScoreEvent(reason: Reason, payer: int, payee: int, amount: int, step: nat, winner: SeatOrNone)

  datatype GangRecord = GangRecord(seat: Seat, reason: Reason, tile: Tile, source: SeatOrNone, step: nat)

  /** What one seat may do with the tile on offer. */
  datatype Candidate = Candidate(seat: Seat, hu: bool, gang: bool, pong: bool, chi: bool, priority: nat)

  datatype Opening = Opening(
    exchangeDone: Flags, missingDone: Flags, selections: Piles, direction: int, missingSuits: Suits)

  datatype Round = Round(
    withExchange: bool,
    wall: seq<Tile>,
    hands: Piles,
    discards: Piles,
    flowers: Piles,
    melds: MeldTable,
    opening: Opening,
    surrendered: Flags,
    phase: Phase,
    pendingDraw: Tile,
    currentDraw: Tile,
    lastDiscard: Tile,
    lastDiscardSeat: SeatOrNone,
    candidates: seq<Candidate>,
    qiangGang: bool,
    pendingGangSeat: SeatOrNone,
    pendingGangTile: Tile,
    turn: Seat,
    step: nat,
    dealerSeat: Seat,
    openingDrawSeat: SeatOrNone,
    dealerFirstDiscardOpen: bool,
    wins: seq<WinEvent>,
    scores: seq<ScoreEvent>,
    gangs: seq<GangRecord>,
    lastGangFollowUp: bool,
    lastDiscardAfterGang: bool,
    closed: bool)

  /** The state an operation leaves behind, and whether it was accepted. */
  datatype Outcome = Outcome(rs: Round, ok: bool)

  // ---------- hands ----------

  /** Removes the tiles one by one; false when one is missing, with the earlier ones gone. */
  function RemoveEach(h: seq<Tile>, ts: seq<Tile>): (seq<Tile>, bool)
    decreases |ts|
  {
    if ts == [] then (h, true)
    else if ts[0] !in h then (h, false)
    else RemoveEach(RemoveOne(h, ts[0]), ts[1..])
  }

  /** Removes the tiles one by one and skips those that are not there. */
  function RemoveAll(h: seq<Tile>, ts: seq<Tile>): seq<Tile>
    decreases |ts|
  {
    if ts == [] then h else RemoveAll(RemoveOne(h, ts[0]), ts[1..])
  }

  // ---------- seats ----------

  predicate HasWon(rs: Round, seat: int) {
    exists i :: 0 <= i < |rs.wins| && rs.wins[i].seat == seat
  }

  predicate Active(rs: Round, seat: Seat) { !HasWon(rs, seat) && !rs.surrendered[seat] }

  function ActiveSeats(rs: Round): seq<Seat> {
    (if Active(rs, 0) then [0] else []) + (if Active(rs, 1) then [1] else [])
    + (if Active(rs, 2) then [2] else []) + (if Active(rs, 3) then [3] else [])
  }

  function NextActive(rs: Round, from: Seat): Seat {
    if Active(rs, (from + 1) % 4) then (from + 1) % 4
    else if Active(rs, (from + 2) % 4) then (from + 2) % 4
    else if Active(rs, (from + 3) % 4) then (from + 3) % 4
    else from
  }

  function MarkSurrendered(rs: Round, seat: Seat): Round {
    rs.(surrendered := rs.surrendered[seat := true])
  }

  // ---------- phases, closing, drawing ----------

  function ClearClaimWindow(rs: Round): Round {
    rs.(candidates := [], qiangGang := false, pendingGangSeat := NO_SEAT, pendingGangTile := NO_TILE, phase := Idle)
  }

  function CloseOpeningClaim(rs: Round): Round { rs.(dealerFirstDiscardOpen := false) }

  /** Three winners or an empty wall end the hand. */
  predicate ShouldFinish(rs: Round) { |rs.wins| >= 3 || rs.wall == [] }

  function FinishRound(rs: Round): Round {
    ClearClaimWindow(rs.(closed := true, pendingDraw := NO_TILE, currentDraw := NO_TILE,
                         lastDiscard := NO_TILE, lastDiscardSeat := NO_SEAT))
  }

  function GiveTile(p: Piles, seat: Seat, t: Tile): Piles { p[seat := p[seat] + [t]] }

  /** Draws past flowers, which are laid beside the seat; an empty wall is an error. */
  function DrawPlayable(rs: Round, seat: Seat): (Round, Option<Tile>)
    decreases |rs.wall|
  {
    if rs.wall == [] then (rs, None)
    else
      var t, rest := rs.wall[0], rs.(wall := rs.wall[1..]);
      if IsFlower(t) then DrawPlayable(rest.(flowers := GiveTile(rest.flowers, seat, t)), seat)
      else (rest, Some(t))
  }

  /** The missing suit as the winning and claiming tests see it. */
  function MissingSuit(rs: Round, seat: Seat): int {
    if rs.opening.missingDone[seat] then rs.opening.missingSuits[seat] else -1
  }

  predicate IsMissingSuitClaim(rs: Round, seat: Seat, t: Tile) {
    t != NO_TILE && 0 <= MissingSuit(rs, seat) <= 2 && Suit(t) == MissingSuit(rs, seat)
  }

  ghost predicate CheckSeatHu(rs: Round, seat: int, t: Tile) {
    && t != NO_TILE && 0 <= seat < 4 && Active(rs, seat)
    && CheckHu(rs.hands[seat], t, MissingSuit(rs, seat), rs.melds[seat])
  }

  /** The drawn tile wins: the seat is asked. */
  function OfferTsumo(rs: Round, t: Tile): Round {
    rs.(currentDraw := t, pendingDraw := t, phase := TsumoPhase)
  }

  /** The drawn tile goes to the hand and the seat has to discard. */
  function KeepDraw(rs: Round, t: Tile): Round {
    rs.(currentDraw := t, hands := GiveTile(rs.hands, rs.turn, t), phase := DiscardPhase)
  }

  ghost function DrawForCurrentTurn(rs: Round): Outcome {
    if ShouldFinish(rs) then Outcome(FinishRound(rs), true)
    else
      var (r1, drawn) := DrawPlayable(rs, rs.turn);
      if drawn.None? then Outcome(r1, false)
      else if CheckSeatHu(r1, r1.turn, drawn.value) then Outcome(OfferTsumo(r1, drawn.value), true)
      else Outcome(KeepDraw(r1, drawn.value), true)
  }

  // ---------- claims ----------

  function Priority(hu: bool, gang: bool, pong: bool): nat {
    if hu then 3 else if gang then 2 else if pong then 1 else 0
  }

  /** What the Sichuan policy offers the seat `offset` places after the discarder. */
  ghost function Offer(rs: Round, offset: nat): seq<Candidate>
    requires 1 <= offset <= 3
  {
    if rs.lastDiscard == NO_TILE || rs.lastDiscardSeat < 0 then []
    else
      var seat: Seat := (rs.lastDiscardSeat + offset) % 4;
      if rs.surrendered[seat] || HasWon(rs, seat) then []
      else
        var t := rs.lastDiscard;
        var hu := CheckHu(rs.hands[seat], t, MissingSuit(rs, seat), rs.melds[seat]);
        var onlyHu := rs.qiangGang || IsMissingSuitClaim(rs, seat, t);
        var gang := !onlyHu && Num(rs.hands[seat], t) >= 3;
        var pong := !onlyHu && Num(rs.hands[seat], t) >= 2;
        if hu || gang || pong then [Candidate(seat, hu, gang, pong, false, Priority(hu, gang, pong))] else []
  }

  ghost function OffersFrom(rs: Round, offset: nat): seq<Candidate>
    requires offset >= 1
    decreases 4 - offset
  {
    if offset > 3 then [] else Offer(rs, offset) + OffersFrom(rs, offset + 1)
  }

  ghost function BuildCandidates(rs: Round): seq<Candidate> { OffersFrom(rs, 1) }

  function TopPriority(cs: seq<Candidate>): nat {
    if cs == [] then 0
    else if cs[0].priority > TopPriority(cs[1..]) then cs[0].priority
    else TopPriority(cs[1..])
  }

  /** The first candidate of the highest priority. */
  function Best(cs: seq<Candidate>): Candidate
    requires cs != []
  {
    if cs[0].priority == TopPriority(cs) || |cs| == 1 then cs[0] else Best(cs[1..])
  }

  predicate IsTop(rs: Round, seat: int) {
    && rs.phase == ClaimPhase
    && (exists i :: 0 <= i < |rs.candidates|
          && rs.candidates[i].seat == seat && rs.candidates[i].priority == TopPriority(rs.candidates))
  }

  function CandidateOf(cs: seq<Candidate>, seat: int): Option<Candidate> {
    if cs == [] then None else if cs[0].seat == seat then Some(cs[0]) else CandidateOf(cs[1..], seat)
  }

  function RemoveCandidate(cs: seq<Candidate>, seat: int): seq<Candidate> {
    if cs == [] then []
    else if cs[0].seat == seat then RemoveCandidate(cs[1..], seat)
    else [cs[0]] + RemoveCandidate(cs[1..], seat)
  }

  predicate MayClaim(rs: Round, seat: int) { 0 <= seat < 4 && !HasWon(rs, seat) && IsTop(rs, seat) }

  predicate CanClaimPong(rs: Round, seat: int) {
    MayClaim(rs, seat) && var c := CandidateOf(rs.candidates, seat); c.Some? && c.value.pong
  }

  predicate CanClaimGang(rs: Round, seat: int) {
    MayClaim(rs, seat) && var c := CandidateOf(rs.candidates, seat); c.Some? && c.value.gang
  }

  predicate CanClaimChi(rs: Round, seat: int) {
    MayClaim(rs, seat) && var c := CandidateOf(rs.candidates, seat); c.Some? && c.value.chi
  }

  predicate HasHuClaim(rs: Round, seat: int) {
    rs.phase == ClaimPhase && var c := CandidateOf(rs.candidates, seat); c.Some? && c.value.hu
  }

  predicate HuLeftAt(cs: seq<Candidate>, priority: nat) {
    priority > 0 && exists i :: 0 <= i < |cs| && cs[i].priority == priority && cs[i].hu
  }

  /** Puts an unfinished draw back on the wall; nothing happens when there is none. */
  function RewindInterruptedTurn(rs: Round): Outcome {
    if rs.currentDraw == NO_TILE then Outcome(rs, true)
    else if rs.pendingDraw != NO_TILE then
      Outcome(rs.(pendingDraw := NO_TILE, wall := [rs.currentDraw] + rs.wall, currentDraw := NO_TILE), true)
    else if rs.currentDraw !in rs.hands[rs.turn] then Outcome(rs, false)
    else
      Outcome(rs.(hands := rs.hands[rs.turn := RemoveOne(rs.hands[rs.turn], rs.currentDraw)],
                  wall := [rs.currentDraw] + rs.wall, currentDraw := NO_TILE), true)
  }

  /** The piles without the seat's last tile, if that is t. */
  function PilesWithoutLast(p: Piles, seat: SeatOrNone, t: Tile): Piles {
    if seat < 0 || p[seat] == [] || p[seat][|p[seat]| - 1] != t then p else p[seat := p[seat][..|p[seat]| - 1]]
  }

  function RemoveLastDiscard(rs: Round, seat: SeatOrNone, t: Tile): Round {
    rs.(discards := PilesWithoutLast(rs.discards, seat, t))
  }

  function RecordMeld(rs: Round, seat: Seat, m: Meld): Round {
    rs.(melds := rs.melds[seat := rs.melds[seat] + [m]])
  }

  /** What a claimed pong or chi leaves behind: the claimer is to discard. */
  function ClaimerDiscards(rs: Round, seat: Seat): Round {
    rs.(turn := seat, pendingDraw := NO_TILE, currentDraw := NO_TILE, lastDiscard := NO_TILE,
        lastDiscardSeat := NO_SEAT, phase := DiscardPhase)
  }

  /** The window is closed and an unfinished draw undone before a claim consumes tiles. */
  function BeginClaim(rs: Round): Outcome {
    RewindInterruptedTurn(CloseOpeningClaim(ClearClaimWindow(rs)))
  }

  function ApplyPong(rs: Round, seat: int): Outcome {
    if !CanClaimPong(rs, seat) then Outcome(rs, false)
    else
      var t, source := rs.lastDiscard, rs.lastDiscardSeat;
      var begun := BeginClaim(rs);
      if !begun.ok then begun
      else
        var (h, ok) := RemoveEach(begun.rs.hands[seat], [t, t]);
        var r1 := begun.rs.(hands := begun.rs.hands[seat := h]);
        if !ok then Outcome(r1, false)
        else
          var r2 := RemoveLastDiscard(r1, source, t);
          Outcome(ClaimerDiscards(RecordMeld(r2, seat, Meld(Pong, [t, t, t], source)), seat), true)
  }

  // ---------- chi ----------

  function Least(a: nat, b: nat): nat { if b < a then b else a }

  function Most(a: nat, b: nat): nat { if b < a then a else b }

  /** Three tiles of one suit with consecutive ranks, in any order. */
  predicate IsChiSequence(ts: seq<Tile>) {
    && |ts| == 3 && Suit(ts[0]) == Suit(ts[1]) == Suit(ts[2])
    && var low := Least(Least(Rank(ts[0]), Rank(ts[1])), Rank(ts[2]));
       var high := Most(Most(Rank(ts[0]), Rank(ts[1])), Rank(ts[2]));
       high == low + 2 && Rank(ts[0]) + Rank(ts[1]) + Rank(ts[2]) == 3 * (low + 1)
  }

  /** The three tiles without one copy of the claimed tile. */
  function ChiRemainder(ts: seq<Tile>, claimed: Tile): seq<Tile> { RemoveOne(ts, claimed) }

  /** The other two tiles of the sequence are in the hand. */
  predicate HoldsChiRemainder(h: seq<Tile>, claimed: Tile, ts: seq<Tile>) {
    claimed in ts
    && var need := ChiRemainder(ts, claimed);
       forall i :: 0 <= i < |need| ==> Num(need, need[i]) <= Num(h, need[i])
  }

  function TileOrNone(suit: nat, rank: int): Tile {
    var t := New(suit, rank);
    if t.Some? then t.value else NO_TILE
  }

  /** The sequence of the suit that begins at the rank, when there is one. */
  function ChiFrom(suit: nat, start: int): Option<seq<Tile>> {
    if start < 1 || start + 2 > 9 then None
    else Some([TileOrNone(suit, start), TileOrNone(suit, start + 1), TileOrNone(suit, start + 2)])
  }

  function ChiAt(h: seq<Tile>, claimed: Tile, start: int): Option<seq<Tile>> {
    var ts := ChiFrom(Suit(claimed), start);
    if ts.Some? && HoldsChiRemainder(h, claimed, ts.value) then ts else None
  }

  /** The named tiles when there are any, else the first sequence that the hand allows. */
  function ResolveChi(h: seq<Tile>, claimed: Tile, named: seq<Tile>): Option<seq<Tile>> {
    if claimed == NO_TILE then None
    else if named != [] then
      if IsChiSequence(named) && HoldsChiRemainder(h, claimed, named) then Some(named) else None
    else if ChiAt(h, claimed, Rank(claimed) - 2).Some? then ChiAt(h, claimed, Rank(claimed) - 2)
    else if ChiAt(h, claimed, Rank(claimed) - 1).Some? then ChiAt(h, claimed, Rank(claimed) - 1)
    else ChiAt(h, claimed, Rank(claimed))
  }

  function ApplyChi(rs: Round, seat: int, named: seq<Tile>): Outcome {
    if !CanClaimChi(rs, seat) then Outcome(rs, false)
    else
      var t, source := rs.lastDiscard, rs.lastDiscardSeat;
      var tiles := ResolveChi(rs.hands[seat], t, named);
      if tiles.None? then Outcome(rs, false)
      else
        var begun := BeginClaim(rs);
        if !begun.ok then begun
        else
          var consume := ChiRemainder(tiles.value, t);
          var (h, ok) := RemoveEach(begun.rs.hands[seat], consume);
          var r1 := begun.rs.(hands := begun.rs.hands[seat := h]);
          if !ok then Outcome(r1, false)
          else
            var r2 := RemoveLastDiscard(r1, source, t);
            Outcome(ClaimerDiscards(RecordMeld(r2, seat, Meld(Chi, tiles.value, source)), seat), true)
  }

  // ---------- kongs ----------

  function GangPayments(payers: seq<Seat>, seat: Seat, reason: Reason, amount: int, step: nat): seq<ScoreEvent> {
    if payers == [] then []
    else
      (if payers[0] == seat then [] else [ScoreEvent(reason, payers[0], seat, amount, step, NO_SEAT)])
      + GangPayments(payers[1..], seat, reason, amount, step)
  }

  function ScoreGang(rs: Round, seat: Seat, t: Tile, reason: Reason, source: SeatOrNone): Round {
    rs.(scores := rs.scores + GangPayments(ActiveSeats(rs), seat, reason, if reason == GangAn then 2 else 1, rs.step),
        gangs := rs.gangs + [GangRecord(seat, reason, t, source, rs.step)],
        lastGangFollowUp := true)
  }

  function FirstPong(ms: seq<Meld>, t: Tile): nat {
    if ms == [] then 0
    else if ms[0].kind == Pong && |ms[0].tiles| > 0 && ms[0].tiles[0] == t then 0
    else 1 + FirstPong(ms[1..], t)
  }

  /** A pong of t is on the table. */
  predicate HasPong(ms: seq<Meld>, t: Tile) { FirstPong(ms, t) < |ms| }

  /** The added-kong policy looks at the first three tiles of the pong. */
  predicate HasFullPong(ms: seq<Meld>, t: Tile) {
    exists i :: 0 <= i < |ms| && ms[i].kind == Pong && |ms[i].tiles| >= 3
      && ms[i].tiles[0] == t && ms[i].tiles[1] == t && ms[i].tiles[2] == t
  }

  predicate MaySelfGang(rs: Round, seat: int) {
    0 <= seat < 4 && seat == rs.turn && rs.phase == DiscardPhase && !HasWon(rs, seat)
  }

  predicate CanAnGang(rs: Round, seat: int, t: Tile) {
    && MaySelfGang(rs, seat) && !IsMissingSuitClaim(rs, seat, t)
    && t != NO_TILE && Num(rs.hands[seat], t) >= 4
  }

  predicate CanBuGang(rs: Round, seat: int, t: Tile) {
    && MaySelfGang(rs, seat) && t != NO_TILE && HasPong(rs.melds[seat], t)
    && !IsMissingSuitClaim(rs, seat, t) && t in rs.hands[seat] && HasFullPong(rs.melds[seat], t)
  }

  /** The tile leaves the hand and turns the pong into a kong. */
  function CompleteBuGang(rs: Round, seat: Seat, t: Tile): Outcome {
    if t !in rs.hands[seat] then Outcome(rs, false)
    else
      var r1 := rs.(hands := rs.hands[seat := RemoveOne(rs.hands[seat], t)]);
      var ms, i := r1.melds[seat], FirstPong(r1.melds[seat], t);
      if i >= |ms| then Outcome(r1, false)
      else
        var r2 := r1.(melds := r1.melds[seat := ms[i := Meld(BuGang, [t, t, t, t], ms[i].source)]]);
        Outcome(ScoreGang(r2, seat, t, GangBu, NO_SEAT).(pendingGangSeat := NO_SEAT, pendingGangTile := NO_TILE), true)
  }

  ghost function FinishGang(rs: Round, seat: Seat): Outcome {
    DrawForCurrentTurn(rs.(turn := seat, pendingDraw := NO_TILE, currentDraw := NO_TILE, lastDiscard := NO_TILE,
                           lastDiscardSeat := NO_SEAT, qiangGang := false, pendingGangSeat := NO_SEAT,
                           pendingGangTile := NO_TILE, phase := Idle))
  }

  ghost function ClaimGang(rs: Round, seat: Seat): Outcome {
    var t, source := rs.lastDiscard, rs.lastDiscardSeat;
    var begun := BeginClaim(rs);
    if !begun.ok then begun
    else
      var (h, ok) := RemoveEach(begun.rs.hands[seat], [t, t, t]);
      var r1 := begun.rs.(hands := begun.rs.hands[seat := h]);
      if !ok then Outcome(r1, false)
      else
        var r2 := RecordMeld(RemoveLastDiscard(r1, source, t), seat, Meld(ZhiGang, [t, t, t, t], source));
        var r3 := ScoreGang(r2.(lastDiscard := NO_TILE, lastDiscardSeat := NO_SEAT), seat, t, GangMing, source);
        FinishGang(r3, seat)
  }

  /** The added kong waits while another seat may rob it. */
  ghost function OfferBuGang(rs: Round, seat: Seat, t: Tile): Round {
    var r1 := rs.(lastDiscard := t, lastDiscardSeat := seat, pendingGangSeat := seat, pendingGangTile := t,
                  qiangGang := true);
    r1.(candidates := BuildCandidates(r1))
  }

  ghost function BuGangBy(rs: Round, seat: Seat, t: Tile): Outcome {
    var r1 := OfferBuGang(rs, seat, t);
    if r1.candidates != [] then Outcome(r1.(phase := ClaimPhase), true)
    else
      var done := CompleteBuGang(ClearClaimWindow(r1), seat, t);
      if !done.ok then done else FinishGang(done.rs, seat)
  }

  ghost function AnGangBy(rs: Round, seat: Seat, t: Tile): Outcome {
    var r0 := ClearClaimWindow(rs);
    var (h, ok) := RemoveEach(r0.hands[seat], [t, t, t, t]);
    var r1 := r0.(hands := r0.hands[seat := h]);
    if !ok then Outcome(r1, false)
    else
      var r2 := RecordMeld(r1, seat, Meld(AnGang, [t, t, t, t], NO_SEAT));
      FinishGang(ScoreGang(r2, seat, t, GangAn, NO_SEAT), seat)
  }

  ghost function ApplyGang(rs: Round, seat: int, t: Tile): Outcome {
    if CanClaimGang(rs, seat) then ClaimGang(rs, seat)
    else if CanBuGang(rs, seat, t) then BuGangBy(rs, seat, t)
    else if CanAnGang(rs, seat, t) then AnGangBy(rs, seat, t)
    else Outcome(rs, false)
  }

  // ---------- discarding ----------

  ghost function OpenClaimWindow(rs: Round): Round {
    rs.(candidates := BuildCandidates(rs), phase := ClaimPhase)
  }

  /** After the tile is in the pile: end of the hand, a claim window, or the next draw. */
  ghost function AfterDiscard(rs: Round, seat: Seat, t: Tile): Outcome {
    if ShouldFinish(rs) then Outcome(FinishRound(rs), true)
    else
      var r1 := rs.(lastDiscard := t, lastDiscardSeat := seat, turn := NextActive(rs, seat));
      var r2 := OpenClaimWindow(r1);
      if r2.candidates != [] then Outcome(r2, true)
      else DrawForCurrentTurn(CloseOpeningClaim(ClearClaimWindow(r2)))
  }

  function TakePendingDraw(rs: Round, seat: Seat): Round {
    rs.(hands := GiveTile(rs.hands, seat, rs.pendingDraw), pendingDraw := NO_TILE, phase := DiscardPhase)
  }

  function LayDiscard(rs: Round, seat: Seat, t: Tile): Round {
    var first := seat == rs.dealerSeat && rs.openingDrawSeat == seat;
    rs.(hands := rs.hands[seat := RemoveOne(rs.hands[seat], t)],
        currentDraw := NO_TILE,
        dealerFirstDiscardOpen := first || rs.dealerFirstDiscardOpen,
        openingDrawSeat := if first then NO_SEAT else rs.openingDrawSeat,
        lastDiscardAfterGang := rs.lastGangFollowUp,
        lastGangFollowUp := false,
        discards := GiveTile(rs.discards, seat, t),
        step := rs.step + 1)
  }

  ghost function ApplyDiscard(rs: Round, seat: int, t: Tile): Outcome {
    if rs.closed || seat != rs.turn || t == NO_TILE then Outcome(rs, false)
    else
      var r1 := if rs.phase == TsumoPhase then TakePendingDraw(rs, seat) else rs;
      if r1.phase != DiscardPhase || t !in r1.hands[seat] then Outcome(r1, false)
      else AfterDiscard(LayDiscard(r1, seat, t), seat, t)
  }

  // ---------- winning ----------

  function WinPayments(payers: seq<Seat>, seat: Seat, amount: int, step: nat): seq<ScoreEvent> {
    if payers == [] then []
    else
      (if payers[0] == seat then [] else [ScoreEvent(HuTsumo, payers[0], seat, amount, step, seat)])
      + WinPayments(payers[1..], seat, amount, step)
  }

  function ScoreWin(rs: Round, seat: Seat, fan: nat, source: HuSource, payer: SeatOrNone): seq<ScoreEvent> {
    if source == SelfDraw then WinPayments(ActiveSeats(rs), seat, fan, rs.step)
    else if 0 <= payer && payer != seat then
      [ScoreEvent(if rs.lastDiscardAfterGang then HuQiangGang else HuDiscard, payer, seat, fan, rs.step, seat)]
    else []
  }

  predicate ByClaim(rs: Round, seat: int) { HasHuClaim(rs, seat) }

  function WinSource(rs: Round, seat: int): HuSource {
    if !ByClaim(rs, seat) then SelfDraw else if rs.qiangGang then RobbedKong else OnDiscard
  }

  function WinTile(rs: Round, seat: int): Tile {
    if ByClaim(rs, seat) then rs.lastDiscard else rs.pendingDraw
  }

  function KongsOf(gs: seq<GangRecord>, seat: Seat): nat {
    if gs == [] then 0 else KongsOf(gs[..|gs| - 1], seat) + if gs[|gs| - 1].seat == seat then 1 else 0
  }

  function ConcealedKongsOf(gs: seq<GangRecord>, seat: Seat): nat {
    if gs == [] then 0
    else
      var g := gs[|gs| - 1];
      ConcealedKongsOf(gs[..|gs| - 1], seat) + if g.seat == seat && g.reason == GangAn then 1 else 0
  }

  /** An added kong for which another seat answers is on record. */
  predicate RobbedKongOnRecord(gs: seq<GangRecord>) {
    exists i :: 0 <= i < |gs| && gs[i].reason == GangBu && gs[i].source >= 0
  }

  /** What the fan table is told about a win of the seat. */
  function SceneOf(rs: Round, seat: Seat): Scene {
    var tsumo := WinSource(rs, seat) == SelfDraw;
    Scene(seat == rs.dealerSeat, tsumo, tsumo && seat == rs.openingDrawSeat, !tsumo && rs.dealerFirstDiscardOpen,
          KongsOf(rs.gangs, seat), ConcealedKongsOf(rs.gangs, seat), RobbedKongOnRecord(rs.gangs),
          tsumo && rs.lastGangFollowUp, !tsumo && rs.lastDiscardAfterGang, rs.wall == [])
  }

  /** What the rule pays for a win of the seat now. */
  ghost function WinFan(rs: Round, seat: int): (fan: nat)
    ensures fan >= 1
  {
    if 0 <= seat < 4 then FanTotal(WinTable(rs.hands[seat], WinTile(rs, seat), rs.melds[seat]), SceneOf(rs, seat)) else 1
  }

  /** A win is offered to the seat and its hand wins. */
  ghost predicate CanHu(rs: Round, seat: int) {
    && !rs.closed && !HasWon(rs, seat)
    && (if ByClaim(rs, seat) then IsTop(rs, seat) else seat == rs.turn && rs.phase == TsumoPhase)
    && CheckSeatHu(rs, seat, WinTile(rs, seat))
  }

  /** The konger loses the robbed tile; a second winner finds it gone already. */
  function RobbedHands(rs: Round): Piles {
    if rs.pendingGangSeat >= 0 && rs.pendingGangTile != NO_TILE then
      rs.hands[rs.pendingGangSeat := RemoveOne(rs.hands[rs.pendingGangSeat], rs.pendingGangTile)]
    else rs.hands
  }

  /** The win is recorded, before the hand ends or goes on. */
  function RecordHu(rs: Round, seat: Seat, fan: nat): Round {
    var claim, source, t := ByClaim(rs, seat), WinSource(rs, seat), WinTile(rs, seat);
    var payer := if claim then rs.lastDiscardSeat else NO_SEAT;
    var r1 := rs.(scores := rs.scores + ScoreWin(rs, seat, fan, source, payer),
                  hands := if source == RobbedKong then RobbedHands(rs) else rs.hands,
                  wins := rs.wins + [WinEvent(seat, source, t, payer, rs.step, fan)],
                  pendingDraw := NO_TILE, currentDraw := NO_TILE,
                  lastGangFollowUp := false, lastDiscardAfterGang := false,
                  openingDrawSeat := if source == SelfDraw then NO_SEAT else rs.openingDrawSeat,
                  dealerFirstDiscardOpen := source == SelfDraw && rs.dealerFirstDiscardOpen);
    if claim then r1.(candidates := RemoveCandidate(rs.candidates, seat)) else ClearClaimWindow(r1)
  }

  /** A win that is worth `fan`; for nothing it would be refused. */
  ghost function ApplyHu(rs: Round, seat: int, fan: nat): Outcome {
    if !CanHu(rs, seat) || fan == 0 then Outcome(rs, false)
    else
      var claim := ByClaim(rs, seat);
      var accepted := if claim then CandidateOf(rs.candidates, seat).value.priority else 0;
      var next: Seat := if claim && rs.lastDiscardSeat >= 0 then rs.lastDiscardSeat else seat;
      var r1 := RecordHu(rs, seat, fan);
      if ShouldFinish(r1) then Outcome(FinishRound(r1), true)
      else if claim && HuLeftAt(r1.candidates, accepted) then Outcome(r1.(phase := ClaimPhase), true)
      else
        var r2 := ClearClaimWindow(r1);
        DrawForCurrentTurn(r2.(turn := NextActive(r2, next)))
  }

  // ---------- passing ----------

  /** Nobody is left to claim: a waiting kong is completed, else the next seat draws. */
  ghost function AllPassed(rs: Round): Outcome {
    if rs.qiangGang && rs.pendingGangSeat >= 0 && rs.pendingGangTile != NO_TILE then
      var seat: Seat := rs.pendingGangSeat;
      var done := CompleteBuGang(ClearClaimWindow(rs), seat, rs.pendingGangTile);
      if !done.ok then done else FinishGang(done.rs.(turn := seat), seat)
    else DrawForCurrentTurn(CloseOpeningClaim(ClearClaimWindow(rs)))
  }

  ghost function ApplyPass(rs: Round, seat: int): Outcome {
    if seat < 0 || seat > 3 then Outcome(rs, false)
    else if rs.phase == ClaimPhase then
      if !IsTop(rs, seat) then Outcome(rs, false)
      else
        var r1 := rs.(candidates := RemoveCandidate(rs.candidates, seat));
        if r1.candidates != [] then Outcome(r1, true) else AllPassed(r1)
    else if seat == rs.turn && rs.phase == TsumoPhase then
      if rs.pendingDraw == NO_TILE then Outcome(rs, false)
      else Outcome(TakePendingDraw(rs, seat).(step := rs.step + 1), true)
    else Outcome(rs, false)
  }

  // ---------- opening ----------

  datatype OpeningStep = ExchangeStep | MissingStep | OpeningOver

  predicate AllDone(f: Flags) { f[0] && f[1] && f[2] && f[3] }

  function CurrentStep(rs: Round): OpeningStep {
    if rs.withExchange && !AllDone(rs.opening.exchangeDone) then ExchangeStep
    else if !AllDone(rs.opening.missingDone) then MissingStep
    else OpeningOver
  }

  function Direction(rs: Round, wanted: int): int {
    if rs.opening.direction >= 0 then rs.opening.direction else if 1 <= wanted <= 3 then wanted else 3
  }

  function Offset(direction: int): nat { if 1 <= direction <= 3 then direction else 3 }

  /** The seat whose selection seat s receives. */
  function GiverOf(s: nat, offset: nat): Seat { (s + offset) % 4 }

  /** The hand of seat s after it gave its selection away and received another one. */
  function Swapped(hands: Piles, sel: Piles, offset: nat, s: Seat): seq<Tile> {
    RemoveAll(hands[s], sel[s]) + sel[GiverOf(s, offset)]
  }

  function ExchangeHands(hands: Piles, sel: Piles, offset: nat): Piles {
    [Swapped(hands, sel, offset, 0), Swapped(hands, sel, offset, 1),
     Swapped(hands, sel, offset, 2), Swapped(hands, sel, offset, 3)]
  }

  predicate GoodSelection(h: seq<Tile>, ts: seq<Tile>) { |ts| == 3 && RemoveEach(h, ts).1 }

  /** The selection is noted; the first submission fixes the direction. */
  function NoteSelection(op: Opening, seat: Seat, ts: seq<Tile>, direction: int): Opening {
    Opening(op.exchangeDone[seat := true], op.missingDone, op.selections[seat := ts], direction, op.missingSuits)
  }

  /** All four have chosen: the tiles change hands. */
  function Exchange(rs: Round): Round {
    rs.(hands := ExchangeHands(rs.hands, rs.opening.selections, Offset(rs.opening.direction)),
        opening := rs.opening.(selections := NO_PILES))
  }

  function ApplyExchange(rs: Round, seat: Seat, ts: seq<Tile>, wanted: int, surrender: bool): Outcome {
    if rs.opening.exchangeDone[seat] || (!surrender && !GoodSelection(rs.hands[seat], ts)) then Outcome(rs, false)
    else
      var noted := NoteSelection(rs.opening, seat, if surrender then [] else ts, Direction(rs, wanted));
      var r1 := rs.(opening := noted, phase := OpeningPhase);
      Outcome(if AllDone(noted.exchangeDone) then Exchange(r1) else r1, true)
  }

  function CountSuit(h: seq<Tile>, suit: nat): nat {
    if h == [] then 0 else (if Suit(h[0]) == suit then 1 else 0) + CountSuit(h[1..], suit)
  }

  /** The suit with the fewest tiles, the earlier one on a tie. */
  function ChooseMissing(h: seq<Tile>): int {
    var m, p, s := CountSuit(h, CHARACTERS), CountSuit(h, DOTS), CountSuit(h, BAMBOO);
    if p < m then (if s < p then BAMBOO else DOTS) else (if s < m then BAMBOO else CHARACTERS)
  }

  /** The seat's missing suit is noted: the one it names, or the one it has least of. */
  function NoteMissing(rs: Round, seat: Seat, suit: int, surrender: bool): Round {
    var chosen := if surrender then -1 else if 0 <= suit <= 2 then suit else ChooseMissing(rs.hands[seat]);
    rs.(opening := rs.opening.(missingSuits := rs.opening.missingSuits[seat := chosen],
                               missingDone := rs.opening.missingDone[seat := true]))
  }

  ghost function ApplyMissing(rs: Round, seat: Seat, suit: int, surrender: bool): Outcome {
    if rs.opening.missingDone[seat] then Outcome(rs, false)
    else
      var r1 := NoteMissing(rs, seat, suit, surrender);
      if AllDone(r1.opening.missingDone) then DrawForCurrentTurn(r1.(phase := Idle))
      else Outcome(r1.(phase := OpeningPhase), true)
  }

  ghost function ApplyOpening(rs: Round, seat: int, step: OpeningStep, ts: seq<Tile>, wanted: int, suit: int,
                              surrender: bool): Outcome {
    if rs.closed || step == OpeningOver || CurrentStep(rs) != step || seat < 0 || seat > 3 then Outcome(rs, false)
    else if step == ExchangeStep then ApplyExchange(rs, seat, ts, wanted, surrender)
    else ApplyMissing(rs, seat, suit, surrender)
  }

  // ---------- timeouts ----------

  function Submitted(rs: Round): Flags {
    if CurrentStep(rs) == ExchangeStep then rs.opening.exchangeDone else rs.opening.missingDone
  }

  /** The first seat that has neither submitted nor surrendered, 4 when there is none. */
  function FirstWaiting(done: Flags, out: Flags): nat {
    if !done[0] && !out[0] then 0
    else if !done[1] && !out[1] then 1
    else if !done[2] && !out[2] then 2
    else if !done[3] && !out[3] then 3
    else 4
  }

  function ActiveCount(rs: Round): nat { |ActiveSeats(rs)| }

  ghost function SurrenderTurn(rs: Round): Outcome {
    var seat := rs.turn;
    var r1 := CloseOpeningClaim(ClearClaimWindow(MarkSurrendered(rs, seat).(pendingDraw := NO_TILE, currentDraw := NO_TILE)));
    if ActiveCount(r1) <= 1 || ShouldFinish(r1) then Outcome(FinishRound(r1), true)
    else DrawForCurrentTurn(r1.(turn := NextActive(r1, seat), phase := Idle))
  }

  ghost function ApplyTimeout(rs: Round): Outcome {
    if rs.closed then Outcome(rs, false)
    else if rs.phase == OpeningPhase then
      var seat := FirstWaiting(Submitted(rs), rs.surrendered);
      if CurrentStep(rs) == OpeningOver || seat == 4 then Outcome(rs, false)
      else ApplyOpening(MarkSurrendered(rs, seat), seat, CurrentStep(rs), [], 0, 0, true)
    else if rs.phase == ClaimPhase then
      if rs.candidates == [] then DrawForCurrentTurn(CloseOpeningClaim(ClearClaimWindow(rs)))
      else
        var seat := Best(rs.candidates).seat;
        ApplyPass(MarkSurrendered(rs, seat), seat)
    else if rs.phase == TsumoPhase || rs.phase == DiscardPhase then SurrenderTurn(rs)
    else Outcome(rs, false)
  }

  // ---------- runs ----------

  /** Everything the room may ask of a hand in play; SeatLeaves is a player who walks away. */
  datatype Action =
    | DoExchange(seat: int, tiles: seq<Tile>, wanted: int)
    | DoMissing(seat: int, suit: int)
    | DoDiscard(seat: int, tile: Tile)
    | DoPong(seat: int)
    | DoChi(seat: int, named: seq<Tile>)
    | DoGang(seat: int, tile: Tile)
    | DoHu(seat: int)
    | DoPass(seat: int)
    | DoTimeout
    | SeatLeaves(leaver: Seat)

  ghost function Step(rs: Round, a: Action): Outcome {
    match a
    case DoExchange(seat, ts, wanted) => ApplyOpening(rs, seat, ExchangeStep, ts, wanted, 0, false)
    case DoMissing(seat, suit) => ApplyOpening(rs, seat, MissingStep, [], 0, suit, false)
    case DoDiscard(seat, t) => ApplyDiscard(rs, seat, t)
    case DoPong(seat) => ApplyPong(rs, seat)
    case DoChi(seat, named) => ApplyChi(rs, seat, named)
    case DoGang(seat, t) => ApplyGang(rs, seat, t)
    case DoHu(seat) => ApplyHu(rs, seat, WinFan(rs, seat))
    case DoPass(seat) => ApplyPass(rs, seat)
    case DoTimeout => ApplyTimeout(rs)
    case SeatLeaves(seat) => Outcome(MarkSurrendered(rs, seat), true)
  }

  ghost function Run(rs: Round, acts: seq<Action>): Round
    decreases |acts|
  {
    if acts == [] then rs else Run(Step(rs, acts[0]).rs, acts[1..])
  }

  // ---------- dealing ----------

  function EmptyTable(wall: seq<Tile>, withExchange: bool): Round {
    Round(withExchange, wall, NO_PILES, NO_PILES, NO_PILES, [[], [], [], []],
          Opening(NOTHING_DONE, NOTHING_DONE, NO_PILES, -1, [0, 0, 0, 0]),
          NOTHING_DONE, Idle, NO_TILE, NO_TILE, NO_TILE, NO_SEAT, [], false, 0, NO_TILE,
          0, 0, 0, 0, false, [], [], [], false, false, false)
  }

  function DealOne(rs: Round, seat: Seat): Outcome {
    var (r1, drawn) := DrawPlayable(rs, seat);
    if drawn.None? then Outcome(r1, false)
    else Outcome(r1.(hands := GiveTile(r1.hands, seat, drawn.value)), true)
  }

  /** `n` tiles dealt one at a time around the table. */
  function Deal(rs: Round, n: nat): Outcome {
    if n == 0 then Outcome(rs, true)
    else
      var before := Deal(rs, n - 1);
      if !before.ok then before else DealOne(before.rs, (n - 1) % 4)
  }

  /** Thirteen rounds of dealing, then the first opening step. */
  function StartRound(wall: seq<Tile>, withExchange: bool): Outcome {
    var dealt := Deal(EmptyTable(wall, withExchange), 52);
    if !dealt.ok then dealt else Outcome(dealt.rs.(phase := OpeningPhase), true)
  }
}
