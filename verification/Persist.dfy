/** The record a hand in play is saved as, and the hand read back from it (internal/service/room/engine/engine_persist.go). */
module Persist {
  import opened Tiles
  import opened SichuanWin
  import opened MeldText
  import Sorting
  import opened Rounds
  import opened RoundInv

  /** The four lists that are kept per seat, as texts. */
  type Texts4 = p: seq<seq<string>> | |p| == 4 witness [[], [], [], []]

  datatype SavedCandidate = SavedCandidate(seat: int, actions: seq<string>)

  /** Tiles are texts, "" where there is none; the phase is four flags and a reason number. */
  datatype Record = Record(
    withExchange: bool,
    opening: Opening,
    surrendered: Flags,
    waitingOpening: bool,
    claimWindowOpen: bool,
    waitingTsumo: bool,
    waitingDiscard: bool,
    phaseReason: nat,
    turn: Seat,
    step: nat,
    dealerSeat: Seat,
    openingDrawSeat: SeatOrNone,
    dealerFirstDiscardOpen: bool,
    pendingDraw: string,
    currentDraw: string,
    lastDiscard: string,
    lastDiscardSeat: SeatOrNone,
    candidates: seq<SavedCandidate>,
    qiangGang: bool,
    pendingGangSeat: SeatOrNone,
    pendingGangTile: string,
    wins: seq<WinEvent>,
    scores: seq<ScoreEvent>,
    gangs: seq<GangRecord>,
    lastGangFollowUp: bool,
    lastDiscardAfterGang: bool,
    hands: Texts4,
    discards: Texts4,
    flowers: Texts4,
    melds: Texts4,
    wall: seq<string>)

  // ---------- saving ----------

  function SortTiles(h: seq<Tile>): seq<Tile> { Sorting.Sort(Index, h) }

  function OptionalText(t: Tile): string { if t == NO_TILE then "" else ToText(t) }

  function MeldTexts(ms: seq<Meld>): (r: seq<string>)
    ensures |r| == |ms| && forall i :: 0 <= i < |ms| ==> r[i] == EncodeMeld(KindName(ms[i].kind), ms[i].tiles, ms[i].source)
  {
    seq(|ms|, i requires 0 <= i < |ms| => EncodeMeld(KindName(ms[i].kind), ms[i].tiles, ms[i].source))
  }

  function ActionNames(c: Candidate): seq<string> {
    (if c.hu then ["hu"] else []) + (if c.gang then ["gang"] else [])
    + (if c.pong then ["pong"] else []) + (if c.chi then ["chi"] else [])
  }

  function SaveCandidates(cs: seq<Candidate>): seq<SavedCandidate> {
    if cs == [] then [] else [SavedCandidate(cs[0].seat, ActionNames(cs[0]))] + SaveCandidates(cs[1..])
  }

  function ReasonNumber(p: Phase): nat {
    match p
    case Idle => 0
    case OpeningPhase => 1
    case ClaimPhase => 2
    case TsumoPhase => 3
    case DiscardPhase => 4
  }

  function SortedHands(p: Piles): Piles { [SortTiles(p[0]), SortTiles(p[1]), SortTiles(p[2]), SortTiles(p[3])] }

  function SavePiles(p: Piles): Texts4 { [Texts(p[0]), Texts(p[1]), Texts(p[2]), Texts(p[3])] }

  function SaveMelds(p: MeldTable): Texts4 { [MeldTexts(p[0]), MeldTexts(p[1]), MeldTexts(p[2]), MeldTexts(p[3])] }

  /** Hands are sorted; the discarder is kept only with its tile, the candidates only in a window. */
  function Marshal(rs: Round): Option<Record> {
    if rs.closed then None
    else Some(Record(
      rs.withExchange, rs.opening, rs.surrendered,
      rs.phase == OpeningPhase, rs.phase == ClaimPhase, rs.phase == TsumoPhase, rs.phase == DiscardPhase,
      ReasonNumber(rs.phase), rs.turn, rs.step, rs.dealerSeat, rs.openingDrawSeat, rs.dealerFirstDiscardOpen,
      OptionalText(rs.pendingDraw), OptionalText(rs.currentDraw), OptionalText(rs.lastDiscard),
      if rs.lastDiscard != NO_TILE then rs.lastDiscardSeat else 0,
      if rs.phase == ClaimPhase then SaveCandidates(rs.candidates) else [],
      rs.qiangGang, rs.pendingGangSeat, OptionalText(rs.pendingGangTile),
      rs.wins, rs.scores, rs.gangs, rs.lastGangFollowUp, rs.lastDiscardAfterGang,
      SavePiles(SortedHands(rs.hands)), SavePiles(rs.discards), SavePiles(rs.flowers), SaveMelds(rs.melds),
      Texts(rs.wall)))
  }

  // ---------- restoring ----------

  /** A text that is no tile fails the whole restore. */
  function ParseAll(raws: seq<string>): Option<seq<Tile>> {
    if raws == [] then Some([])
    else
      var first, rest := Parse(raws[0]), ParseAll(raws[1..]);
      if first.None? || rest.None? then None else Some([first.value] + rest.value)
  }

  function ParseFour(p: Texts4): Option<Piles> {
    var a, b, c, d := ParseAll(p[0]), ParseAll(p[1]), ParseAll(p[2]), ParseAll(p[3]);
    if a.Some? && b.Some? && c.Some? && d.Some? then Some([a.value, b.value, c.value, d.value]) else None
  }

  function ParseOptional(raw: string): Option<Tile> { if raw == "" then Some(NO_TILE) else Parse(raw) }

  /** Only flowers are laid beside a seat. */
  function OnlyFlowers(ts: seq<Tile>): seq<Tile> {
    if ts == [] then [] else (if IsFlower(ts[0]) then [ts[0]] else []) + OnlyFlowers(ts[1..])
  }

  /** Melds stay texts in the engine; this is how it reads them. Unreadable ones are passed over. */
  function ReadMelds(raws: seq<string>): seq<Meld> {
    if raws == [] then []
    else
      var fact := ParseMeld(raws[0]);
      (if fact.Some? && KindOf(fact.value.kind).Some? then
         [Meld(KindOf(fact.value.kind).value, fact.value.tiles, fact.value.from)]
       else []) + ReadMelds(raws[1..])
  }

  predicate KnownAction(a: string) { a == "hu" || a == "gang" || a == "pong" }

  /** Priorities are computed anew; a seat or an action that is not known, such as chi, fails the restore. */
  function RestoreCandidates(cs: seq<SavedCandidate>): Option<seq<Candidate>> {
    if cs == [] then Some([])
    else
      var c := cs[0];
      if !(0 <= c.seat < 4) || exists i :: 0 <= i < |c.actions| && !KnownAction(c.actions[i]) then None
      else
        var rest := RestoreCandidates(cs[1..]);
        var hu, gang, pong := "hu" in c.actions, "gang" in c.actions, "pong" in c.actions;
        if rest.None? then None
        else if c.actions == [] then rest
        else Some([Candidate(c.seat, hu, gang, pong, false, Priority(hu, gang, pong))] + rest.value)
  }

  function PhaseOfFlags(r: Record): Phase {
    if r.waitingOpening then OpeningPhase
    else if r.claimWindowOpen then ClaimPhase
    else if r.waitingTsumo then TsumoPhase
    else if r.waitingDiscard then DiscardPhase
    else Idle
  }

  /** The state read back, and the reason that goes with its waiting flags. */
  datatype Restored = Restored(rs: Round, reason: nat)

  /** A missing reason is derived from the flags. */
  function FinalReason(r: Record, rs: Round): nat {
    if r.phaseReason != 0 then r.phaseReason
    else if r.waitingOpening && CurrentStep(rs) == OpeningOver then 0
    else ReasonNumber(PhaseOfFlags(r))
  }

  function FlowersOf(p: Piles): Piles { [OnlyFlowers(p[0]), OnlyFlowers(p[1]), OnlyFlowers(p[2]), OnlyFlowers(p[3])] }

  function MeldsOf(p: Texts4): MeldTable { [ReadMelds(p[0]), ReadMelds(p[1]), ReadMelds(p[2]), ReadMelds(p[3])] }

  datatype Table = Table(wall: seq<Tile>, hands: Piles, discards: Piles, flowers: Piles)

  datatype Singles = Singles(pending: Tile, current: Tile, kong: Tile, last: Tile)

  function DecodeTable(r: Record): Option<Table> {
    var wall, hands := ParseAll(r.wall), ParseFour(r.hands);
    var discards, flowers := ParseFour(r.discards), ParseFour(r.flowers);
    if wall.None? || hands.None? || discards.None? || flowers.None? then None
    else Some(Table(wall.value, hands.value, discards.value, FlowersOf(flowers.value)))
  }

  function DecodeSingles(r: Record): Option<Singles> {
    var pending, current := ParseOptional(r.pendingDraw), ParseOptional(r.currentDraw);
    var kong, last := ParseOptional(r.pendingGangTile), ParseOptional(r.lastDiscard);
    if pending.None? || current.None? || kong.None? || last.None? then None
    else Some(Singles(pending.value, current.value, kong.value, last.value))
  }

  /** The discarder counts only with its tile. */
  function LastSeat(r: Record): SeatOrNone { if r.lastDiscard == "" then NO_SEAT else r.lastDiscardSeat }

  /** The state as the record has it, before anything that is missing is filled in. */
  function Assemble(r: Record, t: Table, x: Singles, candidates: seq<Candidate>): Round {
    Round(
      r.withExchange, t.wall, t.hands, t.discards, t.flowers, MeldsOf(r.melds),
      r.opening, r.surrendered, PhaseOfFlags(r), x.pending, x.current, x.last, LastSeat(r),
      candidates, r.qiangGang, if r.pendingGangSeat < 0 && r.qiangGang then LastSeat(r) else r.pendingGangSeat,
      x.kong, r.turn, r.step, r.dealerSeat, r.openingDrawSeat, r.dealerFirstDiscardOpen,
      r.wins, r.scores, r.gangs, r.lastGangFollowUp, r.lastDiscardAfterGang, false)
  }

  function Decode(r: Record): Option<Round> {
    var t, x, candidates := DecodeTable(r), DecodeSingles(r), RestoreCandidates(r.candidates);
    if t.None? || x.None? || candidates.None? then None else Some(Assemble(r, t.value, x.value, candidates.value))
  }

  ghost function Restore(r: Record): Option<Restored> {
    var decoded := Decode(r);
    if decoded.None? then None
    else if r.claimWindowOpen && decoded.value.candidates == [] then
      var filled := decoded.value.(candidates := BuildCandidates(decoded.value));
      Some(Restored(filled, FinalReason(r, filled)))
    else Some(Restored(decoded.value, FinalReason(r, decoded.value)))
  }

  // ---------- sorting keeps the tiles ----------

  lemma SortCount(h: seq<Tile>, t: Tile)
    ensures Num(SortTiles(h), t) == Num(h, t)
  {
    Sorting.SortCount(Index, h, t);
  }

  lemma SortAscends(h: seq<Tile>)
    ensures forall i :: 0 < i < |SortTiles(h)| ==> Index(SortTiles(h)[i - 1]) <= Index(SortTiles(h)[i])
  {
    Sorting.SortAscends(Index, h);
  }

  // ---------- reading back ----------

  predicate AllValid(ts: seq<Tile>) { forall i :: 0 <= i < |ts| ==> Valid(ts[i]) }

  lemma {:induction false} ParseTexts(ts: seq<Tile>)
    requires AllValid(ts)
    ensures ParseAll(Texts(ts)) == Some(ts)
  {
    if ts != [] {
      TextRoundTrip(ts[0]);
      ParseTexts(ts[1..]);
      assert Texts(ts)[1..] == Texts(ts[1..]);
      assert ts == [ts[0]] + ts[1..];
    }
  }

  lemma OptionalRoundTrip(t: Tile)
    requires Real(t)
    ensures ParseOptional(OptionalText(t)) == Some(t)
    ensures OptionalText(t) == "" <==> t == NO_TILE
  {
    if t != NO_TILE { TextRoundTrip(t); }
  }

  predicate ReadableMeld(m: Meld) { m.tiles != [] && AllValid(m.tiles) && -1 <= m.source < 4 }

  lemma FirstMeldReads(raws: seq<string>, m: Meld)
    requires ReadableMeld(m) && raws != [] && raws[0] == EncodeMeld(KindName(m.kind), m.tiles, m.source)
    ensures ReadMelds(raws) == [m] + ReadMelds(raws[1..])
  {
    MeldRoundTrip(KindName(m.kind), m.tiles, m.source);
    KindRoundTrip(m.kind);
    ReadFirst(raws, MeldFact(KindName(m.kind), m.tiles, m.source), m.kind);
  }

  lemma ReadFirst(raws: seq<string>, fact: MeldFact, kind: MeldKind)
    requires raws != [] && ParseMeld(raws[0]) == Some(fact) && KindOf(fact.kind) == Some(kind)
    ensures ReadMelds(raws) == [Meld(kind, fact.tiles, fact.from)] + ReadMelds(raws[1..])
  {
  }

  lemma {:induction false} MeldsRoundTrip(ms: seq<Meld>)
    requires forall i :: 0 <= i < |ms| ==> ReadableMeld(ms[i])
    ensures ReadMelds(MeldTexts(ms)) == ms
  {
    if ms != [] {
      MeldsRoundTrip(ms[1..]);
      assert MeldTexts(ms)[1..] == MeldTexts(ms[1..]);
      FirstMeldReads(MeldTexts(ms), ms[0]);
      assert ms == [ms[0]] + ms[1..];
    }
  }

  predicate PlainCandidate(c: Candidate) {
    !c.chi && (c.hu || c.gang || c.pong) && c.priority == Priority(c.hu, c.gang, c.pong)
  }

  lemma NamesBack(c: Candidate)
    requires PlainCandidate(c)
    ensures var a := ActionNames(c);
            && a != [] && (forall i :: 0 <= i < |a| ==> KnownAction(a[i]))
            && ("hu" in a <==> c.hu) && ("gang" in a <==> c.gang) && ("pong" in a <==> c.pong)
  {
  }

  lemma {:induction false} CandidatesRoundTrip(cs: seq<Candidate>)
    requires forall i :: 0 <= i < |cs| ==> PlainCandidate(cs[i])
    ensures RestoreCandidates(SaveCandidates(cs)) == Some(cs)
  {
    if cs != [] {
      NamesBack(cs[0]);
      CandidatesRoundTrip(cs[1..]);
      assert SaveCandidates(cs)[1..] == SaveCandidates(cs[1..]);
      assert cs == [cs[0]] + cs[1..];
    }
  }

  // ---------- what a reachable state holds ----------

  lemma WallIsReal(rs: Round)
    requires Stocked(rs)
    ensures AllValid(rs.wall) && Real(rs.pendingDraw)
  {
    forall i | 0 <= i < |rs.wall| ensures Valid(rs.wall[i]) {
      TileIsCounted(rs.wall, i);
      assert Amount(rs, rs.wall[i]) <= Supply(rs.wall[i]);
    }
    assert Amount(rs, rs.pendingDraw) <= Supply(rs.pendingDraw);
  }

  lemma MeldIsReal(rs: Round, s: Seat, i: nat)
    requires Stocked(rs) && i < |rs.melds[s]|
    ensures AllValid(rs.melds[s][i].tiles)
  {
    var m := rs.melds[s][i];
    forall j | 0 <= j < |m.tiles| ensures Valid(m.tiles[j]) {
      var t := m.tiles[j];
      TileIsCounted(m.tiles, j);
      ReplaceMeld(rs.melds[s], i, m, t);
      TableUpdate(rs.melds, s, rs.melds[s], t);
      assert Amount(rs, t) <= Supply(t);
    }
  }

  lemma PilesRoundTrip(p: Piles)
    requires AllValid(p[0]) && AllValid(p[1]) && AllValid(p[2]) && AllValid(p[3])
    ensures ParseFour(SavePiles(p)) == Some(p)
  {
    ParseTexts(p[0]);
    ParseTexts(p[1]);
    ParseTexts(p[2]);
    ParseTexts(p[3]);
    assert p == [p[0], p[1], p[2], p[3]];
  }

  lemma SortedIsReal(h: seq<Tile>)
    requires AllValid(h)
    ensures AllValid(SortTiles(h))
  {
    var sorted := SortTiles(h);
    forall i | 0 <= i < |sorted| ensures Valid(sorted[i]) {
      TileIsCounted(sorted, i);
      SortCount(h, sorted[i]);
      NumMember(h, sorted[i]);
    }
  }

  lemma HandsRoundTrip(rs: Round)
    requires Stocked(rs)
    ensures ParseFour(SavePiles(SortedHands(rs.hands))) == Some(SortedHands(rs.hands))
  {
    forall s: Seat ensures AllValid(SortedHands(rs.hands)[s]) {
      PileIsReal(rs, rs.hands, s);
      SortedIsReal(rs.hands[s]);
    }
    PilesRoundTrip(SortedHands(rs.hands));
  }

  lemma TableRoundTrip(rs: Round, r: Record)
    requires Stocked(rs) && rs.flowers == NO_PILES
    requires r.wall == Texts(rs.wall) && r.hands == SavePiles(SortedHands(rs.hands))
    requires r.discards == SavePiles(rs.discards) && r.flowers == SavePiles(rs.flowers)
    ensures DecodeTable(r) == Some(Table(rs.wall, SortedHands(rs.hands), rs.discards, rs.flowers))
  {
    HandsRoundTrip(rs);
    forall s: Seat ensures AllValid(rs.discards[s]) { PileIsReal(rs, rs.discards, s); }
    PilesRoundTrip(rs.discards);
    PilesRoundTrip(NO_PILES);
    assert FlowersOf(NO_PILES) == NO_PILES;
    WallIsReal(rs);
    ParseTexts(rs.wall);
  }

  lemma SeatMeldsRoundTrip(rs: Round, s: Seat)
    requires Stocked(rs) && MeldsOk(rs.melds)
    ensures ReadMelds(MeldTexts(rs.melds[s])) == rs.melds[s]
  {
    forall i | 0 <= i < |rs.melds[s]| ensures ReadableMeld(rs.melds[s][i]) {
      MeldIsReal(rs, s, i);
      assert MeldOk(rs.melds[s][i]);
    }
    MeldsRoundTrip(rs.melds[s]);
  }

  lemma FourRead(t: Texts4, m: MeldTable)
    requires ReadMelds(t[0]) == m[0] && ReadMelds(t[1]) == m[1] && ReadMelds(t[2]) == m[2] && ReadMelds(t[3]) == m[3]
    ensures MeldsOf(t) == m
  {
    assert m == [m[0], m[1], m[2], m[3]];
  }

  lemma MeldTableRoundTrip(rs: Round)
    requires Stocked(rs) && MeldsOk(rs.melds)
    ensures MeldsOf(SaveMelds(rs.melds)) == rs.melds
  {
    SeatMeldsRoundTrip(rs, 0);
    SeatMeldsRoundTrip(rs, 1);
    SeatMeldsRoundTrip(rs, 2);
    SeatMeldsRoundTrip(rs, 3);
    FourRead(SaveMelds(rs.melds), rs.melds);
  }

  lemma SinglesRoundTrip(rs: Round, r: Record)
    requires Inv(rs)
    requires r.pendingDraw == OptionalText(rs.pendingDraw) && r.currentDraw == OptionalText(rs.currentDraw)
    requires r.pendingGangTile == OptionalText(rs.pendingGangTile) && r.lastDiscard == OptionalText(rs.lastDiscard)
    requires rs.lastDiscard != NO_TILE ==> r.lastDiscardSeat == rs.lastDiscardSeat
    ensures DecodeSingles(r) == Some(Singles(rs.pendingDraw, rs.currentDraw, rs.pendingGangTile, rs.lastDiscard))
    ensures LastSeat(r) == rs.lastDiscardSeat
  {
    WallIsReal(rs);
    OptionalRoundTrip(rs.pendingDraw);
    OptionalRoundTrip(rs.currentDraw);
    OptionalRoundTrip(rs.pendingGangTile);
    OptionalRoundTrip(rs.lastDiscard);
  }

  lemma ClaimsRoundTrip(rs: Round)
    requires Inv(rs)
    ensures RestoreCandidates(if rs.phase == ClaimPhase then SaveCandidates(rs.candidates) else []) == Some(rs.candidates)
    ensures rs.qiangGang ==> rs.pendingGangSeat >= 0
  {
    if rs.phase == ClaimPhase {
      forall i | 0 <= i < |rs.candidates| ensures PlainCandidate(rs.candidates[i]) {
        assert CandidateOk(rs, rs.candidates[i]);
      }
      CandidatesRoundTrip(rs.candidates);
    }
  }

  lemma AssembledIsSame(rs: Round, r: Record, t: Table, x: Singles)
    requires !rs.closed && Some(r) == Marshal(rs) && MeldsOf(r.melds) == rs.melds && LastSeat(r) == rs.lastDiscardSeat
    requires t == Table(rs.wall, SortedHands(rs.hands), rs.discards, rs.flowers)
    requires x == Singles(rs.pendingDraw, rs.currentDraw, rs.pendingGangTile, rs.lastDiscard)
    requires rs.qiangGang ==> rs.pendingGangSeat >= 0
    ensures Assemble(r, t, x, rs.candidates) == rs.(hands := SortedHands(rs.hands))
  {
    assert PhaseOfFlags(r) == rs.phase;
  }

  lemma DecodeMarshal(rs: Round, r: Record)
    requires Inv(rs) && !rs.closed && Some(r) == Marshal(rs)
    ensures Decode(r) == Some(rs.(hands := SortedHands(rs.hands)))
  {
    TableRoundTrip(rs, r);
    MeldTableRoundTrip(rs);
    SinglesRoundTrip(rs, r);
    ClaimsRoundTrip(rs);
    AssembledIsSame(rs, r, DecodeTable(r).value, DecodeSingles(r).value);
  }

  /**
   * A saved hand is read back as it was: every field, the order of the wall, the melds and the claim
   * priorities; only the tiles in each hand are in index order.
   */
  lemma RestoreMarshal(rs: Round)
    requires Inv(rs) && !rs.closed
    ensures Restore(Marshal(rs).value) == Some(Restored(rs.(hands := SortedHands(rs.hands)), ReasonNumber(rs.phase)))
  {
    DecodeMarshal(rs, Marshal(rs).value);
  }
}
