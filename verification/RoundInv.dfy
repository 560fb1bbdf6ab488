/** What every reachable state of a hand looks like. */
module RoundInv {
  import opened Tiles
  import opened SichuanWin
  import opened Rounds

  // ---------- where the tiles are ----------

  function NumAll(p: seq<seq<Tile>>, t: Tile): nat {
    if p == [] then 0 else Num(p[0], t) + NumAll(p[1..], t)
  }

  function NumMelds(ms: seq<Meld>, t: Tile): nat {
    if ms == [] then 0 else Num(ms[0].tiles, t) + NumMelds(ms[1..], t)
  }

  function NumTable(p: seq<seq<Meld>>, t: Tile): nat {
    if p == [] then 0 else NumMelds(p[0], t) + NumTable(p[1..], t)
  }

  function NumPending(x: Tile, t: Tile): nat { if x == t && t != NO_TILE then 1 else 0 }

  /** How many tiles of kind t are in the wall, the hands, the piles, the flowers, the melds or just drawn. */
  function Amount(rs: Round, t: Tile): nat {
    Num(rs.wall, t) + NumAll(rs.hands, t) + NumAll(rs.discards, t) + NumAll(rs.flowers, t)
    + NumTable(rs.melds, t) + NumPending(rs.pendingDraw, t)
  }

  ghost predicate Stocked(rs: Round) {
    forall t: Tile :: Amount(rs, t) <= Supply(t)
  }

  // ---------- coherence ----------

  predicate AllSame(ts: seq<Tile>, n: nat) { |ts| == n && forall i :: 0 <= i < n ==> ts[i] == ts[0] }

  predicate MeldOk(m: Meld) {
    && -1 <= m.source < 4
    && match m.kind
       case Pong => AllSame(m.tiles, 3)
       case Chi => |m.tiles| == 3
       case _ => AllSame(m.tiles, 4)
  }

  predicate MeldsOk(p: MeldTable) {
    forall s, i :: 0 <= s < 4 && 0 <= i < |p[s]| ==> MeldOk(p[s][i])
  }

  /** Points move between two different seats. */
  predicate IsTransfer(e: ScoreEvent) { 0 <= e.payer < 4 && 0 <= e.payee < 4 && e.payer != e.payee && e.amount > 0 }

  predicate AllTransfers(es: seq<ScoreEvent>) { forall i :: 0 <= i < |es| ==> IsTransfer(es[i]) }

  predicate WinnersDistinct(ws: seq<WinEvent>) {
    forall i, j :: 0 <= i < j < |ws| ==> ws[i].seat != ws[j].seat
  }

  /** A candidate may still play, is not the one who laid the tile, and can do what it is offered. */
  predicate CandidateOk(rs: Round, c: Candidate) {
    && c.seat != rs.lastDiscardSeat && !HasWon(rs, c.seat)
    && !c.chi && (c.hu || c.gang || c.pong) && c.priority == Priority(c.hu, c.gang, c.pong)
    && (c.gang ==> Num(rs.hands[c.seat], rs.lastDiscard) >= 3)
    && (c.pong ==> Num(rs.hands[c.seat], rs.lastDiscard) >= 2)
    && (rs.qiangGang ==> !c.gang && !c.pong)
  }

  predicate CandidatesOk(rs: Round) {
    && (forall i :: 0 <= i < |rs.candidates| ==> CandidateOk(rs, rs.candidates[i]))
    && forall i, j :: 0 <= i < j < |rs.candidates| ==> rs.candidates[i].seat != rs.candidates[j].seat
  }

  /** A tile was discarded and is on offer, or an added kong waits for the pong it extends. */
  predicate OfferedTileOk(rs: Round) {
    && rs.lastDiscard != NO_TILE && 0 <= rs.lastDiscardSeat
    && if rs.qiangGang then
         && rs.pendingGangSeat == rs.lastDiscardSeat == rs.turn && rs.pendingGangTile == rs.lastDiscard
         && HasFullPong(rs.melds[rs.turn], rs.lastDiscard)
       else
         && rs.currentDraw == NO_TILE && rs.wall != []
         && var pile := rs.discards[rs.lastDiscardSeat]; pile != [] && pile[|pile| - 1] == rs.lastDiscard
  }

  ghost predicate OpeningOk(rs: Round) {
    && !rs.closed && rs.wins == [] && rs.wall != [] && rs.currentDraw == NO_TILE
    && (CurrentStep(rs) == ExchangeStep ==> rs.opening.missingDone == NOTHING_DONE)
    && forall s: Seat :: SelectionOk(rs, s)
  }

  /** What a seat has put aside for the exchange is still in its hand. */
  ghost predicate SelectionOk(rs: Round, s: Seat) {
    Within(rs.opening.selections[s], rs.hands[s])
  }

  /** The records that hold in every phase. */
  predicate RecordsOk(rs: Round) {
    && |rs.wins| <= 3 && WinnersDistinct(rs.wins) && MeldsOk(rs.melds) && AllTransfers(rs.scores) && !RobbedKongOnRecord(rs.gangs)
    && (rs.lastDiscard == NO_TILE ==> rs.lastDiscardSeat == NO_SEAT)
    && Real(rs.lastDiscard) && Real(rs.currentDraw) && rs.flowers == NO_PILES
  }

  ghost predicate Coherent(rs: Round) {
    && RecordsOk(rs) && (!rs.closed ==> |rs.wins| < 3)
    && (rs.pendingDraw != NO_TILE <==> rs.phase == TsumoPhase)
    && (rs.candidates != [] <==> rs.phase == ClaimPhase)
    && (rs.closed ==> rs.phase == Idle)
    && (rs.phase == ClaimPhase ==> OfferedTileOk(rs) && CandidatesOk(rs))
    && (rs.qiangGang ==> rs.phase == ClaimPhase)
    && (rs.pendingGangTile != NO_TILE ==> rs.qiangGang)
    && (rs.phase == OpeningPhase ==> OpeningOk(rs))
    && (rs.phase == OpeningPhase <==> !rs.closed && CurrentStep(rs) != OpeningOver)
  }

  ghost predicate Inv(rs: Round) { Coherent(rs) && Stocked(rs) }

  // ---------- counting ----------

  lemma {:induction false} PileUpdate(p: seq<seq<Tile>>, s: nat, h: seq<Tile>, t: Tile)
    requires s < |p|
    ensures NumAll(p[s := h], t) + Num(p[s], t) == NumAll(p, t) + Num(h, t)
    ensures NumAll(p, t) >= Num(p[s], t)
  {
    if s > 0 {
      PileUpdate(p[1..], s - 1, h, t);
      assert p[s := h][1..] == p[1..][s - 1 := h];
    } else {
      assert p[0 := h][1..] == p[1..];
    }
  }

  lemma GiveCount(p: Piles, s: Seat, x: Tile, t: Tile)
    ensures NumAll(GiveTile(p, s, x), t) == NumAll(p, t) + (if x == t then 1 else 0)
  {
    PileUpdate(p, s, p[s] + [x], t);
    NumAppend(p[s], x, t);
  }

  lemma {:induction false} AppendMeld(ms: seq<Meld>, m: Meld, t: Tile)
    ensures NumMelds(ms + [m], t) == NumMelds(ms, t) + Num(m.tiles, t)
  {
    if ms == [] {
      assert ms + [m] == [m];
    } else {
      AppendMeld(ms[1..], m, t);
      assert (ms + [m])[1..] == ms[1..] + [m];
    }
  }

  lemma {:induction false} ReplaceMeld(ms: seq<Meld>, i: nat, m: Meld, t: Tile)
    requires i < |ms|
    ensures NumMelds(ms[i := m], t) + Num(ms[i].tiles, t) == NumMelds(ms, t) + Num(m.tiles, t)
    ensures NumMelds(ms, t) >= Num(ms[i].tiles, t)
  {
    if i > 0 {
      ReplaceMeld(ms[1..], i - 1, m, t);
      assert ms[i := m][1..] == ms[1..][i - 1 := m];
    } else {
      assert ms[0 := m][1..] == ms[1..];
    }
  }

  lemma {:induction false} TableUpdate(p: seq<seq<Meld>>, s: nat, ms: seq<Meld>, t: Tile)
    requires s < |p|
    ensures NumTable(p[s := ms], t) + NumMelds(p[s], t) == NumTable(p, t) + NumMelds(ms, t)
    ensures NumTable(p, t) >= NumMelds(p[s], t)
  {
    if s > 0 {
      TableUpdate(p[1..], s - 1, ms, t);
      assert p[s := ms][1..] == p[1..][s - 1 := ms];
    } else {
      assert p[0 := ms][1..] == p[1..];
    }
  }

  lemma HandChange(rs: Round, s: Seat, h: seq<Tile>, t: Tile)
    ensures Amount(rs.(hands := rs.hands[s := h]), t) + Num(rs.hands[s], t) == Amount(rs, t) + Num(h, t)
  {
    PileUpdate(rs.hands, s, h, t);
  }

  lemma RecordMeldCount(rs: Round, s: Seat, m: Meld, t: Tile)
    ensures Amount(RecordMeld(rs, s, m), t) == Amount(rs, t) + Num(m.tiles, t)
  {
    AppendMeld(rs.melds[s], m, t);
    TableUpdate(rs.melds, s, rs.melds[s] + [m], t);
  }

  lemma NumFirst(h: seq<Tile>, t: Tile)
    requires h != []
    ensures Num(h, t) == (if h[0] == t then 1 else 0) + Num(h[1..], t)
  {
  }

  /** Taking tiles one by one succeeds exactly when the hand holds them all, and takes just those. */
  lemma {:induction false} RemoveEachTakes(h: seq<Tile>, ts: seq<Tile>)
    ensures RemoveEach(h, ts).1 <==> Within(ts, h)
    ensures RemoveEach(h, ts).1 ==> |RemoveEach(h, ts).0| == |h| - |ts|
    ensures RemoveEach(h, ts).1 ==> forall t: Tile :: Num(RemoveEach(h, ts).0, t) == Num(h, t) - Num(ts, t)
    decreases |ts|
  {
    if ts != [] {
      NumMember(h, ts[0]);
      NumFirst(ts, ts[0]);
      if ts[0] in h {
        var h1 := RemoveOne(h, ts[0]);
        RemoveLength(h, ts[0]);
        RemoveEachTakes(h1, ts[1..]);
        forall t: Tile ensures Num(h1, t) - Num(ts[1..], t) == Num(h, t) - Num(ts, t) {
          NumRemove(h, ts[0], t);
          NumFirst(ts, t);
        }
      }
    }
  }

  /** Skipping what is missing makes no difference when nothing is missing. */
  lemma {:induction false} RemoveAllTakes(h: seq<Tile>, ts: seq<Tile>)
    requires Within(ts, h)
    ensures RemoveAll(h, ts) == RemoveEach(h, ts).0 && RemoveEach(h, ts).1
    decreases |ts|
  {
    RemoveEachTakes(h, ts);
    if ts != [] {
      NumMember(h, ts[0]);
      NumFirst(ts, ts[0]);
      RemoveEachTakes(RemoveOne(h, ts[0]), ts[1..]);
      RemoveAllTakes(RemoveOne(h, ts[0]), ts[1..]);
    }
  }

  /** n copies of one tile. */
  lemma {:induction false} NumSame(ts: seq<Tile>, x: Tile, t: Tile)
    requires forall i :: 0 <= i < |ts| ==> ts[i] == x
    ensures Num(ts, t) == if t == x then |ts| else 0
  {
    if ts != [] { NumSame(ts[1..], x, t); }
  }

  /** A wall that stays within the supply holds no flowers, so one draw takes its first tile. */
  lemma DrawTakesFirst(rs: Round, seat: Seat)
    requires Stocked(rs) && rs.wall != []
    ensures DrawPlayable(rs, seat) == (rs.(wall := rs.wall[1..]), Some(rs.wall[0]))
    ensures rs.wall[0] != NO_TILE && Valid(rs.wall[0])
  {
    var t := rs.wall[0];
    assert 1 <= Amount(rs, t) <= Supply(t);
  }

  lemma TileIsCounted(h: seq<Tile>, i: nat)
    requires i < |h|
    ensures Num(h, h[i]) > 0
  {
    NumMember(h, h[i]);
  }

  /** Every tile of a hand or a pile is one of the tiles on the table. */
  lemma PileIsReal(rs: Round, p: Piles, s: Seat)
    requires Stocked(rs) && (p == rs.hands || p == rs.discards)
    ensures forall i :: 0 <= i < |p[s]| ==> Valid(p[s][i])
  {
    forall i | 0 <= i < |p[s]| ensures Valid(p[s][i]) {
      var t := p[s][i];
      TileIsCounted(p[s], i);
      PileUpdate(p, s, p[s], t);
      assert Amount(rs, t) <= Supply(t);
    }
  }

  lemma HeldIsReal(rs: Round, s: Seat, t: Tile)
    requires Stocked(rs) && t in rs.hands[s]
    ensures Valid(t)
  {
    PileIsReal(rs, rs.hands, s);
  }
}
