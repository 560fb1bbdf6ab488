/** What a Sichuan win is worth (internal/mahjong/sichuan/xuezhandaodi/xzdd.go). */
module SichuanScore {
  import opened Tiles
  import opened Blocks
  import opened HandForm
  import opened SichuanWin

  /** The circumstances of a win that the fan table asks for. */
  datatype Scene = Scene(
    dealer: bool,
    tsumo: bool,
    openingDraw: bool,
    dealerFirstDiscard: bool,
    kongs: nat,
    concealedKongs: nat,
    robbedKongOnRecord: bool,
    afterKong: bool,
    kongDiscard: bool,
    lastTile: bool)

  // ---------- the winning table ----------

  /** How many tiles of index i lie in the melds. */
  function MeldAt(ms: seq<Meld>, i: nat): nat {
    if ms == [] then 0
    else MeldAt(ms[..|ms| - 1], i) + if |ms[|ms| - 1].tiles| >= 3 then NumAt(ms[|ms| - 1].tiles, i) else 0
  }

  /** The hand, the winning tile and the melds, all in one table. */
  function WinTable(h: seq<Tile>, target: Tile, ms: seq<Meld>): Counts {
    seq(KINDS, i requires 0 <= i < KINDS => NumAt(h, i) + (if Index(target) == i then 1 else 0) + MeldAt(ms, i))
  }

  lemma WinTableSameBag(g: seq<Tile>, h: seq<Tile>, target: Tile, ms: seq<Meld>)
    requires SameTiles(g, h)
    ensures WinTable(g, target, ms) == WinTable(h, target, ms)
  {
    forall i: nat | i < KINDS ensures NumAt(g, i) == NumAt(h, i) { NumAtSame(g, h, i); }
  }

  method AddTiles(c: Counts, ts: seq<Tile>) returns (r: Counts)
    ensures forall i: nat :: i < KINDS ==> r[i] == c[i] + NumAt(ts, i)
  {
    var more := Count(ts);
    r := seq(KINDS, i requires 0 <= i < KINDS => c[i] + more[i]);
  }

  method BuildWinTable(h: seq<Tile>, target: Tile, ms: seq<Meld>) returns (c: Counts)
    ensures c == WinTable(h, target, ms)
  {
    c := Count(h);
    if 0 <= Index(target) < KINDS { c := Plus(c, Index(target)); }
    ghost var closed := c;
    for k := 0 to |ms|
      invariant forall i: nat :: i < KINDS ==> c[i] == closed[i] + MeldAt(ms[..k], i)
    {
      assert ms[..k + 1][..k] == ms[..k];
      if |ms[k].tiles| >= 3 { c := AddTiles(c, ms[k].tiles); }
    }
    assert ms[..|ms|] == ms;
  }

  // ---------- shapes ----------

  /** How many of the first n kinds have exactly v tiles. */
  function KindsWith(c: Counts, v: nat, n: nat): nat
    requires n <= KINDS
  {
    if n == 0 then 0 else KindsWith(c, v, n - 1) + if c[n - 1] == v then 1 else 0
  }

  /** One pair, or four of a kind in its place; everything else in triplets. */
  predicate IsDuiDuiHu(c: Counts) {
    && (forall k :: 0 <= k < KINDS ==> c[k] == 0 || 2 <= c[k] <= 4)
    && KindsWith(c, 2, KINDS) + KindsWith(c, 4, KINDS) == 1
  }

  predicate IsJiangDui(c: Counts) {
    IsDuiDuiHu(c) && forall k :: 0 <= k < KINDS && c[k] > 0 ==> k % 9 == 1 || k % 9 == 4 || k % 9 == 7
  }

  predicate HasSuit(c: Counts, suit: nat)
    requires suit <= 2
  {
    exists k :: 9 * suit <= k < 9 * suit + 9 && c[k] > 0
  }

  /** The suited tiles are of one suit. */
  predicate IsQingYiSe(c: Counts) {
    (if HasSuit(c, 0) then 1 else 0) + (if HasSuit(c, 1) then 1 else 0) + (if HasSuit(c, 2) then 1 else 0) == 1
  }

  method CountKinds(c: Counts, v: nat) returns (n: nat)
    ensures n == KindsWith(c, v, KINDS)
  {
    n := 0;
    for k := 0 to KINDS
      invariant n == KindsWith(c, v, k)
    {
      if c[k] == v { n := n + 1; }
    }
  }

  method CheckDuiDuiHu(c: Counts) returns (ok: bool)
    ensures ok == IsDuiDuiHu(c)
  {
    var pairs := 0;
    for k := 0 to KINDS
      invariant pairs == KindsWith(c, 2, k) + KindsWith(c, 4, k)
      invariant forall m :: 0 <= m < k ==> c[m] == 0 || 2 <= c[m] <= 4
    {
      if c[k] == 1 || c[k] > 4 { return false; }
      if c[k] == 2 || c[k] == 4 { pairs := pairs + 1; }
    }
    return pairs == 1;
  }

  method CheckJiangDui(c: Counts) returns (ok: bool)
    ensures ok == IsJiangDui(c)
  {
    var duiDui := CheckDuiDuiHu(c);
    if !duiDui { return false; }
    for k := 0 to KINDS
      invariant forall m :: 0 <= m < k && c[m] > 0 ==> m % 9 == 1 || m % 9 == 4 || m % 9 == 7
    {
      if c[k] > 0 && k % 9 != 1 && k % 9 != 4 && k % 9 != 7 { return false; }
    }
    return true;
  }

  method CheckQingYiSe(c: Counts) returns (ok: bool)
    ensures ok == IsQingYiSe(c)
  {
    var suits := 0;
    for s := 0 to 3
      invariant suits == (if s > 0 && HasSuit(c, 0) then 1 else 0) + (if s > 1 && HasSuit(c, 1) then 1 else 0)
                         + (if s > 2 && HasSuit(c, 2) then 1 else 0)
    {
      var some := SuitIsThere(c, s);
      if some { suits := suits + 1; }
    }
    return suits == 1;
  }

  method SuitIsThere(c: Counts, suit: nat) returns (ok: bool)
    requires suit <= 2
    ensures ok == HasSuit(c, suit)
  {
    for r := 0 to 9
      invariant forall k :: 9 * suit <= k < 9 * suit + r ==> c[k] == 0
    {
      if c[9 * suit + r] > 0 { return true; }
    }
    return false;
  }

  // ---------- the fan table ----------

  /** A win with the first draw, or on the dealer's first discard. */
  predicate SpecialOpening(sc: Scene) {
    (sc.dealer && sc.tsumo && sc.openingDraw) || (!sc.dealer && !sc.tsumo && sc.dealerFirstDiscard)
  }

  ghost predicate LongQiDui(c: Counts) { IsSevenPairs(c) && KindsWith(c, 4, KINDS) > 0 }

  ghost function ShapeFan(c: Counts): nat {
    if LongQiDui(c) then 8
    else if IsSevenPairs(c) then 4
    else if IsJiangDui(c) then 4
    else if IsDuiDuiHu(c) then 2
    else 1
  }

  function KongFan(sc: Scene): nat {
    if sc.kongs >= 4 then 16 else sc.concealedKongs + if sc.concealedKongs >= 2 then 1 else 0
  }

  function SceneFan(sc: Scene): nat {
    (if sc.afterKong then 1 else 0) + (if sc.kongDiscard then 1 else 0) + (if sc.lastTile then 1 else 0)
    + (if sc.robbedKongOnRecord then 1 else 0)
  }

  /** The total of a win; whatever the hand and the circumstances, it is worth something. */
  ghost function FanTotal(c: Counts, sc: Scene): (n: nat)
    ensures n >= 1
    ensures SpecialOpening(sc) || LongQiDui(c) ==> n >= 8
  {
    (if SpecialOpening(sc) then 8 else ShapeFan(c)) + (if IsQingYiSe(c) then 4 else 0)
    + (if LongQiDui(c) then 0 else KindsWith(c, 4, KINDS)) + SceneFan(sc) + KindsWith(c, 3, KINDS) + KongFan(sc)
  }

  method ScoreShape(c: Counts, sevenPairs: bool, gen: nat) returns (n: nat)
    requires sevenPairs == IsSevenPairs(c) && gen == KindsWith(c, 4, KINDS)
    ensures n == ShapeFan(c)
  {
    if sevenPairs { return if gen > 0 then 8 else 4; }
    var jiang := CheckJiangDui(c);
    if jiang { return 4; }
    var duiDui := CheckDuiDuiHu(c);
    return if duiDui then 2 else 1;
  }

  method ScoreScene(sc: Scene) returns (n: nat)
    ensures n == SceneFan(sc)
  {
    n := 0;
    if sc.afterKong { n := n + 1; }
    if sc.kongDiscard { n := n + 1; }
    if sc.lastTile { n := n + 1; }
    if sc.robbedKongOnRecord { n := n + 1; }
  }

  /** Adds up the table entry by entry. */
  method ScoreFans(c: Counts, sc: Scene) returns (total: nat)
    ensures total == FanTotal(c, sc)
  {
    var gen := CountKinds(c, 4);
    var sevenPairs := SevenPairs(c);
    var shape := ScoreShape(c, sevenPairs, gen);
    total := if SpecialOpening(sc) then 8 else shape;
    var oneSuit := CheckQingYiSe(c);
    if oneSuit { total := total + 4; }
    if !(sevenPairs && gen > 0) { total := total + gen; }
    var scene := ScoreScene(sc);
    var triplets := CountKinds(c, 3);
    total := total + scene + triplets + KongFan(sc);
  }

  // ---------- what each entry is worth ----------

  /** The kinds of which the table has exactly v tiles. */
  function KindsOf(c: Counts, v: nat, n: nat): set<nat>
    requires n <= KINDS
  {
    set k: nat | k < n && c[k] == v
  }

  lemma {:induction false} KindsAreCounted(c: Counts, v: nat, n: nat)
    requires n <= KINDS
    ensures KindsWith(c, v, n) == |KindsOf(c, v, n)|
  {
    if n > 0 {
      KindsAreCounted(c, v, n - 1);
      var before := KindsOf(c, v, n - 1);
      assert KindsOf(c, v, n) == if c[n - 1] == v then before + {n - 1} else before;
    }
  }

  /** No tile of another suit lies beside the suited ones, and there are some. */
  predicate OneSuitOnly(c: Counts) {
    exists suit: nat :: suit <= 2 && HasSuit(c, suit) && forall other: nat :: other <= 2 && other != suit ==> !HasSuit(c, other)
  }

  lemma OneSuitIs(c: Counts)
    ensures IsQingYiSe(c) <==> OneSuitOnly(c)
  {
    if IsQingYiSe(c) {
      var suit := if HasSuit(c, 0) then 0 else if HasSuit(c, 1) then 1 else 2;
      assert HasSuit(c, suit) && forall other: nat :: other <= 2 && other != suit ==> !HasSuit(c, other);
    }
  }

  /** Eight for seven pairs with four of a kind, four for seven pairs or triplets of 2, 5 and 8, two for triplets. */
  ghost predicate ShapeWorth(c: Counts, n: nat) {
    if IsSevenPairs(c) then n == if KindsOf(c, 4, KINDS) != {} then 8 else 4
    else if IsDuiDuiHu(c) then n == if forall k :: 0 <= k < KINDS && c[k] > 0 ==> k % 9 in {1, 4, 7} then 4 else 2
    else n == 1
  }

  /** Four for one suit, one for each triplet and each four of a kind that is not part of the pairs. */
  ghost predicate TilesWorth(c: Counts, n: nat) {
    n == (if OneSuitOnly(c) then 4 else 0) + |KindsOf(c, 3, KINDS)|
         + if IsSevenPairs(c) && KindsOf(c, 4, KINDS) != {} then 0 else |KindsOf(c, 4, KINDS)|
  }

  /** A win under no special circumstances. */
  const PLAIN: Scene := Scene(false, false, false, false, 0, 0, false, false, false, false)

  /** What the tiles alone are worth; with the first draw or on the dealer's first discard eight replace the shape. */
  lemma TilesAreWorth(c: Counts, shape: nat, tiles: nat)
    requires ShapeWorth(c, shape) && TilesWorth(c, tiles)
    ensures FanTotal(c, PLAIN) == shape + tiles
    ensures FanTotal(c, PLAIN.(dealer := true, tsumo := true, openingDraw := true)) == 8 + tiles
    ensures FanTotal(c, PLAIN.(dealerFirstDiscard := true)) == 8 + tiles
  {
    KindsAreCounted(c, 3, KINDS);
    KindsAreCounted(c, 4, KINDS);
    OneSuitIs(c);
    assert KindsOf(c, 4, KINDS) == {} <==> |KindsOf(c, 4, KINDS)| == 0;
  }

  /** Two scenes that differ in the kongs and the marks only. */
  predicate SameOpening(a: Scene, b: Scene) {
    a.dealer == b.dealer && a.tsumo == b.tsumo && a.openingDraw == b.openingDraw && a.dealerFirstDiscard == b.dealerFirstDiscard
  }

  lemma DifferByCircumstances(c: Counts, a: Scene, b: Scene)
    requires SameOpening(a, b)
    ensures FanTotal(c, a) - FanTotal(c, b) == SceneFan(a) + KongFan(a) - (SceneFan(b) + KongFan(b))
  {
  }

  /** Drawn or won on after a kong, on the last tile, or with a robbed kong on record: each adds one. */
  lemma MarksAreWorth(c: Counts, sc: Scene, none: Scene)
    requires none == sc.(afterKong := false, kongDiscard := false, lastTile := false, robbedKongOnRecord := false)
    ensures FanTotal(c, sc) == FanTotal(c, none) + (if sc.afterKong then 1 else 0) + (if sc.kongDiscard then 1 else 0)
      + (if sc.lastTile then 1 else 0) + if sc.robbedKongOnRecord then 1 else 0
  {
    DifferByCircumstances(c, sc, none);
  }

  /** Four kongs add sixteen; fewer add one for each concealed one, and one more for the second. */
  lemma KongsAreWorth(c: Counts, sc: Scene, none: Scene)
    requires none == sc.(kongs := 0, concealedKongs := 0)
    ensures sc.kongs >= 4 ==> FanTotal(c, sc) == FanTotal(c, none) + 16
    ensures sc.kongs < 4 ==> FanTotal(c, sc) == FanTotal(c, none) + sc.concealedKongs + if sc.concealedKongs >= 2 then 1 else 0
  {
    DifferByCircumstances(c, sc, none);
  }
}
