/** Walls that deal given hands: how a hand of a given shape comes about from the 108 tiles. */
module Deals {
  import opened Tiles
  import opened Blocks
  import opened HandForm
  import opened SichuanWin
  import opened Walls
  import opened Rounds
  import opened RoundInv
  import opened RoundTiles
  import opened RoundRuns

  // ---------- hands from count tables ----------

  function Copies(t: Tile, n: nat): (r: seq<Tile>)
    ensures |r| == n && forall i :: 0 <= i < n ==> r[i] == t
  {
    seq(n, _ => t)
  }

  /** c[i] copies of ks[i] for each of the first n places, in order. */
  function LaidOut(ks: seq<Tile>, c: Counts, n: nat): seq<Tile>
    requires |ks| == KINDS && n <= KINDS
  {
    if n == 0 then [] else LaidOut(ks, c, n - 1) + Copies(ks[n - 1], c[n - 1])
  }

  function AllKinds(): (ks: seq<Tile>)
    ensures |ks| == KINDS && forall i :: 0 <= i < KINDS ==> ks[i] == TileAt(i)
  {
    seq(KINDS, i requires 0 <= i < KINDS => TileAt(i))
  }

  /** c[i] tiles of each of the first n kinds, in index order. */
  function Laid(c: Counts, n: nat): seq<Tile>
    requires n <= KINDS
  {
    LaidOut(AllKinds(), c, n)
  }

  predicate KindBelow(t: Tile, n: nat) { Valid(t) && 0 <= Index(t) < n }

  /** How many tiles t the table has among the first n kinds. */
  function InTable(c: Counts, n: nat, t: Tile): nat
    requires n <= KINDS
  {
    if KindBelow(t, n) then c[Index(t)] else 0
  }

  lemma {:induction false} LaidOutCount(ks: seq<Tile>, c: Counts, n: nat, t: Tile, at: int)
    requires |ks| == KINDS && n <= KINDS && forall i :: 0 <= i < KINDS ==> (ks[i] == t <==> i == at)
    ensures Num(LaidOut(ks, c, n), t) == if 0 <= at < n then c[at] else 0
  {
    if n > 0 {
      LaidOutCount(ks, c, n - 1, t, at);
      var more := Copies(ks[n - 1], c[n - 1]);
      NumSame(more, ks[n - 1], t);
      NumConcat(LaidOut(ks, c, n - 1), more, t);
    }
  }

  lemma KindIs(t: Tile, i: nat)
    requires i < KINDS
    ensures TileAt(i) == t <==> KindBelow(t, KINDS) && Index(t) == i
  {
    IndexIsReal(i);
    if Valid(t) { RealIndex(t); }
  }

  lemma LaidCount(c: Counts, n: nat, t: Tile)
    requires n <= KINDS
    ensures Num(Laid(c, n), t) == InTable(c, n, t)
  {
    var ks, at := AllKinds(), if KindBelow(t, KINDS) then Index(t) else -1;
    forall i | 0 <= i < KINDS ensures ks[i] == t <==> i == at { KindIs(t, i); }
    LaidOutCount(ks, c, n, t, at);
  }

  lemma {:induction false} LaidOutSize(ks: seq<Tile>, c: Counts, n: nat)
    requires |ks| == KINDS && n <= KINDS
    ensures |LaidOut(ks, c, n)| == TotalTo(c, n)
  {
    if n > 0 { LaidOutSize(ks, c, n - 1); }
  }

  lemma LaidSize(c: Counts, n: nat)
    requires n <= KINDS
    ensures |Laid(c, n)| == TotalTo(c, n)
  {
    LaidOutSize(AllKinds(), c, n);
  }

  lemma LaidTiles(c: Counts, n: nat)
    requires n <= KINDS
    ensures forall i :: 0 <= i < |Laid(c, n)| ==> KindBelow(Laid(c, n)[i], n)
  {
    forall i | 0 <= i < |Laid(c, n)| ensures KindBelow(Laid(c, n)[i], n) {
      TileIsCounted(Laid(c, n), i);
      LaidCount(c, n, Laid(c, n)[i]);
    }
  }

  lemma LaidAt(c: Counts, t: Tile, i: nat)
    requires Valid(t) && Index(t) == i && i < KINDS
    ensures Num(Laid(c, KINDS), t) == c[i] && (t in Laid(c, KINDS) <==> c[i] > 0)
  {
    LaidCount(c, KINDS, t);
    NumMember(Laid(c, KINDS), t);
  }

  /** Reading the table off the tiles again. */
  lemma LaidReads(c: Counts)
    ensures HandCounts(Laid(c, KINDS)) == c
  {
    LaidTiles(c, KINDS);
    forall i: nat | i < KINDS ensures NumAt(Laid(c, KINDS), i) == c[i] {
      CountsAreCopies(Laid(c, KINDS), i);
      IndexRoundTrip(TileAt(i), i);
      LaidCount(c, KINDS, TileAt(i));
    }
  }

  // ---------- dealing around the table ----------

  /** Four hands of thirteen. */
  predicate Thirteens(h: Piles) { forall s: Seat :: |h[s]| == 13 }

  /** The first n tiles in the order in which they are dealt. */
  function Around(h: Piles, n: nat): (r: seq<Tile>)
    requires Thirteens(h) && n <= 52
    ensures |r| == n
  {
    if n == 0 then [] else Around(h, n - 1) + [h[(n - 1) % 4][(n - 1) / 4]]
  }

  /** What the seats hold after n tiles. */
  function Handed(h: Piles, n: nat): Piles
    requires Thirteens(h) && n <= 52
  {
    [h[0][..Share(n, 0)], h[1][..Share(n, 1)], h[2][..Share(n, 2)], h[3][..Share(n, 3)]]
  }

  lemma ShareGrows(n: nat, s: Seat)
    ensures Share(n + 1, s) == Share(n, s) + if s == n % 4 then 1 else 0
    ensures Share(n, n % 4) == n / 4
  {
  }

  lemma HandedGrows(h: Piles, n: nat)
    requires Thirteens(h) && n < 52
    ensures Handed(h, n + 1) == GiveTile(Handed(h, n), n % 4, h[n % 4][n / 4])
  {
    ShareGrows(n, 0);
    ShareGrows(n, 1);
    ShareGrows(n, 2);
    ShareGrows(n, 3);
    var next := GiveTile(Handed(h, n), n % 4, h[n % 4][n / 4]);
    forall s: Seat ensures Handed(h, n + 1)[s] == next[s] {
      if s == n % 4 { assert h[s][..n / 4 + 1] == h[s][..n / 4] + [h[s][n / 4]]; }
    }
  }

  lemma {:induction false} AroundCount(h: Piles, n: nat, t: Tile)
    requires Thirteens(h) && n <= 52
    ensures Num(Around(h, n), t) == NumAll(Handed(h, n), t)
  {
    if n == 0 {
      NumAllFour(NO_PILES, t);
      assert Handed(h, 0) == NO_PILES;
    } else {
      AroundCount(h, n - 1, t);
      HandedGrows(h, n - 1);
      GiveCount(Handed(h, n - 1), (n - 1) % 4, h[(n - 1) % 4][(n - 1) / 4], t);
      NumAppend(Around(h, n - 1), h[(n - 1) % 4][(n - 1) / 4], t);
    }
  }

  lemma {:induction false} AroundAt(h: Piles, n: nat, k: nat)
    requires Thirteens(h) && k < n <= 52
    ensures Around(h, n)[k] == h[k % 4][k / 4]
  {
    if k < n - 1 { AroundAt(h, n - 1, k); }
  }

  predicate NoFlowers(h: Piles) { forall s: Seat, i :: 0 <= i < |h[s]| ==> !IsFlower(h[s][i]) }

  lemma {:induction false} DealGives(h: Piles, rest: seq<Tile>, withExchange: bool, n: nat)
    requires Thirteens(h) && NoFlowers(h) && n <= 52
    ensures var w := Around(h, 52) + rest;
            Deal(EmptyTable(w, withExchange), n) == Outcome(EmptyTable(w[n..], withExchange).(hands := Handed(h, n)), true)
  {
    if n == 0 {
      assert Handed(h, 0) == NO_PILES;
    } else {
      var w, k := Around(h, 52) + rest, n - 1;
      DealGives(h, rest, withExchange, k);
      AroundAt(h, 52, k);
      assert w[k..][0] == h[k % 4][k / 4] && w[k..][1..] == w[n..];
      HandedGrows(h, k);
      DrawnOne(EmptyTable(w[k..], withExchange).(hands := Handed(h, k)), k % 4);
    }
  }

  lemma DrawnOne(rs: Round, seat: Seat)
    requires rs.wall != [] && !IsFlower(rs.wall[0])
    ensures DealOne(rs, seat) ==
      Outcome(rs.(wall := rs.wall[1..], hands := GiveTile(rs.hands, seat, rs.wall[0])), true)
  {
    assert DrawPlayable(rs, seat) == (rs.(wall := rs.wall[1..]), Some(rs.wall[0]));
  }

  /** The hand as it stands after the deal: nobody has done anything yet. */
  function Fresh(h: Piles, rest: seq<Tile>, withExchange: bool): Round {
    EmptyTable(rest, withExchange).(hands := h, phase := OpeningPhase)
  }

  lemma StartGives(h: Piles, rest: seq<Tile>, withExchange: bool)
    requires Thirteens(h) && NoFlowers(h)
    ensures StartRound(Around(h, 52) + rest, withExchange) == Outcome(Fresh(h, rest, withExchange), true)
  {
    DealGives(h, rest, withExchange, 52);
    assert (Around(h, 52) + rest)[52..] == rest;
    assert Handed(h, 52) == h by {
      forall s: Seat ensures Handed(h, 52)[s] == h[s] { assert Share(52, s) == 13 && h[s][..13] == h[s]; }
    }
  }

  // ---------- full walls ----------

  function NoTiles(): Counts { seq(KINDS, _ => 0) }

  type Tables = c: seq<Counts> | |c| == 4 witness [NoTiles(), NoTiles(), NoTiles(), NoTiles()]

  function HandsOf(c: Tables): Piles { [Laid(c[0], KINDS), Laid(c[1], KINDS), Laid(c[2], KINDS), Laid(c[3], KINDS)] }

  function TimesIn(next: seq<nat>, i: nat): nat {
    if next == [] then 0 else (if next[0] == i then 1 else 0) + TimesIn(next[1..], i)
  }

  /** How many tiles of kind i the hands and the next draws need. */
  function Needed(c: Tables, next: seq<nat>, i: nat): nat
    requires i < KINDS
  {
    c[0][i] + c[1][i] + c[2][i] + c[3][i] + TimesIn(next, i)
  }

  /** There are tiles for all this among the 108. */
  predicate Enough(c: Tables, next: seq<nat>) {
    && (forall s: Seat :: Total(c[s]) == 13)
    && (forall i :: 0 <= i < KINDS ==> Needed(c, next, i) <= if i < SUITED then 4 else 0)
    && forall i :: 0 <= i < |next| ==> next[i] < KINDS
  }

  function TilesAt(next: seq<nat>): seq<Tile>
    requires forall i :: 0 <= i < |next| ==> next[i] < KINDS
  {
    if next == [] then [] else [TileAt(next[0])] + TilesAt(next[1..])
  }

  lemma {:induction false} TilesAtCount(next: seq<nat>, t: Tile)
    requires forall i :: 0 <= i < |next| ==> next[i] < KINDS
    ensures Num(TilesAt(next), t) == if KindBelow(t, KINDS) then TimesIn(next, Index(t)) else 0
  {
    if next != [] {
      TilesAtCount(next[1..], t);
      var x := TileAt(next[0]);
      IndexIsReal(next[0]);
      if Valid(t) { RealIndex(t); }
      NumConcat([x], TilesAt(next[1..]), t);
    }
  }

  /** What is left of the 108 tiles. */
  function Leftover(c: Tables, next: seq<nat>): Counts
    requires Enough(c, next)
  {
    seq(KINDS, i requires 0 <= i < KINDS => if i < SUITED then 4 - Needed(c, next, i) else 0)
  }

  function RestOf(c: Tables, next: seq<nat>): seq<Tile>
    requires Enough(c, next)
  {
    TilesAt(next) + Laid(Leftover(c, next), KINDS)
  }

  lemma HandsAreDealt(c: Tables, next: seq<nat>)
    requires Enough(c, next)
    ensures Thirteens(HandsOf(c)) && NoFlowers(HandsOf(c))
  {
    forall s: Seat ensures |HandsOf(c)[s]| == 13 && forall i :: 0 <= i < 13 ==> !IsFlower(HandsOf(c)[s][i]) {
      LaidSize(c[s], KINDS);
      LaidTiles(c[s], KINDS);
    }
  }

  function WallOf(c: Tables, next: seq<nat>): seq<Tile>
    requires Enough(c, next)
  {
    HandsAreDealt(c, next);
    Around(HandsOf(c), 52) + RestOf(c, next)
  }

  lemma IndexRange(suit: nat, rank: int, i: int)
    requires ValidRank(suit, rank)
    requires i == if suit <= BAMBOO then suit * 9 + (rank - 1)
                  else if suit == HONOR then SUITED_COUNT + (rank - 1) else PLAYABLE_COUNT + (rank - 1)
    ensures 0 <= i < SUITED <==> suit <= BAMBOO
  {
  }

  lemma SuitedIndex(t: Tile)
    ensures KindBelow(t, SUITED) <==> Valid(t) && IsSuited(t)
    ensures KindBelow(t, KINDS) ==> TileAt(Index(t)) == t
  {
    if Valid(t) {
      IndexRange(Suit(t), Rank(t), Index(t));
      RealIndex(t);
    }
  }

  lemma WallCount(c: Tables, next: seq<nat>, t: Tile)
    requires Enough(c, next)
    ensures Num(WallOf(c, next), t) == Supply(t)
  {
    HandsAreDealt(c, next);
    var h := HandsOf(c);
    assert Handed(h, 52) == h by {
      forall s: Seat ensures Handed(h, 52)[s] == h[s] { assert Share(52, s) == 13 && h[s][..13] == h[s]; }
    }
    AroundCount(h, 52, t);
    NumAllFour(h, t);
    NumConcat(Around(h, 52), RestOf(c, next), t);
    NumConcat(TilesAt(next), Laid(Leftover(c, next), KINDS), t);
    LaidCount(c[0], KINDS, t);
    LaidCount(c[1], KINDS, t);
    LaidCount(c[2], KINDS, t);
    LaidCount(c[3], KINDS, t);
    LaidCount(Leftover(c, next), KINDS, t);
    SuitedIndex(t);
    TilesAtCount(next, t);
    if KindBelow(t, KINDS) { assert Needed(c, next, Index(t)) <= if Index(t) < SUITED then 4 else 0; }
  }

  lemma {:induction false} FoursTotal(c: Counts, n: nat)
    requires n <= KINDS && forall i :: 0 <= i < n ==> c[i] == 4
    ensures TotalTo(c, n) == 4 * n
  {
    if n > 0 { FoursTotal(c, n - 1); }
  }

  lemma FoursAreSupply(c: Counts, t: Tile)
    requires forall i :: 0 <= i < SUITED ==> c[i] == 4
    ensures Num(Laid(c, SUITED), t) == Supply(t)
  {
    LaidCount(c, SUITED, t);
    SuitedIndex(t);
  }

  lemma SupplyLength(w: seq<Tile>, c: Counts)
    requires (forall t: Tile :: Num(w, t) == Supply(t)) && forall i :: 0 <= i < SUITED ==> c[i] == 4
    ensures |w| == 108
  {
    forall t: Tile ensures Num(w, t) == Num(Laid(c, SUITED), t) { FoursAreSupply(c, t); }
    SameLength(w, Laid(c, SUITED));
    LaidSize(c, SUITED);
    FoursTotal(c, SUITED);
  }

  /** A list with the supply of every tile has 108 of them. */
  lemma SupplyHas108(w: seq<Tile>)
    requires forall t: Tile :: Num(w, t) == Supply(t)
    ensures |w| == 108
  {
    SupplyLength(w, seq(KINDS, _ => 4));
  }

  /** The wall is full, and dealing it gives the seats these hands and leaves these draws. */
  lemma WallDeals(c: Tables, next: seq<nat>, withExchange: bool)
    requires Enough(c, next)
    ensures IsFullWall(WallOf(c, next))
    ensures StartRound(WallOf(c, next), withExchange).rs == Fresh(HandsOf(c), RestOf(c, next), withExchange)
  {
    forall t: Tile ensures Num(WallOf(c, next), t) == Supply(t) { WallCount(c, next, t); }
    SupplyHas108(WallOf(c, next));
    HandsAreDealt(c, next);
    StartGives(HandsOf(c), RestOf(c, next), withExchange);
  }

  // ---------- a hand that waits for one end of a run ----------

  /** Triplets of a, b and d, a pair of p, and u with its neighbour. */
  function RunWait(a: nat, b: nat, d: nat, p: nat, u: nat): Counts {
    seq(KINDS, i => (if i == a || i == b || i == d then 3 else 0) + (if i == p then 2 else 0)
                    + if i == u || i == u + 1 then 1 else 0)
  }

  predicate Apart(a: nat, b: nat, d: nat, p: nat, u: nat) {
    && a < KINDS && b < KINDS && d < KINDS && p < KINDS && u < SUITED && u % 9 <= 6
    && a != b && a != d && b != d && p != a && p != b && p != d
    && (a < u || a > u + 2) && (b < u || b > u + 2) && (d < u || d > u + 2) && (p < u || p > u + 2)
  }

  lemma UseFour(ms: seq<Block>, k: int)
    requires |ms| == 4
    ensures UseAll(ms, k) == Uses(ms[0], k) + Uses(ms[1], k) + Uses(ms[2], k) + Uses(ms[3], k)
  {
    assert ms[1..][1..] == ms[2..] && ms[2..][1..] == ms[3..] && ms[3..][1..] == [];
    assert UseAll(ms[3..], k) == Uses(ms[3], k);
    assert UseAll(ms[2..], k) == Uses(ms[2], k) + UseAll(ms[3..], k);
    assert UseAll(ms[1..], k) == Uses(ms[1], k) + UseAll(ms[2..], k);
  }

  lemma RunWaitUses(a: nat, b: nat, d: nat, p: nat, u: nat, k: nat)
    requires Apart(a, b, d, p, u) && k < KINDS
    ensures Plus(RunWait(a, b, d, p, u), u + 2)[k] == Uses(Triplet(a), k) + Uses(Triplet(b), k) + Uses(Triplet(d), k)
                                                     + Uses(Run(u), k) + Uses(Head(p), k)
    ensures Plus(RunWait(a, b, d, p, u), u + 2)[k] <= 4
  {
  }

  lemma RunWaitWins(a: nat, b: nat, d: nat, p: nat, u: nat)
    requires Apart(a, b, d, p, u)
    ensures WinningShape(Plus(RunWait(a, b, d, p, u), u + 2), 0) && Total(RunWait(a, b, d, p, u)) == 13
  {
    var c := Plus(RunWait(a, b, d, p, u), u + 2);
    var ms := [Triplet(a), Triplet(b), Triplet(d), Run(u)];
    RunWaitUses(a, b, d, p, u, p);
    forall k | 0 <= k < KINDS ensures c[k] <= 4 && UseAll(ms, k) == Take(c, Head(p))[k] {
      RunWaitUses(a, b, d, p, u, k);
      UseFour(ms, k);
    }
    assert PairAt(c, p) && MeldsCover(Take(c, Head(p)), 4);
    PairAndMeldsTotal(c, 4);
    TotalPlus(RunWait(a, b, d, p, u), u + 2, KINDS);
  }

  lemma RunWaitTotal(a: nat, b: nat, d: nat, p: nat, u: nat)
    requires Apart(a, b, d, p, u)
    ensures Total(RunWait(a, b, d, p, u)) == 13
  {
    RunWaitWins(a, b, d, p, u);
  }

  // ---------- hands of few kinds ----------

  function Add(c: Counts, i: nat, n: nat): Counts
    requires i < KINDS
  {
    c[i := c[i] + n]
  }

  lemma {:induction false} TotalAdd(c: Counts, i: nat, m: nat, n: nat)
    requires i < KINDS && n <= KINDS
    ensures TotalTo(Add(c, i, m), n) == TotalTo(c, n) + if i < n then m else 0
  {
    if n > 0 { TotalAdd(c, i, m, n - 1); }
  }

  /** x tiles of kind i, y of j, z of k and w of l. */
  function Four(i: nat, x: nat, j: nat, y: nat, k: nat, z: nat, l: nat, w: nat): Counts
    requires i < KINDS && j < KINDS && k < KINDS && l < KINDS
  {
    Add(Add(Add(Add(NoTiles(), i, x), j, y), k, z), l, w)
  }

  lemma FourAt(i: nat, x: nat, j: nat, y: nat, k: nat, z: nat, l: nat, w: nat, n: nat)
    requires i < KINDS && j < KINDS && k < KINDS && l < KINDS && n < KINDS
    ensures Four(i, x, j, y, k, z, l, w)[n] ==
      (if n == i then x else 0) + (if n == j then y else 0) + (if n == k then z else 0) + (if n == l then w else 0)
  {
  }

  lemma FourTotal(i: nat, x: nat, j: nat, y: nat, k: nat, z: nat, l: nat, w: nat)
    requires i < KINDS && j < KINDS && k < KINDS && l < KINDS
    ensures Total(Four(i, x, j, y, k, z, l, w)) == x + y + z + w
  {
    TotalZero(NoTiles(), KINDS);
    TotalAdd(NoTiles(), i, x, KINDS);
    TotalAdd(Add(NoTiles(), i, x), j, y, KINDS);
    TotalAdd(Add(Add(NoTiles(), i, x), j, y), k, z, KINDS);
    TotalAdd(Add(Add(Add(NoTiles(), i, x), j, y), k, z), l, w, KINDS);
  }

  // ---------- who wins ----------

  lemma {:induction false} CountedAt(h: seq<Tile>, t: Tile, i: nat)
    requires !IsFlower(t) && Index(t) == i
    ensures NumAt(h, i) >= Num(h, t)
  {
    if h != [] { CountedAt(h[1..], t, i); }
  }

  /** A hand that holds its missing suit wins on nothing. */
  lemma HoldsMissing(h: seq<Tile>, t: Tile, x: Tile, ms: seq<Meld>)
    requires t in h && Valid(t) && Suit(t) == BAMBOO
    ensures !CheckHu(h, x, BAMBOO, ms)
  {
    RealIndex(t);
    NumMember(h, t);
    CountedAt(h, t, Index(t));
    if x != NO_TILE && 0 <= Index(x) < KINDS {
      assert Plus(HandCounts(h), Index(x))[Index(t)] > 0;
    }
  }

  /** Without bamboos the hand wins on the end of its run. */
  lemma WinsOn(a: nat, b: nat, d: nat, p: nat, u: nat, x: Tile)
    requires Apart(a, b, d, p, u) && a < 18 && b < 18 && d < 18 && p < 18 && u + 2 < 18
    requires x != NO_TILE && Index(x) == u + 2
    ensures CheckHu(Laid(RunWait(a, b, d, p, u), KINDS), x, BAMBOO, [])
  {
    LaidReads(RunWait(a, b, d, p, u));
    RunWaitWins(a, b, d, p, u);
  }
}
