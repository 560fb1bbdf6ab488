/** Tile codes and their text form (internal/mahjong/tile/tile.go). */
module Tiles {

  datatype Option<+T> = None | Some(value: T)

  /** One byte: the suit in the high four bits, the rank in the low four. */
  type Tile = b: int | 0 <= b < 256

  /** The zero code, which the engine uses for "no tile". */
  const NO_TILE: Tile := 0

  const CHARACTERS := 0
  const DOTS := 1
  const BAMBOO := 2
  const HONOR := 3
  const FLOWER := 4

  const SUITED_COUNT := 27
  const PLAYABLE_COUNT := 34
  const FULL_COUNT := 42

  function Suit(t: Tile): nat { t / 16 }

  function Rank(t: Tile): nat { t % 16 }

  function MaxRank(suit: nat): nat {
    if suit <= BAMBOO then 9 else if suit == HONOR then 7 else if suit == FLOWER then 8 else 0
  }

  predicate ValidRank(suit: nat, rank: int) {
    1 <= rank <= MaxRank(suit)
  }

  predicate Valid(t: Tile) { ValidRank(Suit(t), Rank(t)) }

  /** A real tile, or the code for none. */
  predicate Real(t: Tile) { t == NO_TILE || Valid(t) }

  predicate IsFlower(t: Tile) { Suit(t) == FLOWER }

  predicate IsSuited(t: Tile) { Suit(t) <= BAMBOO }

  function New(suit: nat, rank: int): (r: Option<Tile>)
    ensures r.Some? <==> ValidRank(suit, rank)
    ensures r.Some? ==> Suit(r.value) == suit && Rank(r.value) == rank
  {
    if ValidRank(suit, rank) then Some(suit * 16 + rank) else None
  }

  function Index(t: Tile): int {
    if Suit(t) <= BAMBOO then Suit(t) * 9 + (Rank(t) - 1)
    else if Suit(t) == HONOR then SUITED_COUNT + (Rank(t) - 1)
    else if Suit(t) == FLOWER then PLAYABLE_COUNT + (Rank(t) - 1)
    else -1
  }

  function FromIndex(idx: int): Option<Tile> {
    if idx < 0 || idx >= FULL_COUNT then None
    else if idx < SUITED_COUNT then New(idx / 9, idx % 9 + 1)
    else if idx < PLAYABLE_COUNT then New(HONOR, idx - SUITED_COUNT + 1)
    else New(FLOWER, idx - PLAYABLE_COUNT + 1)
  }

  /** A real tile is made from its suit and its rank. */
  lemma MadeFrom(t: Tile)
    requires Valid(t)
    ensures New(Suit(t), Rank(t)) == Some(t)
  {
    assert t == (t / 16) * 16 + t % 16;
  }

  lemma Ninths(i: nat, q: nat, r: nat)
    requires i == 9 * q + r && r < 9
    ensures i / 9 == q && i % 9 == r
  {
  }

  lemma FromSuitedIndex(i: nat)
    requires i < SUITED_COUNT
    ensures FromIndex(i) == New(i / 9, i % 9 + 1)
  {
  }

  lemma FromIndexAt(i: nat, q: nat, r: nat)
    requires i < SUITED_COUNT && i / 9 == q && i % 9 == r
    ensures FromIndex(i) == New(q, r + 1)
  {
    FromSuitedIndex(i);
  }

  /** The tile of a suit and a rank has their index. */
  lemma IndexOfSuited(i: nat, suit: nat, rank: nat)
    requires suit <= BAMBOO && 1 <= rank <= 9 && i == 9 * suit + (rank - 1)
    ensures i < SUITED_COUNT && FromIndex(i) == New(suit, rank)
  {
    Ninths(i, suit, rank - 1);
    FromIndexAt(i, suit, rank - 1);
  }

  lemma RealIndex(t: Tile)
    requires Valid(t)
    ensures 0 <= Index(t) < FULL_COUNT && FromIndex(Index(t)) == Some(t)
  {
    MadeFrom(t);
    IndexAt(t, Suit(t), Rank(t), Index(t));
  }

  lemma IndexAt(t: Tile, suit: nat, rank: nat, i: int)
    requires ValidRank(suit, rank) && New(suit, rank) == Some(t)
    requires i == if suit <= BAMBOO then suit * 9 + (rank - 1)
                  else if suit == HONOR then SUITED_COUNT + (rank - 1) else PLAYABLE_COUNT + (rank - 1)
    ensures 0 <= i < FULL_COUNT && FromIndex(i) == Some(t)
  {
    if suit <= BAMBOO { IndexOfSuited(i, suit, rank); }
  }

  lemma IndexIsReal(idx: nat)
    requires idx < FULL_COUNT
    ensures FromIndex(idx).Some? && Valid(FromIndex(idx).value) && Index(FromIndex(idx).value) == idx
  {
    if idx < SUITED_COUNT {
      var suit := idx / 9;
      assert suit <= 2 && idx == suit * 9 + idx % 9;
    }
  }

  /** The 42 indices and the 42 real tiles correspond one to one. */
  lemma IndexRoundTrip(t: Tile, idx: int)
    ensures Valid(t) ==> 0 <= Index(t) < FULL_COUNT && FromIndex(Index(t)) == Some(t)
    ensures 0 <= idx < FULL_COUNT <==> FromIndex(idx).Some?
    ensures 0 <= idx < FULL_COUNT ==> Valid(FromIndex(idx).value) && Index(FromIndex(idx).value) == idx
  {
    if Valid(t) { RealIndex(t); }
    if 0 <= idx < FULL_COUNT { IndexIsReal(idx); }
  }

  function SuitLetter(suit: nat): char {
    if suit == CHARACTERS then 'm'
    else if suit == DOTS then 'p'
    else if suit == BAMBOO then 's'
    else if suit == HONOR then 'z'
    else if suit == FLOWER then 'f'
    else '?'
  }

  function SuitOfLetter(c: char): Option<nat> {
    if c == 'm' then Some(CHARACTERS)
    else if c == 'p' then Some(DOTS)
    else if c == 's' then Some(BAMBOO)
    else if c == 'z' then Some(HONOR)
    else if c == 'f' then Some(FLOWER)
    else None
  }

  function Digit(d: nat): (c: char)
    requires d < 10
    ensures '0' <= c <= '9' && c as int - '0' as int == d
  {
    '0' + d as char
  }

  /** The short text such as m3 or z5; a rank above nine has two digits. */
  function ToText(t: Tile): string {
    [SuitLetter(Suit(t))] + (if Rank(t) < 10 then [Digit(Rank(t))] else ['1', Digit(Rank(t) - 10)])
  }

  predicate IsSpace(c: char) {
    c == ' ' || c == '\t' || c == '\n' || c == '\r'
  }

  function TrimLeft(s: string): string {
    if s != [] && IsSpace(s[0]) then TrimLeft(s[1..]) else s
  }

  function TrimRight(s: string): string {
    if s != [] && IsSpace(s[|s| - 1]) then TrimRight(s[..|s| - 1]) else s
  }

  function Trim(s: string): string { TrimRight(TrimLeft(s)) }

  function LowerChar(c: char): char {
    if 'A' <= c <= 'Z' then c + 32 as char else c
  }

  function Lower(s: string): (r: string)
    ensures |r| == |s| && forall i :: 0 <= i < |s| ==> r[i] == LowerChar(s[i])
  {
    if s == [] then [] else [LowerChar(s[0])] + Lower(s[1..])
  }

  function Parse(text: string): Option<Tile> {
    var s := Trim(Lower(text));
    if |s| != 2 then None
    else if SuitOfLetter(s[0]).None? || !('0' <= s[1] <= '9') then None
    else New(SuitOfLetter(s[0]).value, s[1] as int - '0' as int)
  }

  /** Every real tile survives printing and parsing. */
  lemma TextRoundTrip(t: Tile)
    requires Valid(t)
    ensures |ToText(t)| == 2 && Parse(ToText(t)) == Some(t)
  {
    MadeFrom(t);
    TwoLetters(SuitLetter(Suit(t)), Digit(Rank(t)));
    assert ToText(t) == [SuitLetter(Suit(t)), Digit(Rank(t))];
    LettersMeanSuits(Suit(t));
  }

  lemma LettersMeanSuits(suit: nat)
    requires suit <= FLOWER
    ensures SuitOfLetter(SuitLetter(suit)) == Some(suit)
  {
  }

  /** Nothing is trimmed from a lower-case letter and a digit. */
  lemma TwoLetters(c: char, d: char)
    requires ('a' <= c <= 'z' || c == '?') && '0' <= d <= '9'
    ensures Trim(Lower([c, d])) == [c, d]
  {
    var s := [c, d];
    assert Lower(s) == s;
    assert TrimLeft(s) == s;
    assert TrimRight(s) == s;
  }

  /** Parsing accepts a text only if it denotes a real tile, never the "no tile" code. */
  lemma ParseIsReal(text: string)
    ensures Parse(text).Some? ==> Valid(Parse(text).value) && Parse(text).value != NO_TILE
  {
  }

  // ---------- counting ----------

  /** How many tiles of kind t there are. */
  function Num(h: seq<Tile>, t: Tile): nat {
    if h == [] then 0 else (if h[0] == t then 1 else 0) + Num(h[1..], t)
  }

  lemma {:induction false} NumConcat(g: seq<Tile>, h: seq<Tile>, t: Tile)
    ensures Num(g + h, t) == Num(g, t) + Num(h, t)
  {
    if g == [] {
      assert g + h == h;
    } else {
      NumConcat(g[1..], h, t);
      assert (g + h)[1..] == g[1..] + h;
    }
  }

  lemma NumAppend(h: seq<Tile>, x: Tile, t: Tile)
    ensures Num(h + [x], t) == Num(h, t) + (if x == t then 1 else 0)
  {
    NumConcat(h, [x], t);
  }

  lemma {:induction false} NumMember(h: seq<Tile>, t: Tile)
    ensures t in h <==> Num(h, t) > 0
  {
    if h != [] { NumMember(h[1..], t); }
  }

  /** The hand after its first tile of kind t is removed; the hand itself when there is none. */
  function RemoveOne(h: seq<Tile>, t: Tile): seq<Tile> {
    if h == [] then [] else if h[0] == t then h[1..] else [h[0]] + RemoveOne(h[1..], t)
  }

  lemma {:induction false} NumRemove(h: seq<Tile>, x: Tile, t: Tile)
    ensures Num(RemoveOne(h, x), t) == Num(h, t) - (if x == t && t in h then 1 else 0)
  {
    if h != [] && h[0] != x { NumRemove(h[1..], x, t); }
  }

  lemma {:induction false} RemoveLength(h: seq<Tile>, x: Tile)
    ensures |RemoveOne(h, x)| == |h| - (if x in h then 1 else 0)
  {
    if h != [] && h[0] != x { RemoveLength(h[1..], x); }
  }

  /** The same tiles, in any order. */
  ghost predicate SameTiles(g: seq<Tile>, h: seq<Tile>) {
    forall t: Tile :: Num(g, t) == Num(h, t)
  }

  /** All tiles of g can be taken from h. */
  ghost predicate Within(g: seq<Tile>, h: seq<Tile>) {
    forall t: Tile :: Num(g, t) <= Num(h, t)
  }

  /** The 108-tile set has four of each suited tile and nothing else. */
  function Supply(t: Tile): nat { if Valid(t) && IsSuited(t) then 4 else 0 }

  /** Taking the same tile from the same tiles. */
  lemma RemoveSame(g: seq<Tile>, h: seq<Tile>, t: Tile)
    requires SameTiles(g, h)
    ensures SameTiles(RemoveOne(g, t), RemoveOne(h, t)) && (t in g <==> t in h)
  {
    NumMember(g, t);
    NumMember(h, t);
    forall u: Tile ensures Num(RemoveOne(g, t), u) == Num(RemoveOne(h, t), u) {
      NumRemove(g, t, u);
      NumRemove(h, t, u);
    }
  }

  /** Two lists with the same tiles have the same length. */
  lemma {:induction false} SameLength(g: seq<Tile>, h: seq<Tile>)
    requires SameTiles(g, h)
    ensures |g| == |h|
    decreases |g|
  {
    if g == [] {
      if h != [] { NumMember(h, h[0]); assert Num(g, h[0]) == 0; }
    } else {
      RemoveSame(g, h, g[0]);
      NumMember(g, g[0]);
      RemoveLength(h, g[0]);
      assert RemoveOne(g, g[0]) == g[1..];
      SameLength(g[1..], RemoveOne(h, g[0]));
    }
  }
}
