/** The text in which the engine keeps a meld (internal/service/room/engine/meld_fact.go). */
module MeldText {
  import opened Tiles
  import opened SichuanWin

  /** What is read back: the kind as a word, the tiles, and the seat they were claimed from, -1 for none. */
  datatype MeldFact = MeldFact(kind: string, tiles: seq<Tile>, from: int)

  // ---------- texts ----------

  function IndexOf(s: string, c: char): int {
    if s == [] then -1 else if s[0] == c then 0 else if IndexOf(s[1..], c) < 0 then -1 else 1 + IndexOf(s[1..], c)
  }

  function LastIndexOf(s: string, c: char): int {
    if s == [] then -1 else if s[|s| - 1] == c then |s| - 1 else LastIndexOf(s[..|s| - 1], c)
  }

  lemma {:induction false} IndexOfFirst(a: string, c: char, b: string)
    requires c !in a
    ensures IndexOf(a + [c] + b, c) == |a|
  {
    if a != [] {
      assert (a + [c] + b)[1..] == a[1..] + [c] + b;
      IndexOfFirst(a[1..], c, b);
    }
  }

  lemma {:induction false} LastIndexOfNone(s: string, c: char)
    requires c !in s
    ensures LastIndexOf(s, c) == -1
  {
    if s != [] { LastIndexOfNone(s[..|s| - 1], c); }
  }

  lemma LastIndexOfLast(a: string, c: char, d: char)
    requires d != c
    ensures LastIndexOf(a + [c] + [d], c) == |a|
  {
    var s := a + [c] + [d];
    assert s[..|s| - 1] == a + [c];
  }

  /** A decimal number without sign; None when a character is no digit or there is none at all. */
  function Digits(s: string): Option<nat> {
    if s == [] then None
    else
      var last := s[|s| - 1];
      if !('0' <= last <= '9') then None
      else if |s| == 1 then Some(last as int - '0' as int)
      else
        var high := Digits(s[..|s| - 1]);
        if high.None? then None else Some(10 * high.value + (last as int - '0' as int))
  }

  const MAX_INT := 0x7FFF_FFFF_FFFF_FFFF

  /** A signed decimal number that fits 64 bits. */
  function Atoi(s: string): Option<int> {
    var negative := s != [] && s[0] == '-';
    var digits: Option<int> := Digits(if s != [] && (s[0] == '-' || s[0] == '+') then s[1..] else s);
    if digits.None? then None
    else if negative then (if digits.value > MAX_INT + 1 then None else Some(-digits.value))
    else if digits.value > MAX_INT then None
    else Some(digits.value)
  }

  function Join(parts: seq<string>): string {
    if parts == [] then [] else if |parts| == 1 then parts[0] else parts[0] + "," + Join(parts[1..])
  }

  predicate IsSeparator(c: char) { c == ',' || c == ' ' }

  /** The maximal pieces between separators; `piece` is the one being read. */
  function Fields(s: string, piece: string): seq<string> {
    if s == [] then (if piece == [] then [] else [piece])
    else if IsSeparator(s[0]) then (if piece == [] then [] else [piece]) + Fields(s[1..], [])
    else Fields(s[1..], piece + [s[0]])
  }

  predicate IsWord(s: string) { s != [] && forall i :: 0 <= i < |s| ==> !IsSeparator(s[i]) }

  lemma {:induction false} FieldsOfWord(piece: string, word: string, rest: string)
    requires forall i :: 0 <= i < |word| ==> !IsSeparator(word[i])
    ensures Fields(word + rest, piece) == Fields(rest, piece + word)
    decreases |word|
  {
    if word == [] {
      assert word + rest == rest && piece + word == piece;
    } else {
      assert (word + rest)[1..] == word[1..] + rest;
      FieldsOfWord(piece + [word[0]], word[1..], rest);
      assert piece + [word[0]] + word[1..] == piece + word;
    }
  }

  lemma {:induction false} FieldsOfJoin(parts: seq<string>)
    requires forall i :: 0 <= i < |parts| ==> IsWord(parts[i])
    ensures Fields(Join(parts), []) == parts
  {
    if parts != [] {
      var word := parts[0];
      var rest := if |parts| == 1 then [] else "," + Join(parts[1..]);
      assert Join(parts) == word + rest;
      FieldsOfWord([], word, rest);
      assert [] + word == word;
      FieldsOfJoin(parts[1..]);
      if |parts| > 1 {
        assert rest[1..] == Join(parts[1..]);
        assert Fields(rest, word) == [word] + Fields(Join(parts[1..]), []);
      } else {
        assert parts == [word];
      }
    }
  }

  lemma {:induction false} JoinLacks(parts: seq<string>, c: char)
    requires c != ',' && forall i :: 0 <= i < |parts| ==> c !in parts[i]
    ensures c !in Join(parts)
  {
    if parts != [] { JoinLacks(parts[1..], c); }
  }

  // ---------- melds ----------

  function Texts(ts: seq<Tile>): (r: seq<string>)
    ensures |r| == |ts| && forall i :: 0 <= i < |ts| ==> r[i] == ToText(ts[i])
  {
    seq(|ts|, i requires 0 <= i < |ts| => ToText(ts[i]))
  }

  function Present(ts: seq<Tile>): seq<Tile> {
    if ts == [] then [] else (if ts[0] == NO_TILE then [] else [ts[0]]) + Present(ts[1..])
  }

  function EncodeMeld(kind: string, ts: seq<Tile>, from: int): string {
    kind + ":" + Join(Texts(Present(ts))) + (if 0 <= from < 4 then ":" + [Digit(from)] else "")
  }

  /** Pieces that are no tile are passed over. */
  function ReadTiles(raws: seq<string>): seq<Tile> {
    if raws == [] then []
    else
      var t := if raws[0] == [] || raws[0] == "?" then None else Parse(raws[0]);
      (if t.Some? then [t.value] else []) + ReadTiles(raws[1..])
  }

  function SeatFromInt(n: int): int { if 0 <= n < 4 then n else -1 }

  function ParseMeld(s: string): Option<MeldFact> {
    var first := IndexOf(s, ':');
    if first <= 0 || first == |s| - 1 then None
    else
      assert first < |s| by { IndexOfBound(s, ':'); }
      var rest := s[first + 1..];
      var second := LastIndexOf(rest, ':');
      LastIndexOfBound(rest, ':');
      var n := if second >= 0 then Atoi(rest[second + 1..]) else None;
      if n.Some? then Some(MeldFact(s[..first], ReadTiles(Fields(rest[..second], [])), SeatFromInt(n.value)))
      else Some(MeldFact(s[..first], ReadTiles(Fields(rest, [])), -1))
  }

  lemma {:induction false} IndexOfBound(s: string, c: char)
    ensures -1 <= IndexOf(s, c) && IndexOf(s, c) < |s|
  {
    if s != [] { IndexOfBound(s[1..], c); }
  }

  lemma {:induction false} LastIndexOfBound(s: string, c: char)
    ensures -1 <= LastIndexOf(s, c) < |s|
  {
    if s != [] { LastIndexOfBound(s[..|s| - 1], c); }
  }

  lemma {:induction false} ReadBack(ts: seq<Tile>)
    requires forall i :: 0 <= i < |ts| ==> Valid(ts[i])
    ensures ReadTiles(Texts(ts)) == ts
  {
    if ts != [] {
      TextRoundTrip(ts[0]);
      ReadBack(ts[1..]);
      assert Texts(ts)[1..] == Texts(ts[1..]);
      assert ts == [ts[0]] + ts[1..];
    }
  }

  lemma TextsAreWords(ts: seq<Tile>)
    requires forall i :: 0 <= i < |ts| ==> Valid(ts[i])
    ensures forall i :: 0 <= i < |ts| ==> IsWord(Texts(ts)[i]) && ':' !in Texts(ts)[i]
  {
    forall i | 0 <= i < |ts| ensures IsWord(Texts(ts)[i]) && ':' !in Texts(ts)[i] {
      TextRoundTrip(ts[i]);
    }
  }

  lemma {:induction false} AllPresent(ts: seq<Tile>)
    requires forall i :: 0 <= i < |ts| ==> Valid(ts[i])
    ensures Present(ts) == ts
  {
    if ts != [] { AllPresent(ts[1..]); }
  }

  /**
   * A meld of real tiles is read back as it was written, whatever its kind, its tiles and the seat it
   * came from; only a meld with neither tiles nor a seat cannot be read.
   */
  lemma MeldRoundTrip(kind: string, ts: seq<Tile>, from: int)
    requires kind != [] && ':' !in kind
    requires forall i :: 0 <= i < |ts| ==> Valid(ts[i])
    ensures ParseMeld(EncodeMeld(kind, ts, from)) ==
      if ts == [] && !(0 <= from < 4) then None else Some(MeldFact(kind, ts, SeatFromInt(from)))
  {
    AllPresent(ts);
    var body := Join(Texts(ts));
    var tail := if 0 <= from < 4 then ":" + [Digit(from)] else "";
    var s := EncodeMeld(kind, ts, from);
    assert s == kind + [':'] + (body + tail);
    IndexOfFirst(kind, ':', body + tail);
    assert s[|kind| + 1..] == body + tail && s[..|kind|] == kind;
    TextsAreWords(ts);
    JoinLacks(Texts(ts), ':');
    FieldsOfJoin(Texts(ts));
    ReadBack(ts);
    if 0 <= from < 4 {
      SeatTail(body, from);
    } else {
      assert body + tail == body;
      LastIndexOfNone(body, ':');
      if ts != [] { assert Texts(ts)[0] != []; }
    }
  }

  lemma SeatTail(body: string, from: nat)
    requires from < 4 && ':' !in body
    ensures var rest := body + (":" + [Digit(from)]);
            && LastIndexOf(rest, ':') == |body| && rest[..|body|] == body
            && Atoi(rest[|body| + 1..]) == Some(from)
  {
    var d := Digit(from);
    var rest := body + (":" + [d]);
    assert rest == body + [':'] + [d];
    LastIndexOfLast(body, ':', d);
    assert rest[|body| + 1..] == [d];
  }

  function KindName(k: MeldKind): (r: string)
    ensures r != [] && ':' !in r
  {
    match k
    case Pong => "pong"
    case Chi => "chi"
    case ZhiGang => "zhi_gang"
    case BuGang => "bu_gang"
    case AnGang => "an_gang"
  }

  function KindOf(name: string): Option<MeldKind> {
    if name == "pong" then Some(Pong)
    else if name == "chi" then Some(Chi)
    else if name == "zhi_gang" then Some(ZhiGang)
    else if name == "bu_gang" then Some(BuGang)
    else if name == "an_gang" then Some(AnGang)
    else None
  }

  lemma KindRoundTrip(k: MeldKind)
    ensures KindOf(KindName(k)) == Some(k)
  {
  }
}
