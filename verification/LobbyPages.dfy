/** Listing the lobby page by page (internal/service/lobby/lobby.go). A text is a sequence of code points. */
module LobbyPages {
  import opened Tiles
  import opened MeldText

  datatype Record = Record(created: int, private: bool, seats: nat, maxSeats: int)

  datatype Room = Room(id: string, created: int)

  datatype Result<+T> = Ok(value: T) | Invalid

  datatype Page = Page(rooms: seq<Room>, next: string)

  // ---------- texts ----------

  /** White space as the token parser trims it. */
  predicate IsBlank(c: char) {
    var n := c as int;
    9 <= n <= 13 || n == 0x20 || n == 0x85 || n == 0xA0 || n == 0x1680 || 0x2000 <= n <= 0x200A
    || n == 0x2028 || n == 0x2029 || n == 0x202F || n == 0x205F || n == 0x3000
  }

  function TrimStart(s: string): string { if s != [] && IsBlank(s[0]) then TrimStart(s[1..]) else s }

  function TrimEnd(s: string): string { if s != [] && IsBlank(s[|s| - 1]) then TrimEnd(s[..|s| - 1]) else s }

  function TrimSpace(s: string): string { TrimEnd(TrimStart(s)) }

  function FormatNat(n: nat): string {
    if n < 10 then [Digit(n)] else FormatNat(n / 10) + [Digit(n % 10)]
  }

  function FormatInt(n: int): string { if n < 0 then "-" + FormatNat(-n) else FormatNat(n) }

  predicate Int64(n: int) { -MAX_INT - 1 <= n <= MAX_INT }

  lemma {:induction false} NatRoundTrip(n: nat)
    ensures Digits(FormatNat(n)) == Some(n)
    ensures forall i :: 0 <= i < |FormatNat(n)| ==> '0' <= FormatNat(n)[i] <= '9'
    ensures FormatNat(n) != []
  {
    if n >= 10 {
      NatRoundTrip(n / 10);
      var s := FormatNat(n);
      assert s[..|s| - 1] == FormatNat(n / 10);
    }
  }

  lemma NegativeRoundTrip(n: int)
    requires 0 < n <= MAX_INT + 1
    ensures Atoi("-" + FormatNat(n)) == Some(-n)
    ensures '|' !in "-" + FormatNat(n)
  {
    NatRoundTrip(n);
    var s := "-" + FormatNat(n);
    assert s[0] == '-' && s[1..] == FormatNat(n);
  }

  lemma PositiveRoundTrip(n: nat)
    requires n <= MAX_INT
    ensures Atoi(FormatNat(n)) == Some(n)
    ensures FormatNat(n) != [] && !IsBlank(FormatNat(n)[0]) && '|' !in FormatNat(n)
  {
    NatRoundTrip(n);
    assert '0' <= FormatNat(n)[0] <= '9';
  }

  lemma IntRoundTrip(n: int)
    requires Int64(n)
    ensures Atoi(FormatInt(n)) == Some(n)
    ensures FormatInt(n) != [] && !IsBlank(FormatInt(n)[0]) && '|' !in FormatInt(n)
  {
    if n < 0 {
      NegativeRoundTrip(-n);
      assert FormatInt(n)[0] == '-';
    } else {
      PositiveRoundTrip(n);
    }
  }

  // ---------- the order of the rooms ----------

  predicate TextLess(a: string, b: string) {
    b != [] && (a == [] || a[0] < b[0] || (a[0] == b[0] && TextLess(a[1..], b[1..])))
  }

  lemma {:induction false} TextOrder(a: string, b: string)
    ensures TextLess(a, b) || TextLess(b, a) || a == b
    ensures !(TextLess(a, b) && TextLess(b, a)) && !TextLess(a, a)
  {
    if a != [] && b != [] && a[0] == b[0] {
      TextOrder(a[1..], b[1..]);
      assert a == [a[0]] + a[1..] && b == [b[0]] + b[1..];
    }
    if a != [] { TextIrreflexive(a); }
  }

  lemma {:induction false} TextIrreflexive(a: string)
    ensures !TextLess(a, a)
  {
    if a != [] { TextIrreflexive(a[1..]); }
  }

  lemma {:induction false} TextTransitive(a: string, b: string, c: string)
    requires TextLess(a, b) && TextLess(b, c)
    ensures TextLess(a, c)
  {
    if a != [] && a[0] == b[0] && b[0] == c[0] { TextTransitive(a[1..], b[1..], c[1..]); }
  }

  lemma {:induction false} PrefixIsLess(a: string, rest: string)
    requires rest != []
    ensures TextLess(a, a + rest)
  {
    if a != [] {
      PrefixIsLess(a[1..], rest);
      assert (a + rest)[1..] == a[1..] + rest;
    }
  }

  predicate Less(a: Room, b: Room) {
    if a.created == b.created then TextLess(a.id, b.id) else a.created < b.created
  }

  lemma OrderIsTotal(a: Room, b: Room)
    ensures Less(a, b) || Less(b, a) || a == b
    ensures !(Less(a, b) && Less(b, a)) && !Less(a, a)
  {
    TextOrder(a.id, b.id);
    TextOrder(a.id, a.id);
  }

  lemma OrderIsTransitive(a: Room, b: Room, c: Room)
    requires Less(a, b) && Less(b, c)
    ensures Less(a, c)
  {
    if a.created == b.created == c.created { TextTransitive(a.id, b.id, c.id); }
  }

  predicate Ascending(rooms: seq<Room>) { forall i, j :: 0 <= i < j < |rooms| ==> Less(rooms[i], rooms[j]) }

  // ---------- one page ----------

  function PageSize(wanted: int): nat { if wanted <= 0 || wanted > 100 then 20 else wanted }

  function ParseToken(token: string): Result<Room> {
    var t := TrimSpace(token);
    if t == "" then Ok(Room("", 0))
    else
      var bar := IndexOf(t, '|');
      if bar < 0 then Invalid
      else
        assert bar < |t| by { IndexOfBound(t, '|'); }
        var created := Atoi(t[..bar]);
        if created.None? || t[bar + 1..] == "" then Invalid else Ok(Room(t[bar + 1..], created.value))
  }

  function FormatToken(r: Room): string { FormatInt(r.created) + "|" + r.id }

  predicate BeforeOrEqual(r: Room, cursor: Room) {
    if cursor.created == 0 && cursor.id == "" then false
    else if r.created != cursor.created then r.created < cursor.created
    else r.id == cursor.id || TextLess(r.id, cursor.id)
  }

  /** How many rooms at the front are not after the cursor. */
  function Start(rooms: seq<Room>, cursor: Room): nat {
    if rooms != [] && BeforeOrEqual(rooms[0], cursor) then 1 + Start(rooms[1..], cursor) else 0
  }

  lemma {:induction false} StartBound(rooms: seq<Room>, cursor: Room)
    ensures Start(rooms, cursor) <= |rooms|
    ensures forall i :: 0 <= i < Start(rooms, cursor) ==> BeforeOrEqual(rooms[i], cursor)
    ensures Start(rooms, cursor) < |rooms| ==> !BeforeOrEqual(rooms[Start(rooms, cursor)], cursor)
  {
    if rooms != [] && BeforeOrEqual(rooms[0], cursor) { StartBound(rooms[1..], cursor); }
  }

  /** The page after the token of a listing in order, and the token of the page that follows, if any. */
  function PageOf(rooms: seq<Room>, wanted: int, token: string): Result<Page> {
    var cursor := ParseToken(token);
    if cursor.Invalid? then Invalid
    else
      var start := Start(rooms, cursor.value);
      StartBound(rooms, cursor.value);
      PageFrom(rooms, PageSize(wanted), start)
  }

  function PageFrom(rooms: seq<Room>, size: nat, start: nat): Result<Page>
    requires start <= |rooms| && size > 0
  {
    if start + size >= |rooms| then Ok(Page(rooms[start..], ""))
    else Ok(Page(rooms[start..start + size], FormatToken(rooms[start + size - 1])))
  }

  // ---------- the listing ----------

  predicate IsOpen(r: Record) { !r.private && r.seats < r.maxSeats }

  /** The open rooms in order, each once. */
  ghost predicate IsListing(rooms: map<string, Record>, list: seq<Room>) {
    && Ascending(list)
    && forall r: Room :: r in list <==> r.id in rooms && IsOpen(rooms[r.id]) && rooms[r.id].created == r.created
  }

  lemma TailMembers(a: seq<Room>, r: Room)
    requires Ascending(a) && a != []
    ensures r in a[1..] <==> r in a && r != a[0]
  {
    assert a == [a[0]] + a[1..];
    if r in a[1..] {
      var k :| 0 <= k < |a[1..]| && a[1..][k] == r;
      assert Less(a[0], a[k + 1]);
      OrderIsTotal(a[0], r);
    }
  }

  lemma {:induction false} ListingIsUnique(a: seq<Room>, b: seq<Room>)
    requires Ascending(a) && Ascending(b) && forall r: Room :: r in a <==> r in b
    ensures a == b
    decreases |a|
  {
    assert |b| > 0 ==> b[0] in b;
    if a != [] {
      assert a[0] in a && a[0] in b;
      var i :| 0 <= i < |b| && b[i] == a[0];
      assert b[0] in b && b[0] in a;
      var j :| 0 <= j < |a| && a[j] == b[0];
      OrderIsTotal(a[0], b[0]);
      assert a[0] == b[0];
      forall r: Room ensures r in a[1..] <==> r in b[1..] {
        TailMembers(a, r);
        TailMembers(b, r);
      }
      ListingIsUnique(a[1..], b[1..]);
      assert a == [a[0]] + a[1..] && b == [b[0]] + b[1..];
    }
  }

  /** Puts a room into its place. */
  method Insert(list: seq<Room>, r: Room) returns (out: seq<Room>)
    requires Ascending(list) && r !in list
    ensures Ascending(out) && forall x: Room :: x in out <==> x in list || x == r
  {
    var i := 0;
    while i < |list| && Less(list[i], r)
      invariant i <= |list| && forall k :: 0 <= k < i ==> Less(list[k], r)
    {
      i := i + 1;
    }
    forall k | i <= k < |list| ensures Less(r, list[k]) {
      OrderIsTotal(r, list[i]);
      if k > i { OrderIsTransitive(r, list[i], list[k]); }
    }
    out := list[..i] + [r] + list[i..];
    assert list == list[..i] + list[i..];
  }

  /** Collects the open rooms, in whatever order they come up, and sorts them. */
  method OpenRooms(rooms: map<string, Record>) returns (list: seq<Room>)
    ensures IsListing(rooms, list)
  {
    list := [];
    var left := rooms.Keys;
    while left != {}
      invariant left <= rooms.Keys && Ascending(list)
      invariant forall r: Room :: r in list <==>
        r.id in rooms && r.id !in left && IsOpen(rooms[r.id]) && rooms[r.id].created == r.created
      decreases |left|
    {
      var id :| id in left;
      ghost var was := list;
      if IsOpen(rooms[id]) { list := Insert(list, Room(id, rooms[id].created)); }
      left := left - {id};
    }
  }

  method ListRooms(rooms: map<string, Record>, wanted: int, token: string) returns (page: Result<Page>)
    ensures forall list :: IsListing(rooms, list) ==> page == PageOf(list, wanted, token)
    ensures exists list :: IsListing(rooms, list) && page == PageOf(list, wanted, token)
  {
    var list := OpenRooms(rooms);
    forall other | IsListing(rooms, other) ensures other == list { ListingIsUnique(other, list); }
    var cursor := ParseToken(token);
    if cursor.Invalid? { return Invalid; }
    var start := 0;
    while start < |list| && BeforeOrEqual(list[start], cursor.value)
      invariant start <= |list| && start + Start(list[start..], cursor.value) == Start(list, cursor.value)
    {
      start := start + 1;
    }
    page := PageFrom(list, PageSize(wanted), start);
  }

  // ---------- following the tokens ----------

  /** The rooms of up to n pages from the token on; None when a token is refused or pages are left over. */
  function Visit(pages: string -> Result<Page>, token: string, n: nat): Option<seq<Room>>
    decreases n
  {
    if n == 0 then None
    else
      var page := pages(token);
      if page.Invalid? then None
      else if page.value.next == "" then Some(page.value.rooms)
      else
        var rest := Visit(pages, page.value.next, n - 1);
        if rest.None? then None else Some(page.value.rooms + rest.value)
  }

  /** The pages of a listing, by token. */
  function PagesOf(rooms: seq<Room>, wanted: int): string -> Result<Page> { token => PageOf(rooms, wanted, token) }

  /** The id survives the trimming of a token that ends in it. */
  predicate CleanId(id: string) { id != "" && !IsBlank(id[|id| - 1]) }

  /** The last room of every page but the last one has a clean id. */
  predicate CleanBreaks(rooms: seq<Room>, size: nat, start: nat)
    requires size > 0
    decreases |rooms| - start
  {
    start + size < |rooms| ==> CleanId(rooms[start + size - 1].id) && CleanBreaks(rooms, size, start + size)
  }

  lemma {:induction false} TrimEndCuts(a: string, b: string)
    requires a != [] && !IsBlank(a[|a| - 1])
    ensures TrimEnd(a + b) == a + TrimEnd(b)
    decreases |b|
  {
    if b == [] {
      assert a + b == a && TrimEnd(b) == [];
    } else if IsBlank(b[|b| - 1]) {
      TrimEndCuts(a, b[..|b| - 1]);
      assert (a + b)[..|a + b| - 1] == a + b[..|b| - 1];
    } else {
      assert (a + b)[|a + b| - 1] == b[|b| - 1];
    }
  }

  /** What comes back from the token of a room: its creation time, and its id without trailing blanks. */
  lemma TokenRoundTrip(r: Room)
    requires Int64(r.created)
    ensures ParseToken(FormatToken(r)) == if TrimEnd(r.id) == "" then Invalid else Ok(Room(TrimEnd(r.id), r.created))
    ensures FormatToken(r) != ""
  {
    IntRoundTrip(r.created);
    var number := FormatInt(r.created);
    var token := FormatToken(r);
    assert token == number + ['|'] + r.id && token[0] == number[0];
    assert TrimStart(token) == token;
    TrimEndCuts(number + ['|'], r.id);
    var t := number + ['|'] + TrimEnd(r.id);
    assert TrimSpace(token) == t;
    IndexOfFirst(number, '|', TrimEnd(r.id));
    assert t[..|number|] == number && t[|number| + 1..] == TrimEnd(r.id);
  }

  lemma {:induction false} TrimEndIs(s: string)
    ensures TrimEnd(s) <= s && (CleanId(s) ==> TrimEnd(s) == s) && (!CleanId(s) && s != "" ==> |TrimEnd(s)| < |s|)
  {
    if s != [] && IsBlank(s[|s| - 1]) { TrimEndIs(s[..|s| - 1]); }
  }

  lemma LaterIsAfter(a: Room, b: Room)
    requires Less(a, b) && a.id != ""
    ensures !BeforeOrEqual(b, a)
  {
    TextOrder(a.id, b.id);
  }

  /** The rooms after a room of the listing begin right behind it. */
  lemma StartAfter(rooms: seq<Room>, i: nat)
    requires Ascending(rooms) && i < |rooms| && rooms[i].id != ""
    ensures Start(rooms, rooms[i]) == i + 1
  {
    var n := Start(rooms, rooms[i]);
    StartBound(rooms, rooms[i]);
    if n <= i {
      OrderIsTotal(rooms[n], rooms[i]);
      assert BeforeOrEqual(rooms[n], rooms[i]);
    }
    if i + 1 < |rooms| { LaterIsAfter(rooms[i], rooms[i + 1]); }
  }

  /** A cursor whose id lost its end lies before its room, which therefore comes up again. */
  lemma StartBefore(rooms: seq<Room>, i: nat, short: string)
    requires i < |rooms| && short != "" && short <= rooms[i].id && |short| < |rooms[i].id|
    ensures Start(rooms, Room(short, rooms[i].created)) <= i
  {
    var cursor := Room(short, rooms[i].created);
    StartBound(rooms, cursor);
    var id := rooms[i].id;
    assert id == short + id[|short|..];
    PrefixIsLess(short, id[|short|..]);
    TextOrder(short, id);
    assert !BeforeOrEqual(rooms[i], cursor);
  }

  predicate Timed(rooms: seq<Room>) { forall i :: 0 <= i < |rooms| ==> Int64(rooms[i].created) }

  lemma PageForm(rooms: seq<Room>, wanted: int, token: string, start: nat)
    requires start <= |rooms| && ParseToken(token).Ok? && Start(rooms, ParseToken(token).value) == start
    ensures PageOf(rooms, wanted, token) == PageFrom(rooms, PageSize(wanted), start)
  {
  }

  lemma TokenIsThere(r: Room)
    ensures FormatToken(r) != ""
  {
    assert |FormatToken(r)| == |FormatInt(r.created)| + 1 + |r.id|;
  }

  lemma RestInTwo(rooms: seq<Room>, start: nat, end: nat)
    requires start <= end <= |rooms|
    ensures rooms[start..] == rooms[start..end] + rooms[end..]
  {
  }

  lemma DifferentTails(rooms: seq<Room>, start: nat, end: nat, rest: seq<Room>)
    requires start <= end <= |rooms| && rest != rooms[end..]
    ensures rooms[start..end] + rest != rooms[start..]
  {
    var all := rooms[start..end] + rest;
    assert all[end - start..] == rest && rooms[start..][end - start..] == rooms[end..];
  }

  // Where the token of rooms[end - 1] leads, for every end; -1 when it is refused.
  type Jumps = seq<int>

  /** The rooms of up to n pages from a position on, jumping where the tokens lead. */
  function Deliver(rooms: seq<Room>, size: nat, jumps: Jumps, start: nat, n: nat): Option<seq<Room>>
    requires size > 0 && |jumps| == |rooms| + 1 && start <= |rooms|
    requires forall i :: 0 <= i < |jumps| ==> jumps[i] <= |rooms|
    decreases n
  {
    if n == 0 then None
    else if start + size >= |rooms| then Some(rooms[start..])
    else if jumps[start + size] < 0 then None
    else
      var rest := Deliver(rooms, size, jumps, jumps[start + size], n - 1);
      if rest.None? then None else Some(rooms[start..start + size] + rest.value)
  }

  /** A token leads right behind its room when the id is clean, and otherwise nowhere or too far back. */
  predicate JumpsOk(rooms: seq<Room>, jumps: Jumps) {
    && |jumps| == |rooms| + 1
    && (forall i :: 0 <= i < |jumps| ==> jumps[i] <= |rooms|)
    && forall end :: 0 < end < |rooms| ==> if CleanId(rooms[end - 1].id) then jumps[end] == end else jumps[end] < end
  }

  lemma {:induction false} DeliversRest(rooms: seq<Room>, size: nat, jumps: Jumps, start: nat, n: nat)
    requires size > 0 && JumpsOk(rooms, jumps) && start <= |rooms| && n > |rooms| - start
    requires CleanBreaks(rooms, size, start)
    ensures Deliver(rooms, size, jumps, start, n) == Some(rooms[start..])
    decreases n
  {
    if start + size < |rooms| {
      DeliversRest(rooms, size, jumps, start + size, n - 1);
      RestInTwo(rooms, start, start + size);
    }
  }

  /** What is delivered from a position begins with the room there. */
  lemma DeliveryBegins(rooms: seq<Room>, size: nat, jumps: Jumps, start: nat, n: nat)
    requires size > 0 && JumpsOk(rooms, jumps) && start < |rooms|
    ensures var d := Deliver(rooms, size, jumps, start, n); d.Some? ==> d.value != [] && d.value[0] == rooms[start]
  {
  }

  lemma {:induction false} NeverRest(rooms: seq<Room>, size: nat, jumps: Jumps, start: nat, n: nat)
    requires Ascending(rooms) && size > 0 && JumpsOk(rooms, jumps) && start <= |rooms|
    requires !CleanBreaks(rooms, size, start)
    ensures Deliver(rooms, size, jumps, start, n) != Some(rooms[start..])
    decreases n
  {
    var end := start + size;
    if n > 0 && jumps[end] >= 0 {
      var rest := Deliver(rooms, size, jumps, jumps[end], n - 1);
      if CleanId(rooms[end - 1].id) {
        NeverRest(rooms, size, jumps, end, n - 1);
      } else {
        DeliveryBegins(rooms, size, jumps, jumps[end], n - 1);
        OrderIsTotal(rooms[jumps[end]], rooms[end]);
        assert Less(rooms[jumps[end]], rooms[end]) && rooms[end..][0] == rooms[end];
      }
      if rest.Some? { DifferentTails(rooms, start, end, rest.value); }
    }
  }

  /** Where the token of the room before `end` leads. */
  function Jump(rooms: seq<Room>, end: nat): int
    requires 0 < end <= |rooms|
  {
    var p := ParseToken(FormatToken(rooms[end - 1]));
    if p.Invalid? then -1 else Start(rooms, p.value)
  }

  lemma JumpIs(rooms: seq<Room>, end: nat)
    requires Ascending(rooms) && Timed(rooms) && 0 < end <= |rooms|
    ensures Jump(rooms, end) <= |rooms|
    ensures if CleanId(rooms[end - 1].id) then Jump(rooms, end) == end else Jump(rooms, end) < end
  {
    var last := rooms[end - 1];
    TokenRoundTrip(last);
    TrimEndIs(last.id);
    if CleanId(last.id) {
      StartAfter(rooms, end - 1);
    } else if TrimEnd(last.id) != "" {
      StartBefore(rooms, end - 1, TrimEnd(last.id));
    }
  }

  function AllJumps(rooms: seq<Room>): (jumps: Jumps)
    ensures |jumps| == |rooms| + 1 && forall end :: 0 < end <= |rooms| ==> jumps[end] == Jump(rooms, end)
  {
    [0] + seq(|rooms|, i requires 0 <= i < |rooms| => Jump(rooms, i + 1))
  }

  lemma AllJumpsOk(rooms: seq<Room>)
    requires Ascending(rooms) && Timed(rooms)
    ensures JumpsOk(rooms, AllJumps(rooms))
  {
    forall end | 0 < end <= |rooms|
      ensures AllJumps(rooms)[end] <= |rooms|
      ensures if CleanId(rooms[end - 1].id) then AllJumps(rooms)[end] == end else AllJumps(rooms)[end] < end
    {
      JumpIs(rooms, end);
    }
    assert AllJumps(rooms)[0] == 0;
  }

  lemma DeliverOn(rooms: seq<Room>, size: nat, jumps: Jumps, start: nat, n: nat)
    requires size > 0 && JumpsOk(rooms, jumps) && n > 0 && start + size < |rooms|
    ensures Deliver(rooms, size, jumps, start, n) ==
      if jumps[start + size] < 0 then None
      else
        var rest := Deliver(rooms, size, jumps, jumps[start + size], n - 1);
        if rest.None? then None else Some(rooms[start..start + size] + rest.value)
  {
  }

  /** The tokens of the rooms, each at the position behind its room. */
  function Tokens(rooms: seq<Room>): (tokens: seq<string>)
    ensures |tokens| == |rooms| + 1 && forall end :: 0 < end <= |rooms| ==> tokens[end] == FormatToken(rooms[end - 1])
  {
    [""] + seq(|rooms|, i requires 0 <= i < |rooms| => FormatToken(rooms[i]))
  }

  /** The page at a position, with its token taken from a list. */
  function PageAt(rooms: seq<Room>, size: nat, tokens: seq<string>, start: nat): Page
    requires size > 0 && |tokens| == |rooms| + 1 && start <= |rooms|
  {
    if start + size >= |rooms| then Page(rooms[start..], "") else Page(rooms[start..start + size], tokens[start + size])
  }

  lemma PageFromAt(rooms: seq<Room>, size: nat, start: nat)
    requires size > 0 && start <= |rooms|
    ensures PageFrom(rooms, size, start) == Ok(PageAt(rooms, size, Tokens(rooms), start))
  {
  }

  /** The pages follow the jumps: the token at a position leads to the page where it jumps. */
  predicate FollowsJumps(pages: string -> Result<Page>, rooms: seq<Room>, size: nat, tokens: seq<string>, jumps: Jumps)
    requires size > 0 && |tokens| == |rooms| + 1 && JumpsOk(rooms, jumps)
  {
    forall end :: 0 < end < |rooms| ==>
      tokens[end] != "" && pages(tokens[end]) == if jumps[end] < 0 then Invalid else Ok(PageAt(rooms, size, tokens, jumps[end]))
  }

  /** Following the tokens is jumping through the listing. */
  lemma {:induction false} VisitIsDelivery(pages: string -> Result<Page>, rooms: seq<Room>, size: nat,
                                           tokens: seq<string>, jumps: Jumps, token: string, start: nat, n: nat)
    requires size > 0 && JumpsOk(rooms, jumps) && start <= |rooms| && |tokens| == |rooms| + 1
    requires pages(token) == Ok(PageAt(rooms, size, tokens, start)) && FollowsJumps(pages, rooms, size, tokens, jumps)
    ensures Visit(pages, token, n) == Deliver(rooms, size, jumps, start, n)
    decreases n
  {
    var end := start + size;
    if n > 0 && end < |rooms| {
      assert tokens[end] != "";
      if jumps[end] >= 0 { VisitIsDelivery(pages, rooms, size, tokens, jumps, tokens[end], jumps[end], n - 1); }
      DeliverOn(rooms, size, jumps, start, n);
    }
  }

  lemma TokenLands(rooms: seq<Room>, wanted: int, end: nat)
    requires 0 < end <= |rooms| && Jump(rooms, end) <= |rooms|
    ensures PageOf(rooms, wanted, FormatToken(rooms[end - 1])) ==
      if Jump(rooms, end) < 0 then Invalid else PageFrom(rooms, PageSize(wanted), Jump(rooms, end))
  {
    var token := FormatToken(rooms[end - 1]);
    if Jump(rooms, end) >= 0 { PageForm(rooms, wanted, token, Jump(rooms, end)); }
  }

  lemma ListingFollowsJumps(rooms: seq<Room>, wanted: int)
    requires JumpsOk(rooms, AllJumps(rooms))
    ensures FollowsJumps(PagesOf(rooms, wanted), rooms, PageSize(wanted), Tokens(rooms), AllJumps(rooms))
  {
    var tokens, jumps := Tokens(rooms), AllJumps(rooms);
    forall end | 0 < end < |rooms|
      ensures tokens[end] != ""
      ensures PagesOf(rooms, wanted)(tokens[end]) ==
        if jumps[end] < 0 then Invalid else Ok(PageAt(rooms, PageSize(wanted), tokens, jumps[end]))
    {
      TokenIsThere(rooms[end - 1]);
      TokenLands(rooms, wanted, end);
      if jumps[end] >= 0 { PageFromAt(rooms, PageSize(wanted), jumps[end]); }
    }
  }

  lemma FirstPage(rooms: seq<Room>, wanted: int)
    ensures PageOf(rooms, wanted, "") == Ok(PageAt(rooms, PageSize(wanted), Tokens(rooms), 0))
  {
    assert Start(rooms, Room("", 0)) == 0;
    PageForm(rooms, wanted, "", 0);
    PageFromAt(rooms, PageSize(wanted), 0);
  }

  lemma VisitFromTheFront(list: seq<Room>, wanted: int, n: nat)
    requires Ascending(list) && Timed(list)
    ensures JumpsOk(list, AllJumps(list))
    ensures Visit(PagesOf(list, wanted), "", n) == Deliver(list, PageSize(wanted), AllJumps(list), 0, n)
  {
    AllJumpsOk(list);
    ListingFollowsJumps(list, wanted);
    FirstPage(list, wanted);
    VisitIsDelivery(PagesOf(list, wanted), list, PageSize(wanted), Tokens(list), AllJumps(list), "", 0, n);
  }

  lemma PagesCover(list: seq<Room>, wanted: int)
    requires Ascending(list) && Timed(list) && CleanBreaks(list, PageSize(wanted), 0)
    ensures Visit(PagesOf(list, wanted), "", |list| + 1) == Some(list)
  {
    VisitFromTheFront(list, wanted, |list| + 1);
    DeliversRest(list, PageSize(wanted), AllJumps(list), 0, |list| + 1);
    assert list[0..] == list;
  }

  lemma PagesMiss(list: seq<Room>, wanted: int, n: nat)
    requires Ascending(list) && Timed(list) && !CleanBreaks(list, PageSize(wanted), 0)
    ensures Visit(PagesOf(list, wanted), "", n) != Some(list)
  {
    VisitFromTheFront(list, wanted, n);
    NeverRest(list, PageSize(wanted), AllJumps(list), 0, n);
    assert list[0..] == list;
  }

  /**
   * Following the tokens from the first page on visits every open room exactly once, in order, and
   * then ends, exactly when no page ends in a room whose id is empty or ends in a blank.
   */
  lemma PagesCoverTheLobby(rooms: map<string, Record>, list: seq<Room>, wanted: int)
    requires IsListing(rooms, list) && Timed(list)
    ensures Visit(PagesOf(list, wanted), "", |list| + 1) == Some(list) <==> CleanBreaks(list, PageSize(wanted), 0)
    ensures (exists n: nat :: Visit(PagesOf(list, wanted), "", n) == Some(list)) <==> CleanBreaks(list, PageSize(wanted), 0)
  {
    if CleanBreaks(list, PageSize(wanted), 0) {
      PagesCover(list, wanted);
    } else {
      forall n: nat ensures Visit(PagesOf(list, wanted), "", n) != Some(list) { PagesMiss(list, wanted, n); }
    }
  }

  // ---------- what happens at the other pages ----------

  /**
   * The token of a page that ends in such a room is refused when nothing is left of the id, and
   * otherwise leads to a page that begins with a room already listed, that last one at the latest.
   */
  lemma BreakRepeats(list: seq<Room>, wanted: int, end: nat)
    requires Ascending(list) && Timed(list) && 0 < end < |list| && !CleanId(list[end - 1].id)
    ensures var page := PageOf(list, wanted, FormatToken(list[end - 1]));
            if TrimEnd(list[end - 1].id) == "" then page.Invalid?
            else page.Ok? && page.value.rooms != [] && exists j :: 0 <= j < end && page.value.rooms[0] == list[j]
  {
    TokenRoundTrip(list[end - 1]);
    JumpIs(list, end);
    TokenLands(list, wanted, end);
    var j := Jump(list, end);
    if j >= 0 { assert PageFrom(list, PageSize(wanted), j).value.rooms[0] == list[j]; }
  }

  lemma {:induction false} CleanOn(rooms: seq<Room>, start: nat, k: nat)
    requires start <= k < |rooms| - 1 && CleanBreaks(rooms, 1, start)
    ensures CleanId(rooms[k].id)
    decreases k - start
  {
    if start < k { CleanOn(rooms, start + 1, k); }
  }

  lemma {:induction false} SingleNeverEnds(rooms: seq<Room>, jumps: Jumps, start: nat, n: nat)
    requires JumpsOk(rooms, jumps) && start <= |rooms| && !CleanBreaks(rooms, 1, start)
    ensures Deliver(rooms, 1, jumps, start, n) == None
    decreases n
  {
    if n > 0 {
      var end := start + 1;
      if CleanId(rooms[start].id) {
        SingleNeverEnds(rooms, jumps, end, n - 1);
      } else if jumps[end] >= 0 {
        if CleanBreaks(rooms, 1, jumps[end]) { CleanOn(rooms, jumps[end], start); }
        SingleNeverEnds(rooms, jumps, jumps[end], n - 1);
      }
    }
  }

  /** One room to a page: if such a room comes before the last one, following the tokens never ends. */
  lemma SinglePagesStick(list: seq<Room>, n: nat)
    requires Ascending(list) && Timed(list) && !CleanBreaks(list, 1, 0)
    ensures Visit(PagesOf(list, 1), "", n) == None
  {
    VisitFromTheFront(list, 1, n);
    SingleNeverEnds(list, AllJumps(list), 0, n);
  }

  /** Two open rooms; the id of the first one ends in a blank. */
  function BlankLobby(): map<string, Record> {
    map["a " := Record(1, false, 1, 4), "b" := Record(2, false, 1, 4)]
  }

  /** One room to a page, this lobby is never listed to its end: the first room comes again and again. */
  lemma BlankLobbySticks(n: nat)
    ensures var list := [Room("a ", 1), Room("b", 2)];
            IsListing(BlankLobby(), list) && Timed(list) && Visit(PagesOf(list, 1), "", n) == None
  {
    var list := [Room("a ", 1), Room("b", 2)];
    forall r: Room
      ensures r in list <==> r.id in BlankLobby() && IsOpen(BlankLobby()[r.id]) && BlankLobby()[r.id].created == r.created
    {
      if r.id in BlankLobby() { assert r.id == "a " || r.id == "b"; }
      assert list[0] in list && list[1] in list;
    }
    assert IsBlank("a "[|"a "| - 1]) && !CleanId(list[0].id);
    assert !CleanBreaks(list, 1, 0);
    SinglePagesStick(list, n);
  }
}
