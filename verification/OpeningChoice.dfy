/** The exchange of three tiles and the choices made for a seat (internal/mahjong/sichuan/xuezhandaodi/opening.go). */
module OpeningChoice {
  import opened Tiles
  import opened Rounds
  import opened RoundInv
  import opened RoundTiles
  import opened Sorting

  // ---------- the exchange ----------

  /**
   * The submission that completes the exchange: no seat misses a tile it gave away, and every seat
   * ends with its hand without its own selection and with the one of the seat `offset` places on.
   */
  lemma ExchangeResult(rs: Round, seat: Seat, ts: seq<Tile>, wanted: int, surrender: bool, s: Seat)
    requires Inv(rs) && rs.phase == OpeningPhase && CurrentStep(rs) == ExchangeStep
    requires ApplyExchange(rs, seat, ts, wanted, surrender).ok && AllDone(rs.opening.exchangeDone[seat := true])
    ensures var sel := rs.opening.selections[seat := if surrender then [] else ts];
            var giver := GiverOf(s, Offset(Direction(rs, wanted)));
            var after := ApplyExchange(rs, seat, ts, wanted, surrender).rs.hands[s];
            && RemoveEach(rs.hands[s], sel[s]).1
            && |after| == |rs.hands[s]| - |sel[s]| + |sel[giver]|
            && forall t: Tile :: Num(after, t) == Num(rs.hands[s], t) - Num(sel[s], t) + Num(sel[giver], t)
  {
    var own := if surrender then [] else ts;
    var sel: Piles := rs.opening.selections[seat := own];
    var offset := Offset(Direction(rs, wanted));
    RemoveEachTakes(rs.hands[seat], own);
    assert SelectionOk(rs, s);
    assert Within(sel[s], rs.hands[s]);
    RemoveAllTakes(rs.hands[s], sel[s]);
    ExchangedIs(rs, seat, ts, wanted, surrender, s);
    forall t: Tile
      ensures Num(Swapped(rs.hands, sel, offset, s), t)
              == Num(rs.hands[s], t) - Num(sel[s], t) + Num(sel[GiverOf(s, offset)], t)
      ensures |Swapped(rs.hands, sel, offset, s)| == |rs.hands[s]| - |sel[s]| + |sel[GiverOf(s, offset)]|
    {
      ExchangedHand(rs.hands, sel, offset, s, t);
    }
    ExchangedHand(rs.hands, sel, offset, s, NO_TILE);
  }

  lemma ExchangedIs(rs: Round, seat: Seat, ts: seq<Tile>, wanted: int, surrender: bool, s: Seat)
    requires ApplyExchange(rs, seat, ts, wanted, surrender).ok && AllDone(rs.opening.exchangeDone[seat := true])
    ensures ApplyExchange(rs, seat, ts, wanted, surrender).rs.hands[s] ==
      Swapped(rs.hands, rs.opening.selections[seat := if surrender then [] else ts], Offset(Direction(rs, wanted)), s)
  {
    assert s == 0 || s == 1 || s == 2 || s == 3;
  }

  // ---------- picking three tiles ----------

  function Code(t: Tile): int { t }

  /** By suit, then by rank, which is the order of the tile codes. */
  function SortByCode(h: seq<Tile>): seq<Tile> { Sort(Code, h) }

  function OfSuit(h: seq<Tile>, suit: nat): seq<Tile> {
    if h == [] then [] else (if Suit(h[0]) == suit then [h[0]] else []) + OfSuit(h[1..], suit)
  }

  predicate AllSuited(h: seq<Tile>) { forall i :: 0 <= i < |h| ==> IsSuited(h[i]) }

  /** The first of the three suits that the hand has most of. */
  predicate IsFirstLargest(h: seq<Tile>, suit: nat) {
    && suit <= BAMBOO
    && (forall s: nat :: s <= BAMBOO ==> CountSuit(h, s) <= CountSuit(h, suit))
    && forall s: nat :: s < suit ==> CountSuit(h, s) < CountSuit(h, suit)
  }

  lemma {:induction false} InsertSuit(x: Tile, h: seq<Tile>, suit: nat)
    ensures CountSuit(Insert(Code, x, h), suit) == CountSuit(h, suit) + if Suit(x) == suit then 1 else 0
  {
    if h != [] && x > h[0] { InsertSuit(x, h[1..], suit); }
  }

  lemma {:induction false} SortSuit(h: seq<Tile>, suit: nat)
    ensures CountSuit(SortByCode(h), suit) == CountSuit(h, suit)
  {
    if h != [] {
      SortSuit(h[1..], suit);
      InsertSuit(h[0], SortByCode(h[1..]), suit);
    }
  }

  lemma SortKeeps(h: seq<Tile>, t: Tile, suit: nat)
    ensures Num(SortByCode(h), t) == Num(h, t) && CountSuit(SortByCode(h), suit) == CountSuit(h, suit)
    ensures |SortByCode(h)| == |h|
  {
    SortCount(Code, h, t);
    SortSuit(h, suit);
  }

  lemma {:induction false} OfSuitIs(h: seq<Tile>, suit: nat, t: Tile)
    ensures |OfSuit(h, suit)| == CountSuit(h, suit)
    ensures Num(OfSuit(h, suit), t) == if Suit(t) == suit then Num(h, t) else 0
    ensures forall i :: 0 <= i < |OfSuit(h, suit)| ==> Suit(OfSuit(h, suit)[i]) == suit
  {
    if h != [] {
      OfSuitIs(h[1..], suit, t);
      var first := if Suit(h[0]) == suit then [h[0]] else [];
      NumConcat(first, OfSuit(h[1..], suit), t);
      assert Num([h[0]], t) == (if h[0] == t then 1 else 0) + Num([], t);
    }
  }

  lemma {:induction false} NumOfPrefix(h: seq<Tile>, n: nat, t: Tile)
    requires n <= |h|
    ensures Num(h[..n], t) <= Num(h, t)
  {
    NumConcat(h[..n], h[n..], t);
    assert h == h[..n] + h[n..];
  }

  /** Seven suited tiles are too many for two of each suit. */
  lemma {:induction false} SuitsAddUp(h: seq<Tile>)
    requires AllSuited(h)
    ensures CountSuit(h, CHARACTERS) + CountSuit(h, DOTS) + CountSuit(h, BAMBOO) == |h|
  {
    if h != [] {
      assert IsSuited(h[0]);
      assert forall i :: 0 <= i < |h[1..]| ==> h[1..][i] == h[i + 1];
      SuitsAddUp(h[1..]);
    }
  }

  method CountTiles(h: seq<Tile>, suit: nat) returns (n: nat)
    ensures n == CountSuit(h, suit)
  {
    n := 0;
    for i := 0 to |h|
      invariant n + CountSuit(h[i..], suit) == CountSuit(h, suit)
    {
      if Suit(h[i]) == suit { n := n + 1; }
    }
  }

  /** The suit to give from: ties go to the earlier suit. */
  method LargestSuit(h: seq<Tile>) returns (target: nat)
    ensures IsFirstLargest(h, target)
  {
    target := CHARACTERS;
    var most: int := -1;
    for suit := 0 to 3
      invariant suit == 0 ==> most == -1 && target == CHARACTERS
      invariant suit > 0 ==> target < suit && most == CountSuit(h, target)
      invariant forall s: nat :: s < suit ==> CountSuit(h, s) <= most
      invariant forall s: nat :: s < target ==> CountSuit(h, s) < most
    {
      var n := CountTiles(h, suit);
      if n > most { target, most := suit, n; }
    }
  }

  lemma EnoughOfOne(h: seq<Tile>, suit: nat)
    requires AllSuited(h) && |h| >= 7 && IsFirstLargest(h, suit)
    ensures |OfSuit(SortByCode(h), suit)| >= 3
  {
    SuitsAddUp(h);
    assert CountSuit(h, CHARACTERS) <= CountSuit(h, suit) && CountSuit(h, DOTS) <= CountSuit(h, suit);
    assert CountSuit(h, BAMBOO) <= CountSuit(h, suit);
    OfSuitIs(SortByCode(h), suit, NO_TILE);
    SortKeeps(h, NO_TILE, suit);
  }

  /** The first three tiles of the suit, or as many as there are. */
  method FirstOfSuit(ts: seq<Tile>, suit: nat) returns (picked: seq<Tile>)
    ensures picked == if |OfSuit(ts, suit)| >= 3 then OfSuit(ts, suit)[..3] else OfSuit(ts, suit)
  {
    ghost var own := OfSuit(ts, suit);
    picked := [];
    for i := 0 to |ts|
      invariant |picked| < 3 && picked + OfSuit(ts[i..], suit) == own
    {
      if Suit(ts[i]) == suit {
        picked := picked + [ts[i]];
        if |picked| == 3 {
          assert own[..3] == picked;
          return;
        }
      }
    }
    assert picked == own;
  }

  /**
   * The three tiles picked for a seat that names none: they are in the hand; and of seven or more
   * suited tiles they are the three lowest of the first suit the hand has most of.
   */
  method ChooseExchange(h: seq<Tile>) returns (picked: seq<Tile>)
    requires |h| >= 3
    ensures |picked| == 3 && Within(picked, h)
    ensures AllSuited(h) && |h| >= 7 ==>
      exists suit: nat :: IsFirstLargest(h, suit) && LowestThree(h, suit, picked)
  {
    var ts := SortByCode(h);
    var target := LargestSuit(h);
    if AllSuited(h) && |h| >= 7 { EnoughOfOne(h, target); }
    picked := FirstOfSuit(ts, target);
    if |picked| == 3 {
      PickedWithin(h, ts, OfSuit(ts, target), target);
    } else {
      SortKeeps(h, NO_TILE, target);
      picked := ts[..3];
      forall t: Tile ensures Num(picked, t) <= Num(h, t) {
        NumOfPrefix(ts, 3, t);
        SortKeeps(h, t, target);
      }
    }
  }

  /** The three lowest tiles that the hand has of the suit. */
  predicate LowestThree(h: seq<Tile>, suit: nat, picked: seq<Tile>) {
    var own := OfSuit(SortByCode(h), suit);
    |own| >= 3 && picked == own[..3] && forall i :: 0 <= i < 3 ==> Suit(picked[i]) == suit
  }

  lemma PickedWithin(h: seq<Tile>, ts: seq<Tile>, own: seq<Tile>, suit: nat)
    requires ts == SortByCode(h) && own == OfSuit(ts, suit) && |own| >= 3
    ensures Within(own[..3], h) && LowestThree(h, suit, own[..3])
  {
    OfSuitIs(ts, suit, NO_TILE);
    forall t: Tile ensures Num(own[..3], t) <= Num(h, t) {
      NumOfPrefix(own, 3, t);
      OfSuitIs(ts, suit, t);
      SortKeeps(h, t, suit);
    }
  }

  // ---------- naming the missing suit ----------

  /** The suit named for a seat is the first of those it has least of. */
  lemma MissingIsFirstLeast(h: seq<Tile>)
    ensures 0 <= ChooseMissing(h) <= 2
    ensures forall s: nat :: s <= BAMBOO ==> CountSuit(h, ChooseMissing(h)) <= CountSuit(h, s)
    ensures forall s: nat :: s < ChooseMissing(h) ==> CountSuit(h, ChooseMissing(h)) < CountSuit(h, s)
  {
    forall s: nat | s <= BAMBOO
      ensures CountSuit(h, ChooseMissing(h)) <= CountSuit(h, s)
      ensures s < ChooseMissing(h) ==> CountSuit(h, ChooseMissing(h)) < CountSuit(h, s)
    {
      assert s == CHARACTERS || s == DOTS || s == BAMBOO;
    }
  }
}
