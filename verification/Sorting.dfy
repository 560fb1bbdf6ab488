/** Sorting tiles by a number: by index in saved hands, by code in the exchange. */
module Sorting {
  import opened Tiles

  function Insert(key: Tile -> int, x: Tile, sorted: seq<Tile>): seq<Tile> {
    if sorted == [] then [x]
    else if key(x) <= key(sorted[0]) then [x] + sorted
    else [sorted[0]] + Insert(key, x, sorted[1..])
  }

  function Sort(key: Tile -> int, h: seq<Tile>): seq<Tile> {
    if h == [] then [] else Insert(key, h[0], Sort(key, h[1..]))
  }

  predicate Ascending(key: Tile -> int, h: seq<Tile>) {
    forall i :: 0 < i < |h| ==> key(h[i - 1]) <= key(h[i])
  }

  lemma {:induction false} InsertCount(key: Tile -> int, x: Tile, h: seq<Tile>, t: Tile)
    ensures Num(Insert(key, x, h), t) == Num(h, t) + if x == t then 1 else 0
    ensures |Insert(key, x, h)| == |h| + 1
  {
    if h != [] && key(x) > key(h[0]) { InsertCount(key, x, h[1..], t); }
  }

  /** Sorting keeps every tile. */
  lemma {:induction false} SortCount(key: Tile -> int, h: seq<Tile>, t: Tile)
    ensures Num(Sort(key, h), t) == Num(h, t) && |Sort(key, h)| == |h|
  {
    if h != [] {
      SortCount(key, h[1..], t);
      InsertCount(key, h[0], Sort(key, h[1..]), t);
    }
  }

  lemma {:induction false} InsertAscends(key: Tile -> int, x: Tile, h: seq<Tile>)
    requires Ascending(key, h)
    ensures Ascending(key, Insert(key, x, h)) && Insert(key, x, h) != []
    ensures Insert(key, x, h)[0] == x || (h != [] && Insert(key, x, h)[0] == h[0])
  {
    if h != [] && key(x) > key(h[0]) {
      forall i | 0 < i < |h[1..]| ensures key(h[1..][i - 1]) <= key(h[1..][i]) {
        assert h[1..][i - 1] == h[i] && h[1..][i] == h[i + 1];
      }
      InsertAscends(key, x, h[1..]);
    }
  }

  /** and puts them in order. */
  lemma {:induction false} SortAscends(key: Tile -> int, h: seq<Tile>)
    ensures Ascending(key, Sort(key, h))
  {
    if h != [] {
      SortAscends(key, h[1..]);
      InsertAscends(key, h[0], Sort(key, h[1..]));
    }
  }
}
