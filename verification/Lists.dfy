/** Facts about sequences of anything. */
module Lists {
  lemma JoinThree<T>(a: seq<T>, b: seq<T>, c: seq<T>)
    ensures a + b + c == a + (b + c)
  {
  }
}
