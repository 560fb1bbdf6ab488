/** Whole hands played on the engine's mutable record. */
module RoundPlay {
  import opened Tiles
  import opened Walls
  import opened Rounds
  import opened RoundInv
  import opened RoundRuns
  import opened RoundEngine

  method Perform(rs: RoundState, a: Action) returns (ok: bool)
    requires rs.Valid()
    modifies rs
    ensures rs.Valid() && Outcome(rs.State(), ok) == Step(old(rs.State()), a)
  {
    match a {
      case DoExchange(seat, ts, wanted) => ok := rs.ApplyOpening(seat, ExchangeStep, ts, wanted, 0, false);
      case DoMissing(seat, suit) => ok := rs.ApplyOpening(seat, MissingStep, [], 0, suit, false);
      case DoDiscard(seat, t) => ok := rs.ApplyDiscard(seat, t);
      case DoPong(seat) => ok := rs.ApplyPong(seat);
      case DoChi(seat, named) => ok := rs.ApplyChi(seat, named);
      case DoGang(seat, t) => ok := rs.ApplyGang(seat, t);
      case DoHu(seat) => ok := rs.ApplyHu(seat);
      case DoPass(seat) => ok := rs.ApplyPass(seat);
      case DoTimeout => ok := rs.ApplyTimeout();
      case SeatLeaves(seat) => rs.Surrender(seat); ok := true;
    }
  }

  /** A hand dealt from a full wall keeps every tile and stays coherent, whatever is asked of it. */
  method PlayHand(wall: seq<Tile>, withExchange: bool, acts: seq<Action>) returns (rs: RoundState)
    requires IsFullWall(wall)
    ensures rs.Valid() && rs.State() == Run(StartRound(wall, withExchange).rs, acts) && Inv(rs.State())
    ensures forall t: Tile :: Amount(rs.State(), t) + LostInRun(StartRound(wall, withExchange).rs, acts, t) == Supply(t)
  {
    rs := new RoundState(wall, withExchange);
    StartIsInv(wall, withExchange);
    var dealt := rs.StartRound();
    ghost var start := StartRound(wall, withExchange).rs;
    for i := 0 to |acts|
      invariant rs.Valid() && fresh(rs) && Run(rs.State(), acts[i..]) == Run(start, acts)
    {
      assert acts[i..][0] == acts[i] && acts[i..][1..] == acts[i + 1..];
      var ok := Perform(rs, acts[i]);
    }
    assert acts[|acts|..] == [];
    TileConservation(wall, withExchange, acts);
  }
}
