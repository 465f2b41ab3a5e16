/** The download gate: a counting semaphore whose limit may change at any time
    and whose waiters are woken by closing the current channel. */
module Gates {
  import opened Flights

  /** Channels are numbered in the order they were made: number `generation` is
      the current `notify`, every smaller one is closed. */
  datatype GateState = GateState(inFlight: int, generation: nat)

  predicate IsOpen(g: GateState, ch: nat) { ch >= g.generation }

  /** One admission attempt against a limit read beforehand. */
  function TryAcquire(g: GateState, limit: int): (GateState, bool) {
    if g.inFlight < limit then (g.(inFlight := g.inFlight + 1), true) else (g, false)
  }

  function Release(g: GateState): GateState {
    GateState(g.inFlight - 1, g.generation + 1)
  }

  class DownloadGate {
    var inFlight: int
    var notify: Chan
    /** Every channel `notify` has held, in order. */
    ghost var made: seq<Chan>

    ghost function State(): GateState
      reads this
    {
      GateState(inFlight, if |made| > 0 then |made| - 1 else 0)
    }

    ghost predicate Valid()
      reads this, made
    {
      && |made| > 0 && made[|made| - 1] == notify
      && !notify.closed
      && (forall i :: 0 <= i < |made| - 1 ==> made[i].closed)
    }

    constructor ()
      ensures Valid() && State() == GateState(0, 0)
    {
      inFlight := 0;
      var ch := new Chan();
      notify := ch;
      made := [ch];
    }

    /** The critical section of `acquire`: either a slot, or the channel to wait
        on, which is open and is the one the next release closes. */
    method Attempt(limit: int) returns (admitted: bool, wait: Chan)
      requires Valid()
      modifies this`inFlight
      ensures Valid()
      ensures (State(), admitted) == TryAcquire(old(State()), limit)
      ensures wait == notify == made[State().generation] && !wait.closed
    {
      admitted := inFlight < limit;
      if admitted {
        inFlight := inFlight + 1;
      }
      wait := notify;
    }

    method ReleaseSlot()
      requires Valid()
      modifies this, notify
      ensures Valid()
      ensures State() == Release(old(State()))
      ensures old(notify).closed && fresh(notify)
      ensures made[..|made| - 1] == old(made)
    {
      inFlight := inFlight - 1;
      notify.Close();
      var ch := new Chan();
      notify := ch;
      made := made + [ch];
    }
  }
}
