/** Fill coalescing: one leader per key, everybody else waits on its channel. */
module Flights {

  /** A channel used only to be closed.  Closing it twice would panic. */
  class Chan {
    var closed: bool

    constructor ()
      ensures !closed
    {
      closed := false;
    }

    method Close()
      requires !closed
      modifies this
      ensures closed
    {
      closed := true;
    }
  }

  /** The registered channels and the channels closed so far. */
  datatype FlightState<C(==)> = FlightState(inflight: map<string, C>, closed: set<C>)

  /** Joins the key's fill or starts it with the channel `made`. */
  function Begin<C(==)>(f: FlightState<C>, key: string, made: C): (FlightState<C>, bool, C) {
    if key in f.inflight then (f, false, f.inflight[key])
    else (f.(inflight := f.inflight[key := made]), true, made)
  }

  function Finish<C(==)>(f: FlightState<C>, key: string): FlightState<C> {
    if key in f.inflight then FlightState(f.inflight - {key}, f.closed + {f.inflight[key]}) else f
  }

  class Flight {
    var inflight: map<string, Chan>
    ghost var closed: set<Chan>

    ghost function State(): FlightState<Chan>
      reads this
    {
      FlightState(inflight, closed)
    }

    /** Registered channels are open and belong to one key each; a channel
        handed out earlier and no longer registered is closed. */
    ghost predicate Valid()
      reads this, inflight.Values, closed
    {
      && (forall k :: k in inflight ==> !inflight[k].closed)
      && (forall j, k :: j in inflight && k in inflight && inflight[j] == inflight[k] ==> j == k)
      && (forall c :: c in closed ==> c.closed)
    }

    constructor ()
      ensures Valid() && State() == FlightState(map[], {})
    {
      inflight := map[];
      closed := {};
    }

    method BeginFill(key: string) returns (leader: bool, done: Chan)
      requires Valid()
      modifies this
      ensures Valid()
      ensures (State(), leader, done) == Begin(old(State()), key, done)
      ensures leader ==> fresh(done)
      ensures !done.closed
    {
      if key in inflight {
        return false, inflight[key];
      }
      done := new Chan();
      inflight := inflight[key := done];
      leader := true;
    }

    /** Closes exactly the registered channel, which is never closed already. */
    method FinishFill(key: string)
      requires Valid()
      modifies this, if key in inflight then {inflight[key]} else {}
      ensures Valid()
      ensures State() == Finish(old(State()), key)
      ensures key in old(inflight) ==> old(inflight)[key].closed
    {
      if key in inflight {
        var ch := inflight[key];
        ch.Close();
        inflight := inflight - {key};
        closed := closed + {ch};
      }
    }
  }
}
