/** Fill coalescing under any number of requests: one leader per key, only the
    leader promotes, channels are closed once, and nothing deadlocks. */
module HandlerFlight {
  import opened Base
  import opened CacheStore
  import opened Flights
  import opened Gates
  import opened Counters
  import opened Handlers
  import opened HandlerShape
  import opened HandlerGate

  /** Request `id` leads the fill of `key`. */
  predicate LeadsKey(reqs: map<nat, Req>, id: nat, key: string) {
    id in reqs && reqs[id].leads && reqs[id].cacheKey == key
  }

  /** A channel carries the number of the request that made it: the registered
      ones are exactly the leaders', the closed ones belong to finished requests. */
  predicate Registered(s: State) {
    && (forall k :: k in s.flight.inflight ==> LeadsKey(s.reqs, s.flight.inflight[k], k))
    && (forall id :: id in s.reqs && s.reqs[id].leads ==>
          s.reqs[id].cacheKey in s.flight.inflight && s.flight.inflight[s.reqs[id].cacheKey] == id)
    && (forall id :: id in s.flight.closed ==> id in s.reqs && s.reqs[id].pc.Done?)
  }

  /** Request `id`, if it waits for a fill, waits for a finished or a live one. */
  predicate WaitsForFill(s: State, id: nat) {
    id in s.reqs && s.reqs[id].pc.AwaitFill? ==>
      s.reqs[id].pc.done in s.flight.closed || LeadsKey(s.reqs, s.reqs[id].pc.done, s.reqs[id].cacheKey)
  }

  predicate FlightInv(s: State) {
    Registered(s) && forall id :: id in s.reqs ==> WaitsForFill(s, id)
  }

  /** How a step moves a request through the flight. */
  lemma FlightView(env: Env, s: State, r: Req, id: nat, c: Choice)
    requires Shape(env, r)
    ensures var r' := NextReq(env, s, r, id, c);
            && (r.pc.Done? ==> r' == r)
            && (r.pc.EndFlight? ==> !r'.leads && r'.pc.Done?)
            && (r.pc.Join? && r.cacheKey !in s.flight.inflight ==>
                  r'.leads && r'.cacheKey == r.cacheKey && !r'.pc.AwaitFill? && !r'.pc.Done?)
            && (r.pc.Join? && r.cacheKey in s.flight.inflight ==>
                  !r'.leads && !r'.pc.Done?
                  && (r'.pc.AwaitFill? ==>
                        r'.cacheKey == r.cacheKey && r'.pc.done == s.flight.inflight[r.cacheKey]))
            && (!r.pc.EndFlight? && !r.pc.Join? ==>
                  && r'.leads == r.leads
                  && (r.leads ==> r'.cacheKey == r.cacheKey)
                  && !r'.pc.AwaitFill?)
  {
    hide NextLookup, NextAdmission, NextFetch, NextPromotion, NextDelete, DownloadKey;
    if InLookup(r.pc) { LookupMoves(s, r, c); }
    else if InAdmission(r.pc) { AdmissionMoves(s, r, c); }
    else if InFetch(r.pc) { FetchMoves(s, r, id, c); }
    else if InPromotion(r.pc) { PromotionMoves(s, r, id, c); }
    else if IsDelete(r.pc) { DeleteMoves(env, s, r, c); }
  }

  lemma LeaderJoins(s: State, s': State, id: nat, r': Req)
    requires Registered(s) && id in s.reqs && !s.reqs[id].leads && !s.reqs[id].pc.Done?
    requires s'.reqs == s.reqs[id := r'] && s'.flight == s.flight.(inflight := s.flight.inflight[r'.cacheKey := id])
    requires r'.leads && r'.cacheKey !in s.flight.inflight
    ensures Registered(s')
  {
    forall k | k in s'.flight.inflight ensures LeadsKey(s'.reqs, s'.flight.inflight[k], k) {
      if k in s.flight.inflight { assert LeadsKey(s.reqs, s.flight.inflight[k], k); }
    }
  }

  lemma LeaderLeaves(s: State, s': State, id: nat, r': Req)
    requires Registered(s) && id in s.reqs && s.reqs[id].leads && r'.pc.Done? && !r'.leads
    requires s'.reqs == s.reqs[id := r'] && s'.flight == Finish(s.flight, s.reqs[id].cacheKey)
    ensures Registered(s')
  {
    forall k | k in s'.flight.inflight ensures LeadsKey(s'.reqs, s'.flight.inflight[k], k) {
      assert LeadsKey(s.reqs, s.flight.inflight[k], k);
    }
  }

  lemma LeaderStays(s: State, s': State, id: nat, r': Req)
    requires Registered(s) && id in s.reqs && r'.leads == s.reqs[id].leads && !s.reqs[id].pc.Done?
    requires s'.reqs == s.reqs[id := r'] && s'.flight == s.flight
    requires r'.leads ==> r'.cacheKey == s.reqs[id].cacheKey
    ensures Registered(s')
  {
    forall k | k in s'.flight.inflight ensures LeadsKey(s'.reqs, s'.flight.inflight[k], k) {
      assert LeadsKey(s.reqs, s.flight.inflight[k], k);
    }
  }

  lemma ExecKeepsRegistered(env: Env, s: State, id: nat, c: Choice)
    requires id in s.reqs && Shape(env, s.reqs[id]) && !s.reqs[id].pc.Done?
    requires Registered(s)
    ensures Registered(Exec(env, s, id, c))
  {
    hide NextReq, NextStore, NextGate, Lapsed, DeletesRow, Bumps, Bump, StillThere, Registered;
    var r, s' := s.reqs[id], Exec(env, s, id, c);
    FlightView(env, s, r, id, c);
    assert r.pc.EndFlight? ==> r.leads;
    assert r.pc.Join? ==> !r.leads;
    hide Shape;
    if r.pc.Join? && r.cacheKey !in s.flight.inflight {
      LeaderJoins(s, s', id, s'.reqs[id]);
    } else if r.pc.EndFlight? {
      LeaderLeaves(s, s', id, s'.reqs[id]);
    } else {
      LeaderStays(s, s', id, s'.reqs[id]);
    }
  }

  lemma ExecKeepsWaiting(env: Env, s: State, id: nat, c: Choice, j: nat)
    requires id in s.reqs && Shape(env, s.reqs[id]) && !s.reqs[id].pc.Done?
    requires Registered(s) && WaitsForFill(s, j)
    ensures WaitsForFill(Exec(env, s, id, c), j)
  {
    hide NextReq, NextStore, NextGate, Lapsed, DeletesRow, Bumps, Bump;
    var r := s.reqs[id];
    FlightView(env, s, r, id, c);
    assert r.pc.EndFlight? ==> r.leads && s.flight.inflight[r.cacheKey] == id;
    assert r.pc.Join? ==> !r.leads;
    hide Shape;
    if j == id && r.cacheKey in s.flight.inflight {
      assert LeadsKey(s.reqs, s.flight.inflight[r.cacheKey], r.cacheKey);
    }
  }

  lemma ExecKeepsFlight(env: Env, s: State, id: nat, c: Choice)
    requires id in s.reqs && Shape(env, s.reqs[id]) && !s.reqs[id].pc.Done?
    requires FlightInv(s)
    ensures FlightInv(Exec(env, s, id, c))
  {
    hide NextReq, NextStore, NextGate, Lapsed, NextFlight, DeletesRow, Bumps, Bump, Shape, Registered;
    ExecKeepsRegistered(env, s, id, c);
    forall j | j in s.reqs ensures WaitsForFill(Exec(env, s, id, c), j) {
      ExecKeepsWaiting(env, s, id, c, j);
    }
    hide WaitsForFill;
  }

  lemma StartKeepsFlight(s: State, id: nat, r: Req)
    requires FlightInv(s) && id !in s.reqs && !r.leads && !r.pc.AwaitFill?
    ensures FlightInv(s.(reqs := s.reqs[id := r]))
  {
    var s' := s.(reqs := s.reqs[id := r]);
    forall k | k in s'.flight.inflight ensures LeadsKey(s'.reqs, s'.flight.inflight[k], k) {
      assert LeadsKey(s.reqs, s.flight.inflight[k], k);
    }
    forall j | j in s'.reqs ensures WaitsForFill(s', j) {
      if j != id { assert WaitsForFill(s, j); }
    }
  }

  lemma ApplyKeepsFlight(env: Env, s: State, a: Action)
    requires GateInv(env, s) && FlightInv(s) && Enabled(s, a)
    ensures FlightInv(Apply(env, s, a))
  {
    if a.Step? {
      assert Shape(env, s.reqs[a.id]);
      hide Shape, Exec;
      ExecKeepsFlight(env, s, a.id, a.choice);
    } else if a.StartDownload? || a.StartDelete? {
      StartShape(env, s, a);
      hide DownloadKey, GateInv, Exec, Shape, Apply;
      StartKeepsFlight(s, a.id, Apply(env, s, a).reqs[a.id]);
    } else {
      hide GateInv, Exec, Drop, DropGen, StillThere, RowOf, DownloadKey;
      OthersKeepFlight(s, Apply(env, s, a));
    }
  }

  lemma OthersKeepFlight(s: State, s': State)
    requires FlightInv(s) && s'.reqs == s.reqs && s'.flight == s.flight
    ensures FlightInv(s')
  {
    forall j | j in s.reqs ensures WaitsForFill(s', j) {
      assert WaitsForFill(s, j);
    }
  }

  lemma {:induction false} RunKeepsFlight(env: Env, s: State, acts: seq<Action>)
    requires GateInv(env, s) && FlightInv(s) && Possible(env, s, acts)
    ensures GateInv(env, Run(env, s, acts)) && FlightInv(Run(env, s, acts))
    decreases |acts|
  {
    if acts != [] {
      ApplyKeepsGate(env, s, acts[0]);
      ApplyKeepsFlight(env, s, acts[0]);
      hide GateInv, FlightInv, Apply, Enabled;
      RunKeepsFlight(env, Apply(env, s, acts[0]), acts[1..]);
    }
  }

  // ------------------------------------------------------------------ theorems

  /** Past the coalescing loop: admitted, or on the way to admission or fetch. */
  predicate PastLoop(r: Req) {
    || InAdmission(r.pc) || r.pc.StartFetch? || InFetch(r.pc) || InPromotion(r.pc)
    || (InLookup(r.pc) && r.pc.at == Admitted)
  }

  predicate Promoting(s: State, id: nat) { id in s.reqs && InPromotion(s.reqs[id].pc) }

  /** In every reachable state, a request past the coalescing loop that may still
      cache its bytes is the registered leader of its key; so promotions of one
      key, up to and including the purge of an outlived one, never overlap. */
  lemma SinglePromoter(env: Env, s: State, acts: seq<Action>, id: nat, other: nat)
    requires GateInv(env, s) && FlightInv(s) && Possible(env, s, acts)
    ensures var s' := Run(env, s, acts);
            && (id in s'.reqs && PastLoop(s'.reqs[id]) && s'.reqs[id].cacheKey != "" ==>
                  && s'.reqs[id].cacheKey in s'.flight.inflight
                  && s'.flight.inflight[s'.reqs[id].cacheKey] == id)
            && (Promoting(s', id) && Promoting(s', other) && s'.reqs[id].cacheKey == s'.reqs[other].cacheKey ==>
                  id == other)
  {
    RunKeepsFlight(env, s, acts);
    hide Run, Possible;
    var s' := Run(env, s, acts);
    if id in s'.reqs { assert Shape(env, s'.reqs[id]); }
    if other in s'.reqs { assert Shape(env, s'.reqs[other]); }
  }

  /** A registered channel is open, so `Finish` closes each channel once; a
      request waits on a flight at most four times, never holding a slot and
      never leading; and whoever waits on an open channel has a live leader. */
  lemma CoalescingLaw(env: Env, s: State, acts: seq<Action>, id: nat)
    requires GateInv(env, s) && FlightInv(s) && Possible(env, s, acts)
    ensures var s' := Run(env, s, acts);
            && s'.flight.inflight.Values !! s'.flight.closed
            && (id in s'.reqs && s'.reqs[id].pc.AwaitFill? ==>
                  && !s'.reqs[id].slot && !s'.reqs[id].leads && s'.reqs[id].round < MAX_FILL_ROUNDS
                  && (s'.reqs[id].pc.done !in s'.flight.closed ==>
                        LeadsKey(s'.reqs, s'.reqs[id].pc.done, s'.reqs[id].cacheKey)))
  {
    RunKeepsFlight(env, s, acts);
    hide Run, Possible;
    var s' := Run(env, s, acts);
    forall k | k in s'.flight.inflight ensures s'.flight.inflight[k] !in s'.flight.closed {
      var j := s'.flight.inflight[k];
      assert LeadsKey(s'.reqs, j, k);
      assert Shape(env, s'.reqs[j]);
    }
    if id in s'.reqs {
      assert Shape(env, s'.reqs[id]);
      assert WaitsForFill(s', id);
    }
  }

  lemma ExecKeepsClosed(env: Env, s: State, id: nat, c: Choice, done: nat)
    requires id in s.reqs && done in s.flight.closed
    ensures done in Exec(env, s, id, c).flight.closed
  {
    hide NextReq, NextStore, NextGate, Lapsed, DeletesRow, Bumps, Bump;
  }

  /** Once closed, a channel stays closed. */
  lemma {:induction false} ClosedForever(env: Env, s: State, acts: seq<Action>, done: nat)
    requires Possible(env, s, acts) && done in s.flight.closed
    ensures done in Run(env, s, acts).flight.closed
    decreases |acts|
  {
    if acts != [] {
      if acts[0].Step? { ExecKeepsClosed(env, s, acts[0].id, acts[0].choice, done); }
      hide Exec;
      var s1 := Apply(env, s, acts[0]);
      assert done in s1.flight.closed;
      hide Apply, Enabled;
      ClosedForever(env, s1, acts[1..], done);
    }
  }

  /** The request can take a step without any timer or cancellation. */
  predicate Ready(s: State, id: nat) {
    && id in s.reqs
    && !s.reqs[id].pc.Done?
    && (s.reqs[id].pc.AwaitFill? ==> s.reqs[id].pc.done in s.flight.closed)
    && (s.reqs[id].pc.AwaitSlot? ==> !IsOpen(s.gate, s.reqs[id].pc.notify))
  }

  lemma SlotHolderIsReady(env: Env, s: State) returns (id: nat)
    requires GateInv(env, s) && s.gate.inFlight > 0
    ensures Ready(s, id)
  {
    assert Holders(s.reqs) != {};
    id :| id in Holders(s.reqs);
    assert Shape(env, s.reqs[id]);
  }

  lemma SomeoneReadyBehindGate(env: Env, s: State, waiter: nat) returns (id: nat)
    requires GateInv(env, s) && waiter in s.reqs && s.reqs[waiter].pc.AwaitSlot?
    ensures Ready(s, id)
  {
    assert Waits(s.gate, s.peak, s.reqs[waiter].pc);
    if IsOpen(s.gate, s.reqs[waiter].pc.notify) {
      id := SlotHolderIsReady(env, s);
    } else {
      id := waiter;
    }
  }

  /** No circular wait: while any request is unfinished, some request can step
      without a timeout or a cancellation. */
  lemma NoDeadlock(env: Env, s: State, acts: seq<Action>, waiter: nat) returns (id: nat)
    requires GateInv(env, s) && FlightInv(s) && Possible(env, s, acts)
    requires var s' := Run(env, s, acts); waiter in s'.reqs && !s'.reqs[waiter].pc.Done?
    ensures Ready(Run(env, s, acts), id)
  {
    RunKeepsFlight(env, s, acts);
    hide Run, Possible;
    var s' := Run(env, s, acts);
    var pc := s'.reqs[waiter].pc;
    if pc.AwaitSlot? {
      id := SomeoneReadyBehindGate(env, s', waiter);
    } else if pc.AwaitFill? && pc.done !in s'.flight.closed {
      var leader := pc.done;
      assert WaitsForFill(s', waiter);
      assert LeadsKey(s'.reqs, leader, s'.reqs[waiter].cacheKey);
      assert Shape(env, s'.reqs[leader]);
      hide GateInv, FlightInv;
      if s'.reqs[leader].pc.AwaitSlot? {
        id := SomeoneReadyBehindGate(env, s', leader);
      } else {
        id := leader;
      }
    } else {
      id := waiter;
    }
  }
}
