/** Whole runs of the machine, built step by step, and the run of one download that
    nothing disturbs. */
module HandlerRuns {
  import opened Base
  import opened CacheStore
  import opened Flights
  import opened Gates
  import opened Counters
  import opened Handlers
  import Lives = Lifecycle

  ghost predicate Leads(env: Env, s: State, acts: seq<Action>, s': State) {
    Possible(env, s, acts) && Run(env, s, acts) == s'
  }

  lemma {:induction false} LeadsOn(env: Env, s: State, acts: seq<Action>, s': State, a: Action)
    requires Leads(env, s, acts, s') && Enabled(s', a)
    ensures Leads(env, s, acts + [a], Apply(env, s', a))
    decreases |acts|
  {
    hide Apply, Enabled;
    var all := acts + [a];
    if acts == [] {
      assert all == [a] && all[1..] == [];
      assert Run(env, Apply(env, s, a), []) == Apply(env, s, a);
    } else {
      assert all[0] == acts[0] && all[1..] == acts[1..] + [a];
      LeadsOn(env, Apply(env, s, acts[0]), acts[1..], s', a);
    }
  }

  /** Which runs are meant: any, those in which the limit stays as it is, or those
      in which moreover nothing fails and nobody tampers with the cache. */
  datatype Manner = AnyRun | SteadyRun | SmoothRun

  predicate Allowed(m: Manner, a: Action) {
    && (m == AnyRun || !a.SetLimit?)
    && (m == SmoothRun ==>
          && !a.Tamper? && (a.Step? ==> !a.choice.fails)
          && (a.Evict? ==> !a.fails) && (a.PurgeKey? ==> !a.fails))
  }

  predicate AllAllowed(m: Manner, acts: seq<Action>) { forall i :: 0 <= i < |acts| ==> Allowed(m, acts[i]) }

  ghost predicate Reachable(env: Env, s: State, s': State, m: Manner) {
    exists acts :: Leads(env, s, acts, s') && AllAllowed(m, acts)
  }

  lemma ReachOn(env: Env, s: State, s': State, m: Manner, a: Action)
    requires Reachable(env, s, s', m) && Enabled(s', a) && Allowed(m, a)
    ensures Reachable(env, s, Apply(env, s', a), m)
  {
    hide Leads, Apply, Enabled;
    var acts :| Leads(env, s, acts, s') && AllAllowed(m, acts);
    LeadsOn(env, s, acts, s', a);
    assert AllAllowed(m, acts + [a]);
  }

  lemma ReachSelf(env: Env, s: State, m: Manner)
    ensures Reachable(env, s, s, m)
  {
    assert Leads(env, s, [], s);
  }

  lemma {:induction false} LeadsConcat(env: Env, s: State, a: seq<Action>, mid: State, b: seq<Action>, s': State)
    requires Leads(env, s, a, mid) && Leads(env, mid, b, s')
    ensures Leads(env, s, a + b, s')
    decreases |b|
  {
    hide Apply, Enabled;
    if b == [] {
      assert a + b == a;
    } else {
      LeadsOn(env, s, a, mid, b[0]);
      LeadsConcat(env, s, a + [b[0]], Apply(env, mid, b[0]), b[1..], s');
      assert a + [b[0]] + b[1..] == a + b;
    }
  }

  lemma ReachThrough(env: Env, s: State, mid: State, s': State, m: Manner)
    requires Reachable(env, s, mid, m) && Reachable(env, mid, s', m)
    ensures Reachable(env, s, s', m)
  {
    hide Leads;
    var a :| Leads(env, s, a, mid) && AllAllowed(m, a);
    var b :| Leads(env, mid, b, s') && AllAllowed(m, b);
    LeadsConcat(env, s, a, mid, b, s');
    assert AllAllowed(m, a + b);
  }

  // ------------------------------------------------- one request among others

  /** The system with request `id` at `r`, and the rest as in `s`. */
  function At(s: State, store: StoreState, flight: FlightState<nat>, gate: GateState, id: nat, r: Req): State {
    s.(store := store, flight := flight, gate := gate, reqs := s.reqs[id := r])
  }

  /** Nothing fails, nothing is short. */
  function Smooth(room: nat): Choice { Choice(false, Signalled, 1, room, room, 0) }

  lemma ExecAt(env: Env, s: State, store: StoreState, flight: FlightState<nat>, gate: GateState, id: nat, r: Req, c: Choice)
    requires !c.fails && c.minUses == 1 && !r.pc.DeleteRow?
    requires StillThere(NextStore(env, store, r, id, c), s.leaked) == s.leaked
    requires Lapsed(env, At(s, store, flight, gate, id, r), r, c) == {}
    ensures Exec(env, At(s, store, flight, gate, id, r), id, c) ==
            At(s, NextStore(env, store, r, id, c), NextFlight(flight, r, id), NextGate(gate, r), id,
               NextReq(env, At(s, store, flight, gate, id, r), r, id, c))
  {
    hide NextReq, NextStore, NextFlight, NextGate, Lapsed, Held;
    var r' := NextReq(env, At(s, store, flight, gate, id, r), r, id, c);
    assert s.reqs[id := r][id := r'] == s.reqs[id := r'];
    assert s.leaked + {} == s.leaked;
  }

  /** Nothing was left behind, or the key the store has. */
  predicate Kept(store: StoreState, leaked: set<string>) { StillThere(store, leaked) == leaked }

  lemma NothingKept(store: StoreState)
    ensures Kept(store, {})
  {
  }

  /** One step of request `id`: what it does to each part is enough to know. */
  lemma Move(env: Env, s0: State, m: Manner, s: State, store: StoreState, flight: FlightState<nat>, gate: GateState,
             id: nat, r: Req, c: Choice, store': StoreState, flight': FlightState<nat>, gate': GateState, r': Req)
    requires Reachable(env, s0, At(s, store, flight, gate, id, r), m)
    requires !c.fails && c.minUses == 1 && !r.pc.DeleteRow? && !r.pc.Done? && !r.pc.AwaitFill? && !r.pc.AwaitSlot?
    requires (s.leaked == {} || Kept(store', s.leaked)) && Lapsed(env, At(s, store, flight, gate, id, r), r, c) == {}
    requires NextStore(env, store, r, id, c) == store'
    requires NextFlight(flight, r, id) == flight' && NextGate(gate, r) == gate'
    requires NextReq(env, At(s, store, flight, gate, id, r), r, id, c) == r'
    ensures Reachable(env, s0, At(s, store', flight', gate', id, r'), m)
  {
    NothingKept(store');
    hide Reachable, NextReq, NextStore, NextFlight, NextGate, Lapsed, Exec, StillThere;
    ExecAt(env, s, store, flight, gate, id, r, c);
    ReachOn(env, s0, At(s, store, flight, gate, id, r), m, Step(id, c));
  }

  // ----------------------------------------------------------- a lone download

  function EmptyStore(): StoreState { StoreState(map[], 0, true, 0, map[], map[]) }

  function NoFlight(): FlightState<nat> { FlightState(map[], {}) }

  /** Nothing is cached, filled or admitted, and row `rowId` can be downloaded. */
  predicate Fresh(env: Env, s: State, id: nat, rowId: nat, key: string) {
    && s.store == EmptyStore() && s.flight == NoFlight() && s.gate == GateState(0, 0) && s.limit >= 1
    && s.leaked == {} && id !in s.reqs
    && rowId in s.rows && Lives.Downloadable(s.rows[rowId].upload)
    && DownloadKey(env, RowAt(s.rows, rowId)) == key && KeyValid(key)
    && FetchId(RowAt(s.rows, rowId)).Some?
  }

  function Body(env: Env, row: Row): Bytes
    requires FetchId(row).Some?
  {
    env.fetch(FetchId(row).value)
  }

  function StagedStore(id: nat, body: Bytes): StoreState { EmptyStore().(tmp := map[id := Regular(body)]) }

  function CachedStore(key: string, body: Bytes): StoreState
    requires KeyValid(key)
  {
    StoreState(map[key := Entry(|body|, 0, 1)], |body|, true, 1, map[PathOf(key) := Regular(body)], map[])
  }

  /** The request of a download that reached its promotion, and the system around it. */
  function ReadyReq(row: Row, key: string, body: Bytes): Req { Req(row, key, 0, true, true, true, PromoteTemp(body, 1)) }

  function ReadyState(s: State, id: nat, row: Row, key: string, body: Bytes): State {
    At(s, StagedStore(id, body), FlightState(map[key := id], {}), GateState(1, 0), id, ReadyReq(row, key, body))
  }

  lemma DownloadStarts(env: Env, s: State, m: Manner, id: nat, rowId: nat, key: string)
    requires Fresh(env, s, id, rowId, key)
    ensures Reachable(env, s, At(s, EmptyStore(), NoFlight(), GateState(0, 0), id,
                                 Req(RowAt(s.rows, rowId), key, 0, false, false, false, ReadEntry(InLoop))), m)
  {
    hide Reachable, DownloadKey, KeyValid, FetchId, Lives.Downloadable;
    assert key != "" by { KeysAreLong(key); }
    ReachSelf(env, s, m);
    ReachOn(env, s, s, m, StartDownload(id, rowId, true, true));
  }

  lemma DownloadLeads(env: Env, s: State, m: Manner, id: nat, rowId: nat, key: string)
    requires Fresh(env, s, id, rowId, key)
    ensures Reachable(env, s, At(s, EmptyStore(), FlightState(map[key := id], {}), GateState(0, 0), id,
                                 Req(RowAt(s.rows, rowId), key, 0, true, false, false, ReadLimit)), m)
  {
    hide NextFetch, NextAdmission, NextPromotion, NextDelete, Drop, DropGen, Promote, Touch, CacheKeys, LiveKey, UuidThere, Bump;
    DownloadStarts(env, s, m, id, rowId, key);
    assert s.leaked == {};
    hide Reachable, Fresh, KeyValid, RowAt;
    var c, e, n, g := Smooth(0), EmptyStore(), NoFlight(), GateState(0, 0);
    var r := Req(RowAt(s.rows, rowId), key, 0, false, false, false, ReadEntry(InLoop));
    Move(env, s, m, s, e, n, g, id, r, c, e, n, g, r.(pc := Join));
    Move(env, s, m, s, e, n, g, id, r.(pc := Join), c,
         e, FlightState(map[key := id], {}), g, r.(leads := true, pc := ReadLimit));
  }

  lemma DownloadIsAdmitted(env: Env, s: State, m: Manner, id: nat, rowId: nat, key: string)
    requires Fresh(env, s, id, rowId, key)
    ensures Reachable(env, s, At(s, EmptyStore(), FlightState(map[key := id], {}), GateState(1, 0), id,
                                 Req(RowAt(s.rows, rowId), key, 0, true, true, false, StartFetch)), m)
  {
    hide NextFetch, NextPromotion, NextDelete, Drop, DropGen, Promote, Touch, CacheKeys, LiveKey, UuidThere, Bump;
    DownloadLeads(env, s, m, id, rowId, key);
    assert key != "" by { KeysAreLong(key); }
    assert s.leaked == {} && s.limit >= 1;
    hide Reachable, Fresh, KeyValid, RowAt;
    var c, e, f, g := Smooth(0), EmptyStore(), FlightState(map[key := id], {}), GateState(0, 0);
    var r := Req(RowAt(s.rows, rowId), key, 0, true, false, false, ReadLimit);
    Move(env, s, m, s, e, f, g, id, r, c, e, f, g, r.(pc := TryGate(s.limit)));
    var adm := r.(slot := true, pc := ReadEntry(Admitted));
    Move(env, s, m, s, e, f, g, id, r.(pc := TryGate(s.limit)), c, e, f, GateState(1, 0), adm);
    Move(env, s, m, s, e, f, GateState(1, 0), id, adm, c, e, f, GateState(1, 0), adm.(pc := StartFetch));
  }

  lemma KeysAreLong(key: string)
    requires KeyValid(key)
    ensures key != ""
  {
  }

  lemma DownloadFetches(env: Env, s: State, m: Manner, id: nat, rowId: nat, key: string)
    requires Fresh(env, s, id, rowId, key)
    ensures var row := RowAt(s.rows, rowId);
            Reachable(env, s, At(s, StagedStore(id, Body(env, row)), FlightState(map[key := id], {}), GateState(1, 0), id,
                                 Req(row, key, 0, true, true, true, OpenTemp)), m)
  {
    hide NextLookup, NextAdmission, NextPromotion, NextDelete, Drop, DropGen, Promote, Touch, CacheKeys, LiveKey, UuidThere, Bump;
    DownloadIsAdmitted(env, s, m, id, rowId, key);
    assert s.leaked == {};
    var row := RowAt(s.rows, rowId);
    var body, c, e := Body(env, row), Smooth(0), EmptyStore();
    hide Reachable, Fresh, KeyValid, RowAt, DownloadKey;
    var f, g := FlightState(map[key := id], {}), GateState(1, 0);
    var r := Req(row, key, 0, true, true, false, StartFetch);
    var w := r.(temp := true, pc := Fetching);
    Move(env, s, m, s, e, f, g, id, r, c, e, f, g, w);
    assert e.(tmp := e.tmp[id := Regular(body)]) == StagedStore(id, body);
    Move(env, s, m, s, e, f, g, id, w, c, StagedStore(id, body), f, g, w.(pc := OpenTemp));
  }

  /** A lone download gets as far as its promotion. */
  lemma DownloadIsReady(env: Env, s: State, m: Manner, id: nat, rowId: nat, key: string)
    requires Fresh(env, s, id, rowId, key)
    ensures var row := RowAt(s.rows, rowId);
            Reachable(env, s, ReadyState(s, id, row, key, Body(env, row)), m)
  {
    hide NextLookup, NextAdmission, NextPromotion, NextDelete, Drop, DropGen, Promote, Touch, CacheKeys, LiveKey, UuidThere, Bump;
    DownloadFetches(env, s, m, id, rowId, key);
    assert key != "" by { KeysAreLong(key); }
    assert s.leaked == {};
    var row := RowAt(s.rows, rowId);
    var body := Body(env, row);
    hide Reachable, Fresh, KeyValid, RowAt, Body, DownloadKey;
    var c, t, f, g := Smooth(|body|), StagedStore(id, body), FlightState(map[key := id], {}), GateState(1, 0);
    var r := Req(row, key, 0, true, true, true, OpenTemp);
    Move(env, s, m, s, t, f, g, id, r, c, t, f, g, r.(pc := Decide(body)));
    Move(env, s, m, s, t, f, g, id, r.(pc := Decide(body)), c, t, f, g, r.(pc := PromoteTemp(body, 1)));
  }

  lemma PromotionFills(id: nat, key: string, body: Bytes)
    requires KeyValid(key)
    ensures Promote(StagedStore(id, body), key, id, |body|, 0, false) == (CachedStore(key, body), Promoted)
  {
    hide KeyValid, PathOf;
    assert StagedStore(id, body).tmp - {id} == map[];
  }

  /** From there it promotes, and its check finds some row of the uuid it knows. */
  lemma ReadyPromotes(env: Env, s0: State, m: Manner, s: State, id: nat, row: Row, key: string, body: Bytes)
    requires Reachable(env, s0, ReadyState(s, id, row, key, body), m)
    requires s.leaked == {} && KeyValid(key)
    ensures Reachable(env, s0, At(s, CachedStore(key, body), FlightState(map[key := id], {}), GateState(1, 0), id,
                                  ReadyReq(row, key, body).(pc := Recheck(body))), m)
  {
    PromotionFills(id, key, body);
    hide Reachable, KeyValid, PathOf, Promote, StagedStore, CachedStore;
    var f, g, r := FlightState(map[key := id], {}), GateState(1, 0), ReadyReq(row, key, body);
    Move(env, s0, m, s, StagedStore(id, body), f, g, id, r, Smooth(|body|), CachedStore(key, body), f, g,
         r.(pc := Recheck(body)));
  }

  lemma CachedIsKept(key: string, body: Bytes, leaked: set<string>)
    requires KeyValid(key) && leaked <= {key}
    ensures Kept(CachedStore(key, body), leaked)
  {
    assert Held(CachedStore(key, body), key);
  }

  function DoneReq(row: Row, key: string, body: Bytes): Req { Req(row, key, 0, false, false, false, Done(Served(body))) }

  function DoneState(s: State, id: nat, row: Row, key: string, body: Bytes): State
    requires KeyValid(key)
  {
    At(s, CachedStore(key, body), FlightState(map[], {id}), GateState(0, 1), id, DoneReq(row, key, body))
  }

  lemma ServingCleansUp(env: Env, s0: State, m: Manner, s: State, id: nat, row: Row, key: string, body: Bytes)
    requires KeyValid(key) && s.leaked <= {key}
    requires Reachable(env, s0, At(s, CachedStore(key, body), FlightState(map[key := id], {}), GateState(1, 0), id,
                                   ReadyReq(row, key, body).(pc := Serve(body))), m)
    ensures Reachable(env, s0, At(s, CachedStore(key, body), FlightState(map[key := id], {}), GateState(1, 0), id,
                                  ReadyReq(row, key, body).(temp := false, pc := ReleaseSlot(Served(body)))), m)
  {
    hide Apply, Enabled, Possible, Run, Exec;
    hide NextLookup, NextAdmission, NextFetch, NextDelete, NextPromotion, LiveKey, UuidThere, Drop, DropGen, Promote, Touch, CacheKeys, DownloadKey, FetchId, Bump;
    CachedIsKept(key, body, s.leaked);
    var st, f, g, o := CachedStore(key, body), FlightState(map[key := id], {}), GateState(1, 0), Served(body);
    assert st.tmp - {id} == st.tmp && st.(tmp := st.tmp) == st;
    hide Reachable, KeyValid, PathOf, CachedStore, Kept;
    var c, r := Smooth(0), ReadyReq(row, key, body);
    Move(env, s0, m, s, st, f, g, id, r.(pc := Serve(body)), c, st, f, g, r.(pc := RemoveTemp(o)));
    Move(env, s0, m, s, st, f, g, id, r.(pc := RemoveTemp(o)), c, st, f, g, r.(temp := false, pc := ReleaseSlot(o)));
  }

  /** And serves, and gives everything back. */
  lemma ServingFinishes(env: Env, s0: State, m: Manner, s: State, id: nat, row: Row, key: string, body: Bytes)
    requires KeyValid(key) && s.leaked <= {key}
    requires Reachable(env, s0, At(s, CachedStore(key, body), FlightState(map[key := id], {}), GateState(1, 0), id,
                                   ReadyReq(row, key, body).(pc := Serve(body))), m)
    ensures Reachable(env, s0, DoneState(s, id, row, key, body), m)
  {
    hide Apply, Enabled, Possible, Run, Exec;
    hide NextLookup, NextAdmission, NextFetch, NextDelete, NextPromotion, LiveKey, UuidThere, Drop, DropGen, Promote, Touch, CacheKeys, DownloadKey, FetchId, Bump;
    ServingCleansUp(env, s0, m, s, id, row, key, body);
    CachedIsKept(key, body, s.leaked);
    var st, f, g, o := CachedStore(key, body), FlightState(map[key := id], {}), GateState(1, 0), Served(body);
    assert f.inflight - {key} == map[];
    hide Reachable, KeyValid, PathOf, CachedStore, Kept;
    var c, u := Smooth(0), ReadyReq(row, key, body).(temp := false, pc := ReleaseSlot(o));
    var v := u.(slot := false, pc := EndFlight(o));
    Move(env, s0, m, s, st, f, g, id, u, c, st, f, GateState(0, 1), v);
    Move(env, s0, m, s, st, f, GateState(0, 1), id, v, c,
         st, FlightState(map[], {id}), GateState(0, 1), DoneReq(row, key, body));
  }

  /** The check lets the bytes stand: for a row served under the key, and so it is
      recorded, also for any other row of the uuid. */
  lemma RecheckServes(env: Env, s0: State, m: Manner, s: State, id: nat, row: Row, key: string, body: Bytes)
    requires KeyValid(key) && s.leaked == {} && UuidThere(s.rows, row.uuid)
    requires Reachable(env, s0, At(s, CachedStore(key, body), FlightState(map[key := id], {}), GateState(1, 0), id,
                                   ReadyReq(row, key, body).(pc := Recheck(body))), m)
    ensures var left := if LiveKey(env, s.rows, key) then {} else {key};
            Reachable(env, s0, At(s, CachedStore(key, body), FlightState(map[key := id], {}), GateState(1, 0), id,
                                  ReadyReq(row, key, body).(pc := Serve(body))).(leaked := left), m)
  {
    var st, f, g := CachedStore(key, body), FlightState(map[key := id], {}), GateState(1, 0);
    var r := ReadyReq(row, key, body).(pc := Recheck(body));
    var s1 := At(s, st, f, g, id, r);
    RecheckStep(env, s, id, row, key, body);
    hide Reachable, KeyValid, PathOf, CachedStore, LiveKey, UuidThere, Exec;
    ReachOn(env, s0, s1, m, Step(id, Smooth(0)));
  }

  lemma RecheckStep(env: Env, s: State, id: nat, row: Row, key: string, body: Bytes)
    requires KeyValid(key) && s.leaked == {} && UuidThere(s.rows, row.uuid)
    ensures var st, f, g := CachedStore(key, body), FlightState(map[key := id], {}), GateState(1, 0);
            var r, left := ReadyReq(row, key, body), if LiveKey(env, s.rows, key) then {} else {key};
            Exec(env, At(s, st, f, g, id, r.(pc := Recheck(body))), id, Smooth(0))
            == At(s, st, f, g, id, r.(pc := Serve(body))).(leaked := left)
  {
    hide Apply, Enabled, Possible, Run;
    hide NextLookup, NextAdmission, NextFetch, NextDelete, Drop, DropGen, Promote, Touch, CacheKeys, DownloadKey, FetchId, Bump;
    var st, r := CachedStore(key, body), ReadyReq(row, key, body).(pc := Recheck(body));
    assert Held(st, key);
    hide KeyValid, PathOf, CachedStore, LiveKey, UuidThere, Held;
    var left := if LiveKey(env, s.rows, key) then {} else {key};
    assert StillThere(st, left) == left;
    assert s.reqs[id := r][id := r.(pc := Serve(body))] == s.reqs[id := r.(pc := Serve(body))];
  }

  /** A download that is ready to promote, of a row that is still served under the
      key, finishes and leaves its bytes cached. */
  lemma ReadyFinishes(env: Env, s0: State, m: Manner, s: State, id: nat, row: Row, key: string, body: Bytes)
    requires Reachable(env, s0, ReadyState(s, id, row, key, body), m)
    requires s.leaked == {} && KeyValid(key) && LiveKey(env, s.rows, key) && UuidThere(s.rows, row.uuid)
    ensures Reachable(env, s0, DoneState(s, id, row, key, body), m)
  {
    hide KeyValid, Reachable, LiveKey, UuidThere;
    ReadyPromotes(env, s0, m, s, id, row, key, body);
    RecheckServes(env, s0, m, s, id, row, key, body);
    assert At(s, CachedStore(key, body), FlightState(map[key := id], {}), GateState(1, 0), id,
              ReadyReq(row, key, body).(pc := Serve(body))).(leaked := {})
           == At(s, CachedStore(key, body), FlightState(map[key := id], {}), GateState(1, 0), id,
                 ReadyReq(row, key, body).(pc := Serve(body)));
    ServingFinishes(env, s0, m, s, id, row, key, body);
  }

  // ------------------------------------------------------------- a lone hit

  /** A request in the coalescing loop, with nothing to give back. */
  predicate InLoopFor(q: Req, key: string) { q.cacheKey == key && !q.leads && !q.slot && !q.temp }

  lemma HitOpens(env: Env, s0: State, m: Manner, s: State, id: nat, q: Req, key: string, body: Bytes)
    requires KeyValid(key) && s.leaked == {} && InLoopFor(q, key)
    requires Reachable(env, s0, At(s, CachedStore(key, body), s.flight, s.gate, id, q.(pc := ReadEntry(InLoop))), m)
    ensures Reachable(env, s0, At(s, CachedStore(key, body), s.flight, s.gate, id, q.(pc := OpenFile(InLoop, |body|, 1))), m)
  {
    hide NextFetch, NextAdmission, NextPromotion, NextDelete, Drop, DropGen, Promote, Touch, CacheKeys, LiveKey, UuidThere, Bump;
    var st, c := CachedStore(key, body), Smooth(0);
    assert st.entries[key] == Entry(|body|, 0, 1) && FileAt(st.disk, key) == Some(Regular(body));
    hide Reachable, KeyValid, PathOf, FileAt;
    Move(env, s0, m, s, st, s.flight, s.gate, id, q.(pc := ReadEntry(InLoop)), c,
         st, s.flight, s.gate, q.(pc := Lstat(InLoop, |body|, 1)));
    Move(env, s0, m, s, st, s.flight, s.gate, id, q.(pc := Lstat(InLoop, |body|, 1)), c,
         st, s.flight, s.gate, q.(pc := OpenFile(InLoop, |body|, 1)));
  }

  lemma HitReads(env: Env, s0: State, m: Manner, s: State, id: nat, q: Req, key: string, body: Bytes)
    requires KeyValid(key) && s.leaked == {} && InLoopFor(q, key)
    requires Reachable(env, s0, At(s, CachedStore(key, body), s.flight, s.gate, id, q.(pc := OpenFile(InLoop, |body|, 1))), m)
    ensures Reachable(env, s0, At(s, CachedStore(key, body), s.flight, s.gate, id, q.(pc := TouchEntry(InLoop, body))), m)
  {
    hide NextFetch, NextAdmission, NextPromotion, NextDelete, Drop, DropGen, Promote, Touch, CacheKeys, LiveKey, UuidThere, Bump;
    var st, c := CachedStore(key, body), Smooth(0);
    assert FileAt(st.disk, key) == Some(Regular(body));
    hide Reachable, KeyValid, PathOf, FileAt;
    var r := q.(pc := OpenFile(InLoop, |body|, 1));
    Move(env, s0, m, s, st, s.flight, s.gate, id, r, c,
         st, s.flight, s.gate, r.(pc := Fstat(InLoop, |body|, 1, Regular(body))));
    Move(env, s0, m, s, st, s.flight, s.gate, id, r.(pc := Fstat(InLoop, |body|, 1, Regular(body))), c,
         st, s.flight, s.gate, r.(pc := TouchEntry(InLoop, body)));
  }

  lemma HitFinishes(env: Env, s0: State, m: Manner, s: State, id: nat, q: Req, key: string, body: Bytes)
    requires KeyValid(key) && s.leaked == {} && InLoopFor(q, key)
    requires Reachable(env, s0, At(s, CachedStore(key, body), s.flight, s.gate, id, q.(pc := TouchEntry(InLoop, body))), m)
    ensures Reachable(env, s0, At(s, CachedStore(key, body), s.flight, s.gate, id, q.(pc := Done(Served(body)))), m)
  {
    hide NextFetch, NextAdmission, NextPromotion, NextDelete, Drop, DropGen, Promote, CacheKeys, LiveKey, UuidThere, Bump;
    var st, c := CachedStore(key, body), Smooth(0);
    assert Touch(st, key, 0) == st;
    hide Reachable, KeyValid, PathOf, CachedStore, Touch;
    var r := q.(pc := TouchEntry(InLoop, body));
    Move(env, s0, m, s, st, s.flight, s.gate, id, r, c, st, s.flight, s.gate, r.(pc := Serve(body)));
    Move(env, s0, m, s, st, s.flight, s.gate, id, r.(pc := Serve(body)), c,
         st, s.flight, s.gate, q.(pc := Done(Served(body))));
  }

  lemma HitFromLoop(env: Env, s0: State, m: Manner, s: State, id: nat, q: Req, key: string, body: Bytes)
    requires KeyValid(key) && s.leaked == {} && InLoopFor(q, key)
    requires Reachable(env, s0, At(s, CachedStore(key, body), s.flight, s.gate, id, q.(pc := ReadEntry(InLoop))), m)
    ensures Reachable(env, s0, At(s, CachedStore(key, body), s.flight, s.gate, id, q.(pc := Done(Served(body)))), m)
  {
    hide Reachable, KeyValid, CachedStore, InLoopFor;
    HitOpens(env, s0, m, s, id, q, key, body);
    HitReads(env, s0, m, s, id, q, key, body);
    HitFinishes(env, s0, m, s, id, q, key, body);
  }

  /** A download of a row whose key is cached is served from the cache. */
  lemma HitServes(env: Env, s0: State, m: Manner, s: State, id: nat, rowId: nat, key: string, body: Bytes)
    requires Reachable(env, s0, s, m) && KeyValid(key) && s.store == CachedStore(key, body) && s.leaked == {}
    requires id !in s.reqs && rowId in s.rows && Lives.Downloadable(s.rows[rowId].upload)
    requires DownloadKey(env, RowAt(s.rows, rowId)) == key
    ensures Reachable(env, s0, At(s, CachedStore(key, body), s.flight, s.gate, id,
                                  DoneReq(RowAt(s.rows, rowId), key, body)), m)
  {
    assert key != "" by { KeysAreLong(key); }
    hide Reachable, KeyValid, PathOf, DownloadKey, RowAt, Lives.Downloadable, CachedStore, Exec;
    var q := DoneReq(RowAt(s.rows, rowId), key, body);
    ReachOn(env, s0, s, m, StartDownload(id, rowId, true, true));
    assert Apply(env, s, StartDownload(id, rowId, true, true))
           == At(s, s.store, s.flight, s.gate, id, q.(pc := ReadEntry(InLoop)));
    HitFromLoop(env, s0, m, s, id, q, key, body);
    assert q.(pc := Done(Served(body))) == q;
  }

  /** A follower that is woken by the end of a fill that left its object cached is
      served from the cache: it takes no slot and fetches nothing. */
  lemma FollowerIsServed(env: Env, s0: State, m: Manner, s: State, id: nat, q: Req, key: string, body: Bytes)
    requires KeyValid(key) && s.leaked == {} && InLoopFor(q, key) && q.pc.AwaitFill? && q.pc.done in s.flight.closed
    requires Reachable(env, s0, At(s, CachedStore(key, body), s.flight, s.gate, id, q), m)
    ensures Reachable(env, s0, At(s, CachedStore(key, body), s.flight, s.gate, id,
                                  q.(round := q.round + 1, pc := Done(Served(body)))), m)
  {
    var st := CachedStore(key, body);
    var s1, c, q1 := At(s, st, s.flight, s.gate, id, q), Smooth(0), q.(round := q.round + 1);
    FollowerWakes(env, s, st, id, q);
    hide Reachable, KeyValid, CachedStore, Exec;
    ReachOn(env, s0, s1, m, Step(id, c));
    HitFromLoop(env, s0, m, s, id, q1, key, body);
  }

  lemma FollowerWakes(env: Env, s: State, st: StoreState, id: nat, q: Req)
    requires q.pc.AwaitFill? && s.leaked == {}
    ensures Exec(env, At(s, st, s.flight, s.gate, id, q), id, Smooth(0)) ==
            At(s, st, s.flight, s.gate, id, q.(round := q.round + 1, pc := ReadEntry(InLoop)))
  {
    hide NextLookup, NextFetch, NextAdmission, NextPromotion, NextDelete, Drop, DropGen, Promote, Touch, CacheKeys, LiveKey,
         UuidThere, Bump, Held;
    ExecAt(env, s, st, s.flight, s.gate, id, q, Smooth(0));
  }
}
