/** Every request finishes: a bound on the steps any number of requests can still
    take, and with it a finished state from wherever they stand. */
module HandlerProgress {
  import opened Base
  import opened CacheStore
  import opened Flights
  import opened Gates
  import opened Counters
  import opened Handlers
  import opened HandlerShape
  import opened HandlerGate
  import opened HandlerFlight

  /** On the way to the gate. */
  predicate BeforeGate(pc: Pc) {
    (InLookup(pc) && pc.at == InLoop) || pc.Join? || pc.AwaitFill? || InAdmission(pc)
  }

  /** Holds a slot or may still take one: every release comes from such a request,
      and each has at most one to give. */
  predicate MayRelease(r: Req) { r.slot || BeforeGate(r.pc) }

  function Releasers(reqs: map<nat, Req>): set<nat> { set id | id in reqs && MayRelease(reqs[id]) }

  // ----------------------------------------------------------------- the rank

  /** The position within a lookup; the lookup after admission comes later. */
  function LookupPos(pc: Pc): nat
    requires InLookup(pc)
  {
    match pc
    case ReadEntry(_) => 7
    case Lstat(_, _, _) => 6
    case OpenFile(_, _, _) => 5
    case Fstat(_, _, _, _) => 4
    case TouchEntry(_, _) => 3
    case Heal(_, _) => 3
  }

  /** Steps left once admitted or deleting, at most. */
  function TailRank(pc: Pc): nat {
    match pc
    case ReleaseForHit(_) => 15
    case StartFetch => 15
    case Fetching => 14
    case OpenTemp => 13
    case Decide(_) => 12
    case PromoteTemp(_, _) => 11
    case Recheck(_) => 10
    case PurgeOwn(_) => 9
    case Serve(_) => 8
    case RemoveTemp(_) => 7
    case ReleaseSlot(_) => 6
    case EndFlight(_) => 5
    case PurgeBefore(i) => if i < 3 then 13 - i else 10
    case DeleteRow => 9
    case PurgeAfter(i) => if i < 3 then 8 - i else 5
    case _ => 0
  }

  /** The most steps the request can still take when `left` slots may yet be
      released: each release wakes it once, and a fill is awaited at most as often
      as there are rounds. */
  function Rank(r: Req, gate: GateState, left: nat): nat {
    var atGate := 24 + 3 * left;
    if InLookup(r.pc) && r.pc.at == InLoop then
      atGate + 4 + 8 * (if r.round <= MAX_FILL_ROUNDS then MAX_FILL_ROUNDS - r.round else 0) + LookupPos(r.pc)
    else if r.pc.Join? || r.pc.AwaitFill? then
      atGate + 4 + 8 * (if r.round <= MAX_FILL_ROUNDS then MAX_FILL_ROUNDS - r.round else 0) + (if r.pc.Join? then 2 else 1)
    else if InLookup(r.pc) then 15 + LookupPos(r.pc)
    else match r.pc
      case ReadLimit => atGate + 2
      case TryGate(_) => atGate + 1
      case AwaitSlot(notify, _) => if IsOpen(gate, notify) then atGate else atGate + 3
      case _ => TailRank(r.pc)
  }

  lemma RankBound(r: Req, gate: GateState, left: nat)
    ensures Rank(r, gate, left) <= 67 + 3 * left
  {
  }

  /** A release wakes a waiter, and takes away one of the releases left. */
  lemma OthersRank(r: Req, gate: GateState, left: nat, gate': GateState, left': nat)
    requires (gate'.generation == gate.generation && left' <= left)
             || (gate'.generation == gate.generation + 1 && left' < left)
    ensures Rank(r, gate', left') <= Rank(r, gate, left)
  {
  }

  // ------------------------------------------------------- every step goes down

  lemma LookupRank(s: State, r: Req, c: Choice, gate: GateState, left: nat, left': nat)
    requires InLookup(r.pc) && r.round <= MAX_FILL_ROUNDS && left' <= left
    requires r.slot <==> r.pc.at == Admitted
    ensures var r' := NextLookup(s.store, r, c);
            Rank(r', gate, left') < Rank(r, gate, left) && (MayRelease(r') ==> MayRelease(r))
  {
    hide FileAt, IsRegular, IsOpen;
  }

  lemma AdmissionRank(s: State, r: Req, c: Choice, left: nat, left': nat)
    requires InAdmission(r.pc) && !r.temp && !r.slot && left' <= left
    requires r.pc.AwaitSlot? && c.wake == Signalled ==> !IsOpen(s.gate, r.pc.notify)
    ensures var r' := NextAdmission(s.gate, s.limit, r, c.wake);
            Rank(r', NextGate(s.gate, r), left') < Rank(r, s.gate, left) && MayRelease(r)
  {
  }

  predicate TailStep(r: Req, r': Req) {
    && TailRank(r'.pc) < TailRank(r.pc) && !BeforeGate(r'.pc) && !InLookup(r'.pc)
    && (r'.slot ==> r.slot)
  }

  lemma FetchRank(env: Env, s: State, r: Req, id: nat, c: Choice)
    requires InFetch(r.pc) && r.temp
    ensures TailStep(r, NextFetch(s.store.tmp, s.counts, r, id, c))
  {
    hide Bump, FetchId;
  }

  lemma PromotionRank(s: State, r: Req, id: nat, c: Choice)
    requires InPromotion(r.pc)
    ensures TailStep(r, NextPromotion(s, r, id, c))
  {
    hide Promote;
  }

  lemma AtMostTwoKeys(env: Env, row: Row)
    ensures |CacheKeys(env, row)| <= 2
  {
  }

  lemma DeleteRank(env: Env, s: State, r: Req, c: Choice)
    requires IsDelete(r.pc)
    ensures TailStep(r, NextDelete(env, s, r, c))
  {
    AtMostTwoKeys(env, r.row);
    hide CacheKeys, Drop;
  }

  lemma TailStepRank(env: Env, s: State, r: Req, id: nat, c: Choice)
    requires !BeforeGate(r.pc) && !InLookup(r.pc) && !r.pc.Done? && Shape(env, r)
    ensures TailStep(r, NextReq(env, s, r, id, c))
  {
    hide NextLookup, NextAdmission, NextFetch, NextPromotion, NextDelete, DownloadKey;
    if InFetch(r.pc) { FetchRank(env, s, r, id, c); hide Shape, TailStep; }
    else if InPromotion(r.pc) { PromotionRank(s, r, id, c); hide Shape, TailStep; }
    else if IsDelete(r.pc) { DeleteRank(env, s, r, c); hide Shape, TailStep; }
  }

  /** The step of a request takes it down, and never makes a releaser of it. */
  lemma NextRank(env: Env, s: State, r: Req, id: nat, c: Choice, left: nat, left': nat)
    requires Shape(env, r) && !r.pc.Done? && left' <= left
    requires r.pc.AwaitSlot? && c.wake == Signalled ==> !IsOpen(s.gate, r.pc.notify)
    ensures var r' := NextReq(env, s, r, id, c);
            && Rank(r', NextGate(s.gate, r), left') < Rank(r, s.gate, left)
            && (MayRelease(r') ==> MayRelease(r))
  {
    if InLookup(r.pc) {
      assert r.round <= MAX_FILL_ROUNDS && (r.slot <==> r.pc.at == Admitted);
      LookupRank(s, r, c, s.gate, left, left');
      hide Shape, NextLookup, Rank, MayRelease;
    } else if InAdmission(r.pc) {
      assert !r.temp && !r.slot;
      AdmissionRank(s, r, c, left, left');
      hide Shape, NextAdmission, Rank;
    } else if r.pc.Join? || r.pc.AwaitFill? {
      hide IsOpen;
      hide DownloadKey, NextLookup, NextAdmission, NextFetch, NextPromotion, NextDelete;
    } else {
      TailStepRank(env, s, r, id, c);
      hide Shape, NextReq, TailRank;
    }
  }

  /** A step that releases is one of a releaser, which then is none. */
  lemma ReleaseOnce(env: Env, s: State, r: Req, id: nat, c: Choice)
    requires Shape(env, r)
    ensures NextGate(s.gate, r).generation ==
            s.gate.generation + (if r.pc.ReleaseForHit? || r.pc.ReleaseSlot? then 1 else 0)
    ensures r.pc.ReleaseForHit? || r.pc.ReleaseSlot? ==>
              MayRelease(r) && !MayRelease(NextReq(env, s, r, id, c))
  {
    hide DownloadKey, NextLookup, NextAdmission, NextFetch, NextPromotion, NextDelete;
  }

  // -------------------------------------------------------------- all together

  ghost function Sum(m: map<nat, nat>): nat {
    if m == map[] then 0
    else
      var k :| k in m;
      m[k] + Sum(m - {k})
  }

  lemma {:induction false} SumRemove(m: map<nat, nat>, key: nat)
    requires key in m
    ensures Sum(m) == m[key] + Sum(m - {key})
    decreases |m|
  {
    var k :| k in m && Sum(m) == m[k] + Sum(m - {k});
    if k != key {
      SumRemove(m - {k}, key);
      SumRemove(m - {key}, k);
      assert m - {k} - {key} == m - {key} - {k};
    }
  }

  lemma {:induction false} SumGoesDown(m: map<nat, nat>, m': map<nat, nat>)
    requires m.Keys == m'.Keys && forall k :: k in m ==> m'[k] <= m[k]
    ensures Sum(m') <= Sum(m)
    ensures (exists k :: k in m && m'[k] < m[k]) ==> Sum(m') < Sum(m)
    decreases |m|
  {
    if m != map[] {
      var k :| k in m && ((exists j :: j in m && m'[j] < m[j]) ==> m'[k] < m[k]);
      SumRemove(m, k);
      SumRemove(m', k);
      SumGoesDown(m - {k}, m' - {k});
    } else {
      assert m' == map[];
    }
  }

  lemma {:induction false} SumBound(m: map<nat, nat>, b: nat)
    requires forall k :: k in m ==> m[k] <= b
    ensures Sum(m) <= |m| * b
    decreases |m|
  {
    if m != map[] {
      var k :| k in m;
      SumRemove(m, k);
      SumBound(m - {k}, b);
      RemoveOne(m, k);
      OneMore(|m - {k}|, b);
    }
  }

  lemma RemoveOne(m: map<nat, nat>, k: nat)
    requires k in m
    ensures |m - {k}| + 1 == |m|
  {
    assert m.Keys == (m - {k}).Keys + {k};
  }

  lemma OneMore(n: nat, b: nat)
    ensures (n + 1) * b == n * b + b
  {
  }

  function Ranks(reqs: map<nat, Req>, gate: GateState): map<nat, nat> {
    map id | id in reqs :: Rank(reqs[id], gate, |Releasers(reqs)|)
  }

  /** The most steps all requests together can still take. */
  ghost function Potential(s: State): nat { Sum(Ranks(s.reqs, s.gate)) }

  /** With `n` requests it is quadratic in `n`. */
  lemma PotentialBound(s: State)
    ensures Potential(s) <= |s.reqs| * (67 + 3 * |s.reqs|)
  {
    var left := |Releasers(s.reqs)|;
    SubsetSize(Releasers(s.reqs), s.reqs.Keys);
    assert left <= |s.reqs|;
    forall id | id in Ranks(s.reqs, s.gate) ensures Ranks(s.reqs, s.gate)[id] <= 67 + 3 * |s.reqs| {
      RankBound(s.reqs[id], s.gate, left);
    }
    hide Rank;
    SumBound(Ranks(s.reqs, s.gate), 67 + 3 * |s.reqs|);
    assert Ranks(s.reqs, s.gate).Keys == s.reqs.Keys;
  }

  lemma ReleasersShrink(env: Env, s: State, id: nat, c: Choice, left: nat)
    requires id in s.reqs && Shape(env, s.reqs[id]) && !s.reqs[id].pc.Done? && left == |Releasers(s.reqs)|
    requires s.reqs[id].pc.AwaitSlot? && c.wake == Signalled ==> !IsOpen(s.gate, s.reqs[id].pc.notify)
    ensures var r, s' := s.reqs[id], Exec(env, s, id, c);
            && s'.reqs == s.reqs[id := NextReq(env, s, r, id, c)] && s'.gate == NextGate(s.gate, r)
            && |Releasers(s'.reqs)| <= left
            && (s'.gate.generation == s.gate.generation
                || (s'.gate.generation == s.gate.generation + 1 && |Releasers(s'.reqs)| < left))
  {
    var r := s.reqs[id];
    NextRank(env, s, r, id, c, left, left);
    ReleaseOnce(env, s, r, id, c);
    hide NextReq, NextStore, NextFlight, Lapsed, Rank, MayRelease, Shape, NextGate, StillThere, Bumps, DeletesRow;
    CardinalityPut(Releasers(s.reqs), Releasers(Exec(env, s, id, c).reqs), id);
  }

  lemma StepUsesPotential(env: Env, s: State, id: nat, c: Choice)
    requires GateInv(env, s) && Enabled(s, Step(id, c))
    ensures Potential(Exec(env, s, id, c)) < Potential(s)
  {
    var r, s' := s.reqs[id], Exec(env, s, id, c);
    assert Shape(env, r);
    var left, left' := |Releasers(s.reqs)|, |Releasers(s'.reqs)|;
    ReleasersShrink(env, s, id, c, left);
    NextRank(env, s, r, id, c, left, left');
    hide Exec, NextReq, NextGate, Shape, GateInv, Releasers;
    var m, m' := Ranks(s.reqs, s.gate), Ranks(s'.reqs, s'.gate);
    forall j | j in m ensures m'[j] <= m[j] {
      if j != id { OthersRank(s.reqs[j], s.gate, left, s'.gate, left'); }
    }
    hide Rank;
    assert m'[id] < m[id];
    SumGoesDown(m, m');
  }

  /** No further request arrives. */
  predicate NoArrivals(acts: seq<Action>) {
    forall i :: 0 <= i < |acts| ==> !acts[i].StartDownload? && !acts[i].StartDelete?
  }

  function StepsIn(acts: seq<Action>): nat {
    if acts == [] then 0 else (if acts[0].Step? then 1 else 0) + StepsIn(acts[1..])
  }

  lemma ActionPotential(env: Env, s: State, a: Action)
    requires GateInv(env, s) && Enabled(s, a) && !a.StartDownload? && !a.StartDelete?
    ensures Potential(Apply(env, s, a)) + (if a.Step? then 1 else 0) <= Potential(s)
  {
    hide GateInv, Exec;
    if a.Step? {
      StepUsesPotential(env, s, a.id, a.choice);
    } else {
      hide Drop, DropGen, StillThere, RowOf;
      assert Apply(env, s, a).reqs == s.reqs && Apply(env, s, a).gate == s.gate;
    }
  }

  /** Whatever else goes on, and whoever times out or is cancelled, the requests
      that are there take boundedly many steps. */
  lemma {:induction false} StepsAreBounded(env: Env, s: State, acts: seq<Action>)
    requires GateInv(env, s) && Possible(env, s, acts) && NoArrivals(acts)
    ensures StepsIn(acts) + Potential(Run(env, s, acts)) <= Potential(s)
    decreases |acts|
  {
    if acts != [] {
      var s1 := Apply(env, s, acts[0]);
      ApplyKeepsGate(env, s, acts[0]);
      ActionPotential(env, s, acts[0]);
      assert NoArrivals(acts[1..]);
      hide Apply, Enabled, GateInv, Potential, NoArrivals;
      StepsAreBounded(env, s1, acts[1..]);
    }
  }

  predicate AllDone(s: State) { forall id :: id in s.reqs ==> s.reqs[id].pc.Done? }

  ghost predicate Stuck(s: State) { forall id :: !Ready(s, id) }

  /** Where no request can go on by itself, every request is done: so every run that
      keeps serving whoever is ready ends, within the bound, with all done. */
  lemma StuckIsDone(env: Env, s: State)
    requires GateInv(env, s) && FlightInv(s) && Stuck(s)
    ensures AllDone(s)
  {
    if !AllDone(s) {
      var id := SomeReady(env, s);
    }
  }

  /** And from wherever the requests stand, steps alone, without any failure, timeout
      or cancellation, bring every one of them to its end. */
  lemma {:induction false} EveryRequestFinishes(env: Env, s: State) returns (acts: seq<Action>)
    requires GateInv(env, s) && FlightInv(s)
    ensures Possible(env, s, acts) && AllDone(Run(env, s, acts))
    ensures |acts| <= Potential(s)
    ensures forall i :: 0 <= i < |acts| ==> acts[i].Step? && acts[i].choice.wake == Signalled && !acts[i].choice.fails
    decreases Potential(s)
  {
    if AllDone(s) {
      acts := [];
      assert Run(env, s, []) == s;
    } else {
      hide Apply, Enabled, GateInv, FlightInv, Potential, AllDone, Run, Possible;
      var a := ServeOne(env, s);
      var rest := EveryRequestFinishes(env, Apply(env, s, a));
      acts := [a] + rest;
      RunCons(env, s, a, rest);
    }
  }

  lemma RunCons(env: Env, s: State, a: Action, rest: seq<Action>)
    requires Enabled(s, a) && Possible(env, Apply(env, s, a), rest)
    ensures Possible(env, s, [a] + rest) && Run(env, s, [a] + rest) == Run(env, Apply(env, s, a), rest)
  {
    hide Apply, Enabled;
    assert ([a] + rest)[1..] == rest;
  }

  lemma ServeOne(env: Env, s: State) returns (a: Action)
    requires GateInv(env, s) && FlightInv(s) && !AllDone(s)
    ensures a.Step? && a.choice.wake == Signalled && !a.choice.fails && Enabled(s, a)
    ensures var s1 := Apply(env, s, a); GateInv(env, s1) && FlightInv(s1) && Potential(s1) < Potential(s)
  {
    var id := SomeReady(env, s);
    a := Step(id, Choice(false, Signalled, 1, 0, 0, 0));
    ApplyKeepsGate(env, s, a);
    ApplyKeepsFlight(env, s, a);
    StepUsesPotential(env, s, id, a.choice);
    hide GateInv, FlightInv, Potential, AllDone, Exec;
  }

  lemma SomeReady(env: Env, s: State) returns (id: nat)
    requires GateInv(env, s) && FlightInv(s) && !AllDone(s)
    ensures Ready(s, id)
  {
    var waiter :| waiter in s.reqs && !s.reqs[waiter].pc.Done?;
    assert Run(env, s, []) == s && Possible(env, s, []);
    id := NoDeadlock(env, s, [], waiter);
  }
}
