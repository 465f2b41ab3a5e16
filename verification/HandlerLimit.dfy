/** The download limit when it changes: exactly which admissions go against an
    obsolete one, and exactly when none can. */
module HandlerLimit {
  import opened Base
  import opened CacheStore
  import opened Flights
  import opened Gates
  import opened Counters
  import opened Handlers
  import opened HandlerShape
  import opened HandlerGate
  import opened HandlerProgress
  import opened HandlerRuns
  import opened HandlerBoot
  import opened HandlerReimport
  import Lives = Lifecycle

  /** The step gives the request a slot. */
  predicate Admits(env: Env, s: State, id: nat, c: Choice)
    requires id in s.reqs
  {
    !s.reqs[id].slot && NextReq(env, s, s.reqs[id], id, c).slot
  }

  lemma AdmitsIff(env: Env, s: State, id: nat, c: Choice)
    requires GateInv(env, s) && id in s.reqs
    ensures Admits(env, s, id, c) <==> s.reqs[id].pc.TryGate? && s.gate.inFlight < s.reqs[id].pc.limit
  {
    SlotView(env, s, s.reqs[id], id, c);
    assert Shape(env, s.reqs[id]);
    hide NextReq;
  }

  /** A step admits at or above the limit in force if and only if it is an attempt
      with a limit read before that is above the occupancy, while the one in
      force is not. */
  lemma ObsoleteStepIff(env: Env, s: State, id: nat, c: Choice)
    requires GateInv(env, s) && id in s.reqs
    ensures Admits(env, s, id, c) && s.gate.inFlight >= s.limit <==>
            s.reqs[id].pc.TryGate? && s.limit <= s.gate.inFlight < s.reqs[id].pc.limit
  {
    AdmitsIff(env, s, id, c);
    hide Admits, GateInv;
  }

  /** The request has read a limit above the one in force and not yet used it. */
  predicate StaleAt(s: State, id: nat) {
    id in s.reqs && s.reqs[id].pc.TryGate? && s.reqs[id].pc.limit > s.limit
  }

  predicate StaleReader(s: State) { exists id :: id in s.reqs && StaleAt(s, id) }

  /** From here on, while the limit stays, the request is only admitted below it. */
  ghost predicate AlwaysBelowFor(env: Env, s: State, id: nat) {
    forall s1, c :: Reachable(env, s, s1, SteadyRun) && id in s1.reqs && Admits(env, s1, id, c) ==>
      s1.gate.inFlight < s1.limit
  }

  /** And so is every request, present or to come. */
  ghost predicate AlwaysBelow(env: Env, s: State) { forall id :: AlwaysBelowFor(env, s, id) }

  // ------------------------------------------------------ no stale reader, none later

  lemma ApplyKeepsFreshReader(env: Env, s: State, a: Action, id: nat)
    requires Enabled(s, a) && !a.SetLimit? && !StaleAt(s, id)
    ensures !StaleAt(Apply(env, s, a), id) && Apply(env, s, a).limit == s.limit
  {
    if a.Step? {
      SlotView(env, s, s.reqs[a.id], a.id, a.choice);
      hide NextReq, NextStore, Lapsed, StillThere;
    } else if a.StartDownload? || a.StartDelete? {
      StartShape(env, s, a);
      hide Apply, Shape;
    } else {
      hide Drop, DropGen, Tampered, Lives.Written, StillThere, Exec, Download;
    }
  }

  lemma {:induction false} RunKeepsFreshReader(env: Env, s: State, acts: seq<Action>, id: nat)
    requires GateInv(env, s) && Possible(env, s, acts) && AllAllowed(SteadyRun, acts) && !StaleAt(s, id)
    ensures GateInv(env, Run(env, s, acts)) && !StaleAt(Run(env, s, acts), id)
    decreases |acts|
  {
    if acts != [] {
      ApplyKeepsFreshReader(env, s, acts[0], id);
      ApplyKeepsGate(env, s, acts[0]);
      assert AllAllowed(SteadyRun, acts[1..]);
      hide Apply, Enabled, GateInv, StaleAt;
      RunKeepsFreshReader(env, Apply(env, s, acts[0]), acts[1..], id);
    }
  }

  lemma FreshReaderIsBelow(env: Env, s: State, id: nat)
    requires GateInv(env, s) && !StaleAt(s, id)
    ensures AlwaysBelowFor(env, s, id)
  {
    forall s1, c | Reachable(env, s, s1, SteadyRun) && id in s1.reqs && Admits(env, s1, id, c)
      ensures s1.gate.inFlight < s1.limit
    {
      var acts :| Leads(env, s, acts, s1) && AllAllowed(SteadyRun, acts);
      RunKeepsFreshReader(env, s, acts, id);
      AdmitsIff(env, s1, id, c);
    }
  }

  // ------------------------------------------- a stale reader, and the run it needs

  /** The other requests are where they were. */
  predicate Undisturbed(s: State, s': State, id: nat) { id in s.reqs && id in s'.reqs && s'.reqs[id] == s.reqs[id] }

  lemma GateAfter(env: Env, s: State, s': State, m: Manner)
    requires GateInv(env, s) && Reachable(env, s, s', m)
    ensures GateInv(env, s')
  {
    hide GateInv, Run, Possible;
    var acts :| Leads(env, s, acts, s') && AllAllowed(m, acts);
    RunKeepsGate(env, s, acts);
  }

  lemma FreshNumber(used: set<nat>) returns (n: nat)
    ensures n !in used
  {
    n := 0;
    if n in used {
      var m := FreshAbove(used);
      n := m;
    }
  }

  lemma {:induction false} FreshAbove(used: set<nat>) returns (n: nat)
    ensures forall k :: k in used ==> k < n
    decreases |used|
  {
    if used == {} {
      n := 0;
    } else {
      var k :| k in used;
      var m := FreshAbove(used - {k});
      n := if k < m then m else k + 1;
      assert forall j :: j in used ==> j == k || j in used - {k};
    }
  }

  /** A row that is ready for download appears. */
  lemma RowAppears(env: Env, s: State) returns (s': State, rowId: nat)
    ensures Reachable(env, s, s', SteadyRun)
    ensures rowId in s'.rows && Lives.Downloadable(s'.rows[rowId].upload)
    ensures s'.reqs == s.reqs && s'.gate == s.gate && s'.limit == s.limit
  {
    var uuids := set i | i in s.rows :: s.rows[i].uuid;
    var uuid := FreshNumber(s.used + uuids);
    rowId := FreshNumber(s.rows.Keys + s.gone);
    var birth := Lives.Imported(true, Lives.Completed, "", "a");
    assert !UuidThere(s.rows, uuid);
    s' := Apply(env, s, InsertRow(rowId, uuid, birth));
    hide Reachable, Exec, Drop, DropGen, Download, StillThere;
    ReachSelf(env, s, SteadyRun);
    ReachOn(env, s, s, SteadyRun, InsertRow(rowId, uuid, birth));
  }

  /** A download that does not use the cache gets a slot when there is one. */
  lemma SlotTaken(env: Env, s: State, rowId: nat, id: nat) returns (s': State)
    requires rowId in s.rows && Lives.Downloadable(s.rows[rowId].upload) && id !in s.reqs
    requires s.gate.inFlight < s.limit
    ensures Reachable(env, s, s', SteadyRun)
    ensures s'.gate.inFlight == s.gate.inFlight + 1 && s'.limit == s.limit
    ensures forall j :: j in s.reqs ==> Undisturbed(s, s', j)
  {
    hide Reachable;
    ReachSelf(env, s, SteadyRun);
    ReachOn(env, s, s, SteadyRun, StartDownload(id, rowId, false, true));
    var s1 := Apply(env, s, StartDownload(id, rowId, false, true));
    assert s1 == s.(reqs := s.reqs[id := Req(RowAt(s.rows, rowId), "", 0, false, false, false, ReadLimit)]);
    GateStep(env, s1, id);
    ReachOn(env, s, s1, SteadyRun, Step(id, Smooth(0)));
    var s2 := Apply(env, s1, Step(id, Smooth(0)));
    GateStep(env, s2, id);
    hide Exec;
    ReachOn(env, s, s2, SteadyRun, Step(id, Smooth(0)));
    s' := Apply(env, s2, Step(id, Smooth(0)));
  }

  /** A step towards the gate touches nobody else. */
  lemma GateStep(env: Env, s: State, id: nat)
    requires id in s.reqs && InAdmission(s.reqs[id].pc) && !s.reqs[id].pc.AwaitSlot?
    ensures var r, s' := s.reqs[id], Apply(env, s, Step(id, Smooth(0)));
            && s'.reqs == s.reqs[id := NextAdmission(s.gate, s.limit, r, Signalled)]
            && s'.gate == NextGate(s.gate, r) && s'.limit == s.limit
  {
    hide NextAdmission, NextStore, Lapsed, StillThere, NextFlight, NextGate, Bumps, Bump;
  }

  lemma FillOne(env: Env, s: State) returns (s': State)
    requires s.gate.inFlight < s.limit
    ensures Reachable(env, s, s', SteadyRun)
    ensures s'.gate.inFlight == s.gate.inFlight + 1 && s'.limit == s.limit
    ensures forall j :: j in s.reqs ==> Undisturbed(s, s', j)
  {
    hide Reachable;
    var s1, rowId := RowAppears(env, s);
    var id := FreshNumber(s1.reqs.Keys);
    s' := SlotTaken(env, s1, rowId, id);
    ReachThrough(env, s, s1, s', SteadyRun);
  }

  /** Downloads come until the gate is full. */
  lemma {:induction false} Fill(env: Env, s: State, id: nat) returns (s': State)
    requires id in s.reqs
    ensures Reachable(env, s, s', SteadyRun) && s'.limit == s.limit && Undisturbed(s, s', id)
    ensures s'.gate.inFlight == if s.gate.inFlight < s.limit then s.limit else s.gate.inFlight
    decreases s.limit - s.gate.inFlight
  {
    hide Reachable;
    if s.gate.inFlight < s.limit {
      var s1 := FillOne(env, s);
      assert Undisturbed(s, s1, id);
      s' := Fill(env, s1, id);
      ReachThrough(env, s, s1, s', SteadyRun);
    } else {
      s' := s;
      ReachSelf(env, s, SteadyRun);
    }
  }

  lemma HolderSteps(env: Env, s: State, j: nat, id: nat) returns (s': State)
    requires GateInv(env, s) && j in s.reqs && s.reqs[j].slot && id in s.reqs && id != j
    ensures Reachable(env, s, s', SteadyRun) && GateInv(env, s') && s'.limit == s.limit && Undisturbed(s, s', id)
    ensures j in s'.reqs && Rank(s'.reqs[j], s'.gate, 0) < Rank(s.reqs[j], s.gate, 0)
    ensures s'.gate.inFlight == s.gate.inFlight - (if s'.reqs[j].slot then 0 else 1)
  {
    var r, c := s.reqs[j], Smooth(0);
    assert Shape(env, r);
    assert !r.pc.Done? && !r.pc.AwaitSlot? && !r.pc.AwaitFill? && !r.pc.TryGate?;
    NextRank(env, s, r, j, c, 0, 0);
    SlotView(env, s, r, j, c);
    hide Reachable, NextReq, NextStore, Lapsed, StillThere, Shape, Rank, DeletesRow, Bumps, Bump, NextFlight;
    ReachSelf(env, s, SteadyRun);
    ReachOn(env, s, s, SteadyRun, Step(j, c));
    s' := Apply(env, s, Step(j, c));
    ApplyKeepsGate(env, s, Step(j, c));
    hide GateInv;
  }

  /** Whoever holds a slot goes on until it gives it back. */
  lemma {:induction false} HolderReleases(env: Env, s: State, j: nat, id: nat) returns (s': State)
    requires GateInv(env, s) && j in s.reqs && s.reqs[j].slot && id in s.reqs && id != j
    ensures Reachable(env, s, s', SteadyRun) && GateInv(env, s') && s'.limit == s.limit && Undisturbed(s, s', id)
    ensures s'.gate.inFlight == s.gate.inFlight - 1
    decreases Rank(s.reqs[j], s.gate, 0)
  {
    hide Reachable, GateInv, Rank;
    s' := HolderSteps(env, s, j, id);
    if s'.reqs[j].slot {
      var s1 := s';
      s' := HolderReleases(env, s1, j, id);
      ReachThrough(env, s, s1, s', SteadyRun);
    }
  }

  /** Slots are given back until so many are left. */
  lemma {:induction false} Drain(env: Env, s: State, id: nat, target: nat) returns (s': State)
    requires GateInv(env, s) && id in s.reqs && !s.reqs[id].slot && s.gate.inFlight >= target
    ensures Reachable(env, s, s', SteadyRun) && s'.limit == s.limit && Undisturbed(s, s', id)
    ensures s'.gate.inFlight == target
    decreases s.gate.inFlight - target
  {
    hide Reachable;
    if s.gate.inFlight > target {
      assert Holders(s.reqs) != {};
      var j :| j in Holders(s.reqs);
      hide GateInv;
      var s1 := HolderReleases(env, s, j, id);
      s' := Drain(env, s1, id, target);
      ReachThrough(env, s, s1, s', SteadyRun);
    } else {
      s' := s;
      ReachSelf(env, s, SteadyRun);
    }
  }

  /** With a stale reader, some run without another change of the limit admits
      against the obsolete one. */
  lemma SomeIsStale(env: Env, s: State, id: nat) returns (s1: State)
    requires GateInv(env, s) && StaleAt(s, id)
    ensures Reachable(env, s, s1, SteadyRun) && id in s1.reqs && Admits(env, s1, id, Smooth(0))
    ensures s1.gate.inFlight >= s1.limit
  {
    var l := s.reqs[id].pc.limit;
    assert Shape(env, s.reqs[id]) && !s.reqs[id].slot;
    assert s.limit >= 1;
    hide GateInv, Reachable, Shape;
    if s.gate.inFlight >= l {
      s1 := Drain(env, s, id, l - 1);
    } else {
      s1 := Fill(env, s, id);
    }
    GateAfter(env, s, s1, SteadyRun);
    AdmitsIff(env, s1, id, Smooth(0));
    hide Admits;
  }

  /** The exact condition for one request: as long as the limit stays what it is now,
      it will only be admitted below it if and only if it does not stand between
      reading a higher limit and using it. */
  lemma BelowForIff(env: Env, s: State, id: nat)
    requires GateInv(env, s)
    ensures AlwaysBelowFor(env, s, id) <==> !StaleAt(s, id)
  {
    if StaleAt(s, id) {
      var s1 := SomeIsStale(env, s, id);
      hide Reachable, GateInv, Admits;
      assert !AlwaysBelowFor(env, s, id);
    } else {
      FreshReaderIsBelow(env, s, id);
      hide AlwaysBelowFor, GateInv;
    }
  }

  /** And for all of them, those to come included. */
  lemma AlwaysBelowIff(env: Env, s: State)
    requires GateInv(env, s)
    ensures AlwaysBelow(env, s) <==> !StaleReader(s)
  {
    hide AlwaysBelowFor, GateInv;
    forall id ensures AlwaysBelowFor(env, s, id) <==> !StaleAt(s, id) {
      BelowForIff(env, s, id);
    }
    if StaleReader(s) {
      var id :| id in s.reqs && StaleAt(s, id);
      assert !AlwaysBelowFor(env, s, id);
    }
  }

  // ---------------------------------------------------------------- a witness

  /** A booted system that allows two downloads at once. */
  function AllowsTwo(): State { OneUpload(HandlerReimport.Finished("d")).(limit := 2, peak := 2) }

  lemma AllowsTwoBoots(env: Env)
    ensures Booted(env, AllowsTwo())
  {
    BothAreWritten("d");
    OneUploadBoots(env, HandlerReimport.Finished("d"));
    hide AsWritten, LiveKey, Held;
  }

  function Plain(pc: Pc, slot: bool): Req { Req(RowAt(AllowsTwo().rows, 0), "", 0, false, slot, false, pc) }

  /** The system after its first two downloads got so far. */
  function Two(first: Req, second: Req, inFlight: int, limit: int): State {
    AllowsTwo().(reqs := map[0 := first, 1 := second], gate := GateState(inFlight, 0), limit := limit)
  }

  lemma FirstTakesSlot(env: Env)
    ensures Reachable(env, AllowsTwo(), AllowsTwo().(reqs := map[0 := Plain(StartFetch, true)], gate := GateState(1, 0)), AnyRun)
  {
    hide Reachable, NextLookup, NextFetch, NextPromotion, NextDelete, Drop, DropGen, CacheKeys, DownloadKey, UuidThere, Bump,
         LiveKey, Promote, Held;
    var s, c := AllowsTwo(), Smooth(0);
    ReachSelf(env, s, AnyRun);
    ReachOn(env, s, s, AnyRun, StartDownload(0, 0, false, true));
    var s1 := s.(reqs := map[0 := Plain(ReadLimit, false)]);
    assert Apply(env, s, StartDownload(0, 0, false, true)) == s1;
    ReachOn(env, s, s1, AnyRun, Step(0, c));
    var s2 := s.(reqs := map[0 := Plain(TryGate(2), false)]);
    assert Apply(env, s1, Step(0, c)) == s2;
    ReachOn(env, s, s2, AnyRun, Step(0, c));
    assert Apply(env, s2, Step(0, c)) == s.(reqs := map[0 := Plain(StartFetch, true)], gate := GateState(1, 0));
  }

  lemma SecondReadsLimit(env: Env)
    ensures Reachable(env, AllowsTwo(), Two(Plain(StartFetch, true), Plain(TryGate(2), false), 1, 2), AnyRun)
  {
    FirstTakesSlot(env);
    hide Reachable, NextLookup, NextFetch, NextPromotion, NextDelete, Drop, DropGen, CacheKeys, DownloadKey, UuidThere, Bump,
         LiveKey, Promote, Held;
    var s, c := AllowsTwo(), Smooth(0);
    var s1 := s.(reqs := map[0 := Plain(StartFetch, true)], gate := GateState(1, 0));
    ReachOn(env, s, s1, AnyRun, StartDownload(1, 0, false, true));
    var s2 := Two(Plain(StartFetch, true), Plain(ReadLimit, false), 1, 2);
    assert Apply(env, s1, StartDownload(1, 0, false, true)) == s2;
    ReachOn(env, s, s2, AnyRun, Step(1, c));
    assert Apply(env, s2, Step(1, c)) == Two(Plain(StartFetch, true), Plain(TryGate(2), false), 1, 2);
  }

  /** From a booted system: one download holds a slot, a second has read the limit
      of two, the limit is lowered to one, and the second is admitted. */
  lemma ObsoleteAdmission(env: Env)
    ensures Booted(env, AllowsTwo())
    ensures exists s, id :: Reachable(env, AllowsTwo(), s, AnyRun) && id in s.reqs && Admits(env, s, id, Smooth(0))
                            && s.gate.inFlight == 1 == s.limit
  {
    AllowsTwoBoots(env);
    SecondReadsLimit(env);
    var s := Two(Plain(StartFetch, true), Plain(TryGate(2), false), 1, 2);
    var s1 := Two(Plain(StartFetch, true), Plain(TryGate(2), false), 1, 1);
    hide Reachable, Booted;
    ReachOn(env, AllowsTwo(), s, AnyRun, SetLimit(1));
    assert Apply(env, s, SetLimit(1)) == s1;
    assert 1 in s1.reqs && Admits(env, s1, 1, Smooth(0));
  }
}
