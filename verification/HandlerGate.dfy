/** The gate under any number of requests: slots are counted exactly, no wakeup
    is lost, and an unchanged limit is never exceeded. */
module HandlerGate {
  import opened Base
  import opened CacheStore
  import opened Flights
  import opened Gates
  import opened Counters
  import opened Handlers
  import opened HandlerShape
  import Lives = Lifecycle

  function Holders(reqs: map<nat, Req>): set<nat> { set id | id in reqs && reqs[id].slot }

  /** Every request has its shape, the gate counts exactly the requests holding a
      slot, and whoever waits on the gate's current channel found it full. */
  predicate GateInv(env: Env, s: State) {
    && (forall id :: id in s.reqs ==> Shape(env, s.reqs[id]))
    && s.gate.inFlight == |Holders(s.reqs)|
    && 1 <= s.limit <= s.peak <= 1000
    && s.gate.inFlight <= s.peak
    && (forall id :: id in s.reqs ==> Waits(s.gate, s.peak, s.reqs[id].pc))
  }

  predicate Waits(g: GateState, peak: int, pc: Pc) {
    && (pc.TryGate? ==> 1 <= pc.limit <= peak)
    && (pc.AwaitSlot? ==>
          1 <= pc.limit <= peak && pc.notify <= g.generation && (IsOpen(g, pc.notify) ==> g.inFlight >= pc.limit))
  }

  lemma CardinalityPut(was: set<nat>, now: set<nat>, id: nat)
    requires forall j :: j != id ==> (j in now <==> j in was)
    ensures |now| == |was| + (if id in now then 1 else 0) - (if id in was then 1 else 0)
  {
    assert now - {id} == was - {id};
    assert |now - {id}| == |now| - (if id in now then 1 else 0);
    assert |was - {id}| == |was| - (if id in was then 1 else 0);
  }

  lemma HoldersPut(reqs: map<nat, Req>, id: nat, r: Req)
    ensures |Holders(reqs[id := r])| ==
            |Holders(reqs)| + (if r.slot then 1 else 0) - (if id in reqs && reqs[id].slot then 1 else 0)
  {
    CardinalityPut(Holders(reqs), Holders(reqs[id := r]), id);
  }

  /** How a step moves a request through the gate. */
  lemma SlotView(env: Env, s: State, r: Req, id: nat, c: Choice)
    ensures var r' := NextReq(env, s, r, id, c);
            && r'.slot == (if r.pc.TryGate? then TryAcquire(s.gate, r.pc.limit).1 || r.slot
                           else !r.pc.ReleaseForHit? && !r.pc.ReleaseSlot? && r.slot)
            && (r'.pc.TryGate? ==> r'.pc == TryGate(s.limit))
            && (r'.pc.AwaitSlot? ==>
                  && r.pc.TryGate? && !TryAcquire(s.gate, r.pc.limit).1
                  && r'.pc == AwaitSlot(s.gate.generation, r.pc.limit))
  {
    hide NextLookup, NextAdmission, NextFetch, NextPromotion, NextDelete, TryAcquire;
    if InLookup(r.pc) { LookupMoves(s, r, c); }
    else if InAdmission(r.pc) { AdmissionMoves(s, r, c); }
    else if InFetch(r.pc) { FetchMoves(s, r, id, c); }
    else if InPromotion(r.pc) { PromotionMoves(s, r, id, c); }
    else if IsDelete(r.pc) { DeleteMoves(env, s, r, c); }
  }

  lemma WaitsLater(g: GateState, g': GateState, peak: int, peak': int, pc: Pc)
    requires Waits(g, peak, pc) && peak <= peak'
    requires g' == g || g' == Release(g) || g' == g.(inFlight := g.inFlight + 1)
    ensures Waits(g', peak', pc)
  {
  }

  lemma ExecKeepsGate(env: Env, s: State, id: nat, c: Choice)
    requires GateInv(env, s) && id in s.reqs
    ensures GateInv(env, Exec(env, s, id, c))
  {
    hide NextReq, Holders, NextStore, NextFlight, Lapsed, DeletesRow, Bumps, Bump;
    var r := s.reqs[id];
    var r' := NextReq(env, s, r, id, c);
    var g' := NextGate(s.gate, r);
    assert Shape(env, r) && Waits(s.gate, s.peak, r.pc);
    NextShape(env, s, r, id, c);
    SlotView(env, s, r, id, c);
    HoldersPut(s.reqs, id, r');
    assert r.pc.TryGate? ==> !r.slot;
    assert r.pc.ReleaseForHit? || r.pc.ReleaseSlot? ==> r.slot;
    hide Shape;
    forall j | j in s.reqs ensures Waits(g', s.peak, s.reqs[j].pc) {
      WaitsLater(s.gate, g', s.peak, s.peak, s.reqs[j].pc);
    }
  }

  lemma NewReqShape(env: Env, row: Row, eligible: bool, status: nat)
    ensures Shape(env, Download(env, row, eligible)) && !Download(env, row, eligible).slot
    ensures Shape(env, Turned(row, status)) && Shape(env, Deletion(row))
  {
  }

  /** The request a start action adds: turned away, a download or a deletion. */
  lemma StartShape(env: Env, s: State, a: Action)
    requires (a.StartDownload? || a.StartDelete?) && Enabled(s, a)
    ensures var s' := Apply(env, s, a);
            && a.id in s'.reqs && s' == s.(reqs := s.reqs[a.id := s'.reqs[a.id]])
            && var r := s'.reqs[a.id];
            && Shape(env, r) && !r.slot && !r.leads && !r.temp
            && (r.pc.Done? || r.pc == ReadEntry(InLoop) || r.pc == ReadLimit || r.pc == PurgeBefore(0))
            && (r.pc.Done? ==> !r.pc.outcome.Served?)
            && (!r.pc.Done? ==> a.rowId in s.rows && r.row == RowAt(s.rows, a.rowId)
                                && (!IsDelete(r.pc) ==> Lives.Downloadable(s.rows[a.rowId].upload)))
  {
    hide DownloadKey;
    if a.rowId in s.rows {
      NewReqShape(env, RowAt(s.rows, a.rowId), a.StartDownload? && a.eligible, 409);
    }
    NewReqShape(env, NoRow(a.rowId), false, 404);
    hide Shape;
  }

  lemma StartKeepsGate(env: Env, s: State, id: nat, r: Req)
    requires GateInv(env, s) && id !in s.reqs
    requires Shape(env, r) && !r.slot && !r.pc.TryGate? && !r.pc.AwaitSlot?
    ensures GateInv(env, s.(reqs := s.reqs[id := r]))
  {
    HoldersPut(s.reqs, id, r);
    hide Shape, Holders;
  }

  lemma ApplyKeepsGate(env: Env, s: State, a: Action)
    requires GateInv(env, s) && Enabled(s, a)
    ensures GateInv(env, Apply(env, s, a))
  {
    match a
    case Step(id, c) =>
      ExecKeepsGate(env, s, id, c);
    case StartDownload(id, _, _, _) =>
      StartShape(env, s, a);
      hide Shape, Holders, Apply;
      StartKeepsGate(env, s, id, Apply(env, s, a).reqs[id]);
    case StartDelete(id, _, _) =>
      StartShape(env, s, a);
      hide Shape, Holders, Apply;
      StartKeepsGate(env, s, id, Apply(env, s, a).reqs[id]);
    case _ =>
      hide Shape, Holders;
      forall j | j in s.reqs ensures Waits(s.gate, Apply(env, s, a).peak, s.reqs[j].pc) {
        WaitsLater(s.gate, s.gate, s.peak, Apply(env, s, a).peak, s.reqs[j].pc);
      }
  }

  lemma {:induction false} RunKeepsGate(env: Env, s: State, acts: seq<Action>)
    requires GateInv(env, s) && Possible(env, s, acts)
    ensures GateInv(env, Run(env, s, acts))
    decreases |acts|
  {
    if acts != [] {
      ApplyKeepsGate(env, s, acts[0]);
      hide GateInv, Apply, Enabled;
      RunKeepsGate(env, Apply(env, s, acts[0]), acts[1..]);
    }
  }

  /** No lost wakeup: in every reachable state a request parked on a channel that
      is still open holds the gate's current channel, which the next release
      closes, and the gate is still as full as the limit it read. */
  lemma NoLostWakeup(env: Env, s: State, acts: seq<Action>, id: nat)
    requires GateInv(env, s) && Possible(env, s, acts)
    ensures var s' := Run(env, s, acts);
            id in s'.reqs && s'.reqs[id].pc.AwaitSlot? && IsOpen(s'.gate, s'.reqs[id].pc.notify) ==>
              && s'.reqs[id].pc.notify == s'.gate.generation
              && s'.gate.inFlight >= s'.reqs[id].pc.limit
  {
    RunKeepsGate(env, s, acts);
    hide Run, Possible;
  }

  // ------------------------------------------------------------------- limits

  predicate NoLimitChange(acts: seq<Action>) { forall i :: 0 <= i < |acts| ==> !acts[i].SetLimit? }

  lemma {:induction false} RunKeepsLimit(env: Env, s: State, acts: seq<Action>)
    requires Possible(env, s, acts) && NoLimitChange(acts)
    ensures Run(env, s, acts).limit == s.limit && Run(env, s, acts).peak == s.peak
    decreases |acts|
  {
    if acts != [] {
      var s1 := Apply(env, s, acts[0]);
      assert s1.limit == s.limit && s1.peak == s.peak;
      hide Apply, Enabled;
      assert NoLimitChange(acts[1..]);
      RunKeepsLimit(env, s1, acts[1..]);
    }
  }

  /** With a limit that does not change, the gate never admits more than it. */
  lemma NeverAboveConstantLimit(env: Env, s: State, acts: seq<Action>)
    requires GateInv(env, s) && s.peak == s.limit && Possible(env, s, acts) && NoLimitChange(acts)
    ensures Run(env, s, acts).gate.inFlight <= s.limit
  {
    RunKeepsGate(env, s, acts);
    RunKeepsLimit(env, s, acts);
    hide Run, Possible;
  }
}
