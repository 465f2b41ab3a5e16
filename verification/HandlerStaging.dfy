/** Staging files: a request registers the removal of its file before it writes it,
    and holds a slot as long as the file may be there. */
module HandlerStaging {
  import opened Base
  import opened CacheStore
  import opened Flights
  import opened Gates
  import opened Counters
  import opened Handlers
  import opened HandlerShape
  import opened HandlerGate

  /** Every staging file is its request's to remove, or one whose removal failed. */
  predicate StagingInv(s: State) {
    forall id :: id in s.store.tmp ==> id in s.reqs && (id in s.strays || s.reqs[id].temp)
  }

  lemma DropTmp(st: StoreState, key: string, gen: nat, fails: bool)
    ensures Drop(st, key, fails).0.tmp == st.tmp
    ensures DropGen(st, key, gen, fails).0.tmp == st.tmp
  {
  }

  lemma TamperTmp(st: StoreState, key: string, file: Option<File>)
    ensures Tampered(st, key, file).tmp == st.tmp && Tampered(st, key, file).entries == st.entries
  {
  }

  /** Only the request's own staging file is touched by its step, and lookups
      touch none. */
  lemma TmpView(env: Env, store: StoreState, r: Req, id: nat, c: Choice)
    ensures var tmp := NextStore(env, store, r, id, c).tmp;
            && (forall j :: j != id ==> (j in tmp <==> j in store.tmp) && (j in tmp ==> tmp[j] == store.tmp[j]))
            && (InLookup(r.pc) ==> tmp == store.tmp)
            && (id in tmp ==> id in store.tmp || r.pc.Fetching?)
            && (r.pc.RemoveTemp? && !c.fails ==> id !in tmp)
  {
    hide KeyValid, CacheKeys, Drop, DropGen, FetchId;
    var purged := PurgedKey(env, r);
    if purged.Some? { DropTmp(store, purged.value, 0, c.fails); }
    else if r.pc.Heal? { DropTmp(store, r.cacheKey, r.pc.gen, c.fails); }
    hide PurgedKey;
  }

  /** A request registers the removal of its staging file before it writes it. */
  lemma TempView(env: Env, s: State, r: Req, id: nat, c: Choice)
    requires Shape(env, r)
    ensures var r' := NextReq(env, s, r, id, c);
            && (r'.temp <==> r.pc.StartFetch? || (r.temp && !r.pc.RemoveTemp?))
            && (r.pc.Fetching? ==> r'.temp)
  {
    hide NextLookup, NextAdmission, NextFetch, NextPromotion, NextDelete, DownloadKey;
    if InLookup(r.pc) { LookupMoves(s, r, c); }
    else if InAdmission(r.pc) { AdmissionMoves(s, r, c); }
    else if InFetch(r.pc) { FetchMoves(s, r, id, c); }
    else if InPromotion(r.pc) { PromotionMoves(s, r, id, c); }
    else if IsDelete(r.pc) { DeleteMoves(env, s, r, c); }
  }

  lemma ExecKeepsStaging(env: Env, s: State, id: nat, c: Choice)
    requires GateInv(env, s) && StagingInv(s) && id in s.reqs
    ensures StagingInv(Exec(env, s, id, c))
  {
    hide NextReq, NextStore, NextGate, NextFlight, Lapsed, Bumps, Bump, Holders;
    assert Shape(env, s.reqs[id]);
    TmpView(env, s.store, s.reqs[id], id, c);
    TempView(env, s, s.reqs[id], id, c);
    hide Shape;
  }

  lemma ApplyKeepsStaging(env: Env, s: State, a: Action)
    requires GateInv(env, s) && StagingInv(s) && Enabled(s, a)
    ensures StagingInv(Apply(env, s, a))
  {
    hide GateInv, Drop, DropGen, Exec, StillThere, Tampered;
    match a
    case Step(id, c) =>
      ExecKeepsStaging(env, s, id, c);
    case StartDownload(_, _, _, _) =>
      StartShape(env, s, a);
      hide Shape, Apply;
    case StartDelete(_, _, _) =>
      StartShape(env, s, a);
      hide Shape, Apply;
    case Evict(key, gen, fails) =>
      DropTmp(s.store, key, gen, fails);
    case PurgeKey(key, fails) =>
      DropTmp(s.store, key, 0, fails);
    case Tamper(key, file) =>
      TamperTmp(s.store, key, file);
    case _ =>
  }

  lemma {:induction false} RunKeepsStaging(env: Env, s: State, acts: seq<Action>)
    requires GateInv(env, s) && StagingInv(s) && Possible(env, s, acts)
    ensures GateInv(env, Run(env, s, acts)) && StagingInv(Run(env, s, acts))
    decreases |acts|
  {
    if acts != [] {
      ApplyKeepsGate(env, s, acts[0]);
      ApplyKeepsStaging(env, s, acts[0]);
      hide Apply, Enabled, GateInv, StagingInv;
      RunKeepsStaging(env, Apply(env, s, acts[0]), acts[1..]);
    }
  }

  lemma TempImpliesSlot(env: Env, r: Req)
    requires Shape(env, r) && r.temp
    ensures r.slot
  {
  }

  /** The temp-disk bound: the staging files of live downloads never outnumber
      the slots taken, so they never outnumber the highest limit in force; a
      staging file beyond that is one whose removal failed. */
  lemma TempDiskBound(env: Env, s: State, acts: seq<Action>)
    requires GateInv(env, s) && StagingInv(s) && Possible(env, s, acts)
    ensures var s' := Run(env, s, acts);
            |s'.store.tmp.Keys - s'.strays| <= s'.gate.inFlight <= s'.peak
  {
    RunKeepsStaging(env, s, acts);
    hide Run, Possible;
    var s' := Run(env, s, acts);
    forall id | id in s'.store.tmp.Keys - s'.strays ensures id in Holders(s'.reqs) {
      assert Shape(env, s'.reqs[id]);
      TempImpliesSlot(env, s'.reqs[id]);
    }
    SubsetSize(s'.store.tmp.Keys - s'.strays, Holders(s'.reqs));
  }
}
