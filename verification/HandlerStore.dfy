/** The cache store under any number of requests: its steps are runs of the
    store's own operations, and every byte served is the row's own content. */
module HandlerStore {
  import opened Base
  import opened CacheStore
  import opened Flights
  import opened Gates
  import opened Counters
  import opened Handlers
  import opened HandlerShape
  import opened HandlerGate
  import Laws = StoreLaws

  // ------------------------------------------------------- runs of the store

  /** The store operation a step of a request performs, if any. */
  function RequestOp(env: Env, r: Req, id: nat, c: Choice): seq<Laws.Op> {
    var purged := PurgedKey(env, r);
    if purged.Some? then [Laws.Dropping(purged.value, c.fails)]
    else match r.pc
      case TouchEntry(_, _) => [Laws.Touching(r.cacheKey, c.now)]
      case Heal(_, gen) => [Laws.Evicting(r.cacheKey, gen, c.fails)]
      case Fetching =>
        if FetchId(r.row).None? then []
        else [Laws.Stage(id, Regular(if c.fails then "" else env.fetch(FetchId(r.row).value)))]
      case PromoteTemp(_, _) => [Laws.Promoting(r.cacheKey, id, c.budget, c.now, c.fails)]
      case RemoveTemp(_) => if c.fails then [] else [Laws.Unstage(id)]
      case _ => []
  }

  function ActionOp(env: Env, s: State, a: Action): seq<Laws.Op>
    requires Enabled(s, a)
  {
    match a
    case Step(id, c) => RequestOp(env, s.reqs[id], id, c)
    case Evict(key, gen, fails) => [Laws.Evicting(key, gen, fails)]
    case PurgeKey(key, fails) => [Laws.Dropping(key, fails)]
    case Tamper(key, file) => [Laws.Tampering(key, file)]
    case _ => []
  }

  function StoreOps(env: Env, s: State, acts: seq<Action>): seq<Laws.Op>
    requires Possible(env, s, acts)
    decreases |acts|
  {
    if acts == [] then [] else ActionOp(env, s, acts[0]) + StoreOps(env, Apply(env, s, acts[0]), acts[1..])
  }

  lemma RunNone(st: StoreState)
    ensures Laws.Run(st, []) == st
  {
  }

  lemma RunOne(st: StoreState, op: Laws.Op)
    ensures Laws.Run(st, [op]) == Laws.Apply(st, op)
  {
    assert [op][1..] == [];
  }

  lemma {:induction false} RunConcat(st: StoreState, a: seq<Laws.Op>, b: seq<Laws.Op>)
    ensures Laws.Run(st, a + b) == Laws.Run(Laws.Run(st, a), b)
    decreases |a|
  {
    if a == [] {
      assert a + b == b;
    } else {
      assert (a + b)[1..] == a[1..] + b;
      RunConcat(Laws.Apply(st, a[0]), a[1..], b);
    }
  }

  lemma StepStore(env: Env, st: StoreState, r: Req, id: nat, c: Choice)
    ensures NextStore(env, st, r, id, c) == Laws.Run(st, RequestOp(env, r, id, c))
  {
    hide Drop, DropGen, Promote, Touch, FetchId, PurgedKey, Laws.Run;
    var ops := RequestOp(env, r, id, c);
    RunNone(st);
    if ops != [] { RunOne(st, ops[0]); }
  }

  lemma ActionStore(env: Env, s: State, a: Action)
    requires Enabled(s, a)
    ensures Apply(env, s, a).store == Laws.Run(s.store, ActionOp(env, s, a))
  {
    hide Drop, DropGen, RequestOp, NextStore, NextReq, NextFlight, NextGate, Lapsed, DeletesRow, Bumps, Bump,
         Laws.Run;
    RunNone(s.store);
    match a
    case Step(id, c) => StepStore(env, s.store, s.reqs[id], id, c);
    case Evict(key, gen, fails) => RunOne(s.store, Laws.Evicting(key, gen, fails));
    case PurgeKey(key, fails) => RunOne(s.store, Laws.Dropping(key, fails));
    case Tamper(key, file) => RunOne(s.store, Laws.Tampering(key, file));
    case _ =>
  }

  /** Whatever the requests do, the store goes through a run of its own
      operations, so every law of such runs holds of the whole system. */
  lemma {:induction false} StoreTrace(env: Env, s: State, acts: seq<Action>)
    requires Possible(env, s, acts)
    ensures Run(env, s, acts).store == Laws.Run(s.store, StoreOps(env, s, acts))
    decreases |acts|
  {
    if acts == [] {
      RunNone(s.store);
    } else {
      var s1 := Apply(env, s, acts[0]);
      ActionStore(env, s, acts[0]);
      hide Apply, ActionOp, Enabled, Laws.Run;
      StoreTrace(env, s1, acts[1..]);
      RunConcat(s.store, ActionOp(env, s, acts[0]), StoreOps(env, s1, acts[1..]));
    }
  }

  /** Nobody outside the program touches the cache directory. */
  predicate NoTampering(acts: seq<Action>) { forall i :: 0 <= i < |acts| ==> !acts[i].Tamper? }

  lemma {:induction false} OpsAreUndisturbed(env: Env, s: State, acts: seq<Action>)
    requires Possible(env, s, acts)
    ensures forall i :: 0 <= i < |StoreOps(env, s, acts)| ==>
              !StoreOps(env, s, acts)[i].Visiting? && (NoTampering(acts) ==> !StoreOps(env, s, acts)[i].Tampering?)
    decreases |acts|
  {
    if acts != [] {
      assert forall i :: 0 <= i < |ActionOp(env, s, acts[0])| ==>
               !ActionOp(env, s, acts[0])[i].Visiting? && (ActionOp(env, s, acts[0])[i].Tampering? ==> acts[0].Tamper?);
      assert NoTampering(acts) ==> NoTampering(acts[1..]) && !acts[0].Tamper?;
      hide Apply, ActionOp, Enabled, NoTampering;
      OpsAreUndisturbed(env, Apply(env, s, acts[0]), acts[1..]);
    }
  }

  lemma {:induction false} NothingAdopted(st: StoreState, ops: seq<Laws.Op>)
    requires forall i :: 0 <= i < |ops| ==> !ops[i].Visiting?
    ensures Laws.AdoptedIn(st, ops) == 0
    decreases |ops|
  {
    if ops != [] { NothingAdopted(Laws.Apply(st, ops[0]), ops[1..]); }
  }

  /** Accounting and budget with any number of requests, and with somebody outside
      removing or replacing cached files: the byte count is the sum of the indexed
      sizes, every cached file is indexed, and the total never exceeds what was
      there at the start or the largest budget any request used; left alone, the
      directory also has every indexed file at its recorded size. */
  lemma AccountingUnderRequests(env: Env, s: State, acts: seq<Action>)
    requires Valid(s.store) && Laws.Covered(s.store) && Possible(env, s, acts)
    ensures var st := Run(env, s, acts).store;
            && Valid(st) && Laws.Covered(st)
            && st.bytes <= Max(s.store.bytes, Laws.LargestBudget(StoreOps(env, s, acts)))
            && (NoTampering(acts) && Laws.Backed(s.store) ==> Laws.Backed(st))
  {
    var ops := StoreOps(env, s, acts);
    StoreTrace(env, s, acts);
    OpsAreUndisturbed(env, s, acts);
    NothingAdopted(s.store, ops);
    Laws.RunKeepsValid(s.store, ops);
    Laws.RunKeepsCovered(s.store, ops);
    if NoTampering(acts) && Laws.Backed(s.store) { Laws.RunKeepsBacked(s.store, ops); }
    Laws.RunBudget(s.store, ops);
    hide Run, Possible, StoreOps;
  }

  /** The generation a lookup holds between reading the entry and healing it. */
  function HeldGeneration(pc: Pc): nat {
    match pc
    case Lstat(_, _, gen) => gen
    case OpenFile(_, _, gen) => gen
    case Fstat(_, _, gen, _) => gen
    case Heal(_, gen) => gen
    case _ => 0
  }

  predicate Issued(s: State, id: nat) {
    id in s.reqs ==> HeldGeneration(s.reqs[id].pc) <= s.store.genSeq
  }

  lemma LookupHolds(store: StoreState, r: Req, c: Choice)
    requires InLookup(r.pc) && Valid(store)
    ensures var h := HeldGeneration(NextLookup(store, r, c).pc);
            h <= store.genSeq || h <= HeldGeneration(r.pc)
  {
    hide FileAt, IsRegular, Total;
  }

  lemma StepHolds(env: Env, s: State, r: Req, id: nat, c: Choice)
    requires Valid(s.store)
    ensures var h := HeldGeneration(NextReq(env, s, r, id, c).pc);
            h <= s.store.genSeq || h <= HeldGeneration(r.pc)
  {
    hide NextLookup, NextAdmission, NextFetch, NextPromotion, NextDelete, Valid;
    if InLookup(r.pc) { LookupHolds(s.store, r, c); }
    else if InAdmission(r.pc) { AdmissionMoves(s, r, c); }
    else if InFetch(r.pc) { FetchMoves(s, r, id, c); }
    else if InPromotion(r.pc) { PromotionMoves(s, r, id, c); }
    else if IsDelete(r.pc) { DeleteMoves(env, s, r, c); }
  }

  lemma ApplyKeepsIssued(env: Env, s: State, a: Action, id: nat)
    requires Enabled(s, a) && Valid(s.store) && Issued(s, id)
    ensures Valid(Apply(env, s, a).store) && Issued(Apply(env, s, a), id)
  {
    ActionStore(env, s, a);
    Laws.RunKeepsValid(s.store, ActionOp(env, s, a));
    if a.Step? && a.id == id { StepHolds(env, s, s.reqs[id], id, a.choice); }
    hide NextReq, NextStore, NextFlight, NextGate, Lapsed, DownloadKey, ActionOp, Laws.Run, Valid, Drop, DropGen;
  }

  lemma {:induction false} RunKeepsIssued(env: Env, s: State, acts: seq<Action>, id: nat)
    requires Possible(env, s, acts) && Valid(s.store) && Issued(s, id)
    ensures Issued(Run(env, s, acts), id)
    decreases |acts|
  {
    if acts != [] {
      ApplyKeepsIssued(env, s, acts[0], id);
      hide Apply, Enabled, Issued, Valid;
      RunKeepsIssued(env, Apply(env, s, acts[0]), acts[1..], id);
    }
  }

  /** A lookup's self-heal never removes an entry promoted after the lookup read
      its generation, whatever happened in between. */
  lemma HealSparesNewerEntry(env: Env, s: State, acts: seq<Action>, id: nat, c: Choice)
    requires Valid(s.store) && Issued(s, id) && id in s.reqs && Possible(env, s, acts)
    requires var s' := Run(env, s, acts);
             && id in s'.reqs && s'.reqs[id].pc.Heal?
             && s'.reqs[id].cacheKey == s.reqs[id].cacheKey
             && s'.reqs[id].pc.gen == HeldGeneration(s.reqs[id].pc)
    requires Laws.PromotedIn(s.store, StoreOps(env, s, acts), s.reqs[id].cacheKey)
    ensures Exec(env, Run(env, s, acts), id, c).store == Run(env, s, acts).store
  {
    StoreTrace(env, s, acts);
    Laws.RunGenerations(s.store, StoreOps(env, s, acts), s.reqs[id].cacheKey, HeldGeneration(s.reqs[id].pc));
    hide Run, Possible, StoreOps, Laws.Run, Laws.PromotedIn;
  }
}
