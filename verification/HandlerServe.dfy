/** Downloads are served: one that has its bytes answers with them whatever becomes
    of the cache, and one that is not hindered gets its bytes. */
module HandlerServe {
  import opened Base
  import opened CacheStore
  import opened Flights
  import opened Gates
  import opened Counters
  import opened Handlers
  import opened HandlerShape
  import opened HandlerGate
  import opened HandlerFlight
  import opened HandlerProgress
  import opened HandlerPurge
  import Content = HandlerContent
  import Lives = Lifecycle

  /** The request has an open descriptor with these bytes, or has answered with them. */
  predicate Has(r: Req, body: Bytes) {
    match r.pc
    case TouchEntry(_, fd) => fd == body
    case ReleaseForHit(fd) => fd == body
    case Decide(fd) => fd == body
    case PromoteTemp(fd, _) => fd == body
    case Recheck(fd) => fd == body
    case PurgeOwn(fd) => fd == body
    case Serve(fd) => fd == body
    case RemoveTemp(o) => o == Served(body)
    case ReleaseSlot(o) => o == Served(body)
    case EndFlight(o) => o == Served(body)
    case Done(o) => o == Served(body)
    case _ => false
  }

  lemma FetchKeepsBody(s: State, r: Req, id: nat, c: Choice, body: Bytes)
    requires Has(r, body) && InFetch(r.pc)
    ensures Has(NextFetch(s.store.tmp, s.counts, r, id, c), body)
  {
    hide Bump, FetchId;
  }

  lemma PromotionKeepsBody(s: State, r: Req, id: nat, c: Choice, body: Bytes)
    requires Has(r, body) && InPromotion(r.pc)
    ensures Has(NextPromotion(s, r, id, c), body)
  {
    hide Promote, UuidThere;
  }

  lemma LookupKeepsBody(s: State, r: Req, c: Choice, body: Bytes)
    requires Has(r, body) && InLookup(r.pc)
    ensures Has(NextLookup(s.store, r, c), body)
  {
    hide FileAt, IsRegular;
  }

  lemma NextKeepsBody(env: Env, s: State, r: Req, id: nat, c: Choice, body: Bytes)
    requires Has(r, body)
    ensures Has(NextReq(env, s, r, id, c), body)
  {
    hide NextLookup, NextAdmission, NextFetch, NextPromotion, NextDelete;
    if InLookup(r.pc) { LookupKeepsBody(s, r, c, body); hide Has; }
    else if InFetch(r.pc) { FetchKeepsBody(s, r, id, c, body); hide Has; }
    else if InPromotion(r.pc) { PromotionKeepsBody(s, r, id, c, body); hide Has; }
  }

  /** Only a request's own steps move it. */
  lemma OthersKeepReq(env: Env, s: State, a: Action, id: nat)
    requires Enabled(s, a) && id in s.reqs && (a.Step? ==> a.id != id)
    ensures id in Apply(env, s, a).reqs && Apply(env, s, a).reqs[id] == s.reqs[id]
  {
    hide Drop, DropGen, Tampered, Lives.Written, StillThere, Download, NextReq, NextStore, Lapsed, NextFlight, NextGate,
         Bumps, Bump, DeletesRow;
  }

  lemma OwnStep(env: Env, s: State, id: nat, c: Choice)
    requires Enabled(s, Step(id, c))
    ensures id in Apply(env, s, Step(id, c)).reqs
    ensures Apply(env, s, Step(id, c)).reqs[id] == NextReq(env, s, s.reqs[id], id, c)
  {
    hide NextReq, NextStore, Lapsed, NextFlight, NextGate, Bumps, Bump, DeletesRow, StillThere;
  }

  lemma {:induction false} RunKeepsBody(env: Env, s: State, acts: seq<Action>, id: nat, body: Bytes)
    requires Possible(env, s, acts) && id in s.reqs && Has(s.reqs[id], body)
    ensures id in Run(env, s, acts).reqs && Has(Run(env, s, acts).reqs[id], body)
    decreases |acts|
  {
    if acts != [] {
      var a := acts[0];
      if a.Step? && a.id == id {
        OwnStep(env, s, id, a.choice);
        NextKeepsBody(env, s, s.reqs[id], id, a.choice, body);
      } else {
        OthersKeepReq(env, s, a, id);
      }
      hide Apply, Enabled, Has;
      RunKeepsBody(env, Apply(env, s, a), acts[1..], id, body);
    }
  }

  /** From the moment a download has opened its fetched file its only possible
      answer is that file, whatever the thresholds, sizes, budget, promotion and
      failures: promotion failure is never a download failure. */
  lemma FetchedIsServed(env: Env, s: State, acts: seq<Action>, id: nat)
    requires Possible(env, s, acts) && id in s.reqs && s.reqs[id].pc.Decide?
    ensures var s' := Run(env, s, acts);
            id in s'.reqs && (s'.reqs[id].pc.Done? ==> s'.reqs[id].pc.outcome == Served(s.reqs[id].pc.fd))
  {
    RunKeepsBody(env, s, acts, id, s.reqs[id].pc.fd);
    hide Run, Possible;
  }

  /** The same of a lookup that has opened and checked the cached file. */
  lemma HitIsServed(env: Env, s: State, acts: seq<Action>, id: nat)
    requires Possible(env, s, acts) && id in s.reqs && s.reqs[id].pc.TouchEntry?
    ensures var s' := Run(env, s, acts);
            id in s'.reqs && (s'.reqs[id].pc.Done? ==> s'.reqs[id].pc.outcome == Served(s.reqs[id].pc.fd))
  {
    RunKeepsBody(env, s, acts, id, s.reqs[id].pc.fd);
    hide Run, Possible;
  }

  // --------------------------------------------------------- unhindered downloads

  /** A download that has not been refused. */
  predicate Alive(r: Req) {
    match r.pc
    case RemoveTemp(o) => o.Served?
    case ReleaseSlot(o) => o.Served?
    case EndFlight(o) => o.Served?
    case Done(o) => o.Served?
    case _ => !IsDelete(r.pc)
  }

  /** What refuses a download: its client goes away, its wait for a slot runs out, or
      its fetch fails. */
  predicate Hindered(r: Req, c: Choice) {
    || (r.pc.AwaitFill? && c.wake == Cancelled)
    || (r.pc.AwaitSlot? && c.wake != Signalled)
    || ((r.pc.Fetching? || r.pc.OpenTemp?) && c.fails)
  }

  /** A step refuses a download that has something to fetch if and only if it is
      hindered there. */
  lemma NextAliveIff(env: Env, s: State, r: Req, id: nat, c: Choice)
    requires Alive(r) && FetchId(r.row).Some?
    requires r.pc.OpenTemp? ==> id in s.store.tmp && s.store.tmp[id].Regular?
    ensures Alive(NextReq(env, s, r, id, c)) <==> !Hindered(r, c)
  {
    hide NextLookup, NextAdmission, NextFetch, NextPromotion, NextDelete, FetchId;
    if InLookup(r.pc) { LookupMoves(s, r, c); }
    else if InAdmission(r.pc) { AdmissionAliveIff(s, r, c); }
    else if InFetch(r.pc) { FetchAliveIff(s, r, id, c); }
    else if InPromotion(r.pc) { PromotionMoves(s, r, id, c); }
  }

  lemma AdmissionAliveIff(s: State, r: Req, c: Choice)
    requires InAdmission(r.pc)
    ensures Alive(NextAdmission(s.gate, s.limit, r, c.wake)) <==> !Hindered(r, c)
  {
  }

  lemma FetchAliveIff(s: State, r: Req, id: nat, c: Choice)
    requires InFetch(r.pc) && FetchId(r.row).Some?
    requires r.pc.OpenTemp? ==> id in s.store.tmp && s.store.tmp[id].Regular?
    ensures Alive(NextFetch(s.store.tmp, s.counts, r, id, c)) <==> !Hindered(r, c)
  {
    hide Bump, FetchId;
  }

  /** A refusal is final. */
  lemma RefusedStays(env: Env, s: State, r: Req, id: nat, c: Choice)
    requires Leaving(r.pc) && !Alive(r)
    ensures Leaving(NextReq(env, s, r, id, c).pc) && !Alive(NextReq(env, s, r, id, c))
  {
    hide NextLookup, NextAdmission, NextFetch, NextPromotion, NextDelete;
  }

  /** None of the request's steps in the run hinders it. */
  predicate Unhindered(env: Env, s: State, acts: seq<Action>, id: nat)
    requires Possible(env, s, acts)
    decreases |acts|
  {
    acts == []
    || ((acts[0].Step? && acts[0].id == id && id in s.reqs ==> !Hindered(s.reqs[id], acts[0].choice))
        && Unhindered(env, Apply(env, s, acts[0]), acts[1..], id))
  }

  lemma NextLeaves(env: Env, s: State, r: Req, id: nat, c: Choice)
    requires Alive(r) && !Alive(NextReq(env, s, r, id, c)) && FetchId(r.row).Some?
    requires r.pc.OpenTemp? ==> id in s.store.tmp && s.store.tmp[id].Regular?
    ensures Leaving(NextReq(env, s, r, id, c).pc)
  {
    NextAliveIff(env, s, r, id, c);
    hide NextLookup, NextPromotion, NextDelete, FetchId, Bump;
  }

  lemma {:induction false} RefusedForGood(env: Env, s: State, acts: seq<Action>, id: nat)
    requires Possible(env, s, acts) && id in s.reqs && Leaving(s.reqs[id].pc) && !Alive(s.reqs[id])
    ensures id in Run(env, s, acts).reqs && !Alive(Run(env, s, acts).reqs[id])
    decreases |acts|
  {
    if acts != [] {
      var a := acts[0];
      if a.Step? && a.id == id {
        OwnStep(env, s, id, a.choice);
        RefusedStays(env, s, s.reqs[id], id, a.choice);
      } else {
        OthersKeepReq(env, s, a, id);
      }
      hide Apply, Enabled, Alive;
      RefusedForGood(env, Apply(env, s, a), acts[1..], id);
    }
  }

  /** Over any run, among any other requests, evictions, purges, writes and tampering:
      a download of something that can be fetched is refused if and only if one of
      its own steps hinders it. */
  lemma {:induction false} AliveIff(env: Env, s: State, acts: seq<Action>, id: nat)
    requires Content.SoundEnv(env) && Content.ContentInv(env, s) && Possible(env, s, acts)
    requires id in s.reqs && Alive(s.reqs[id]) && FetchId(s.reqs[id].row).Some?
    ensures id in Run(env, s, acts).reqs
    ensures Alive(Run(env, s, acts).reqs[id]) <==> Unhindered(env, s, acts, id)
    decreases |acts|
  {
    if acts != [] {
      var a := acts[0];
      Content.ApplyKeepsContent(env, s, a);
      assert Content.ReqOk(env, s.store.tmp, id, s.reqs[id]);
      var r := s.reqs[id];
      var s1 := Apply(env, s, a);
      if a.Step? && a.id == id {
        OwnStep(env, s, id, a.choice);
        NextAliveIff(env, s, r, id, a.choice);
        NextShape(env, s, r, id, a.choice);
        hide Apply, Enabled, Content.ContentInv, Content.SoundEnv, Content.ReqOk, Shape, NextReq, FetchId, Hindered;
        if !Alive(s1.reqs[id]) {
          NextLeaves(env, s, r, id, a.choice);
          RefusedForGood(env, s1, acts[1..], id);
        } else {
          AliveIff(env, s1, acts[1..], id);
        }
      } else {
        OthersKeepReq(env, s, a, id);
        hide Apply, Enabled, Content.ContentInv, Content.SoundEnv, Content.ReqOk, Shape, NextReq, FetchId, Hindered, Alive;
        AliveIff(env, s1, acts[1..], id);
      }
    }
  }

  /** So a download that nothing hinders, once it is done, has answered with its
      row's content. */
  lemma UnhinderedIsServed(env: Env, s: State, acts: seq<Action>, id: nat)
    requires Content.SoundEnv(env) && Content.ContentInv(env, s) && Possible(env, s, acts)
    requires id in s.reqs && Alive(s.reqs[id]) && FetchId(s.reqs[id].row).Some?
    requires Unhindered(env, s, acts, id)
    ensures var s' := Run(env, s, acts);
            && id in s'.reqs
            && (s'.reqs[id].pc.Done? ==>
                  s'.reqs[id].pc.outcome.Served? && Content.Right(env, s'.reqs[id].row, s'.reqs[id].pc.outcome.body))
  {
    AliveIff(env, s, acts, id);
    Content.EveryBodyIsRight(env, s, acts, id);
    hide Run, Possible, Content.Right;
  }

  /** A download that may see its row starts alive if and only if the row is
      completed or already stored, and then carries that row. */
  lemma StartsAliveIff(env: Env, s: State, id: nat, rowId: nat, eligible: bool)
    requires Enabled(s, StartDownload(id, rowId, eligible, true))
    ensures var s' := Apply(env, s, StartDownload(id, rowId, eligible, true));
            && id in s'.reqs
            && (Alive(s'.reqs[id]) <==>
                  rowId in s.rows && s.rows[rowId].upload.status in {Lives.Completed, Lives.AlreadyStored})
            && (rowId in s.rows ==> s'.reqs[id].row == RowAt(s.rows, rowId))
  {
    hide DownloadKey;
  }

  lemma {:induction false} SmoothIsUnhindered(env: Env, s: State, acts: seq<Action>, id: nat)
    requires Possible(env, s, acts)
    requires forall i :: 0 <= i < |acts| ==> acts[i].Step? && acts[i].choice.wake == Signalled && !acts[i].choice.fails
    ensures Unhindered(env, s, acts, id)
    decreases |acts|
  {
    if acts != [] {
      hide Apply, Enabled;
      SmoothIsUnhindered(env, Apply(env, s, acts[0]), acts[1..], id);
    }
  }

  /** From wherever the requests stand there is a run in which nothing fails and that
      finishes them all; and in it every download under way that has something to
      fetch is served its row's content. */
  lemma EveryDownloadIsServed(env: Env, s: State) returns (acts: seq<Action>)
    requires GateInv(env, s) && FlightInv(s) && Content.SoundEnv(env) && Content.ContentInv(env, s)
    ensures Possible(env, s, acts) && AllDone(Run(env, s, acts))
    ensures var s' := Run(env, s, acts);
            forall id :: id in s.reqs && Alive(s.reqs[id]) && FetchId(s.reqs[id].row).Some? ==>
              && id in s'.reqs && s'.reqs[id].pc.Done? && s'.reqs[id].pc.outcome.Served?
              && Content.Right(env, s'.reqs[id].row, s'.reqs[id].pc.outcome.body)
  {
    hide GateInv, FlightInv, Content.SoundEnv, Content.ContentInv, Possible, Run, Content.Right, FetchId, Alive, Potential;
    acts := EveryRequestFinishes(env, s);
    var s' := Run(env, s, acts);
    forall id | id in s.reqs && Alive(s.reqs[id]) && FetchId(s.reqs[id].row).Some?
      ensures id in s'.reqs && s'.reqs[id].pc.Done? && s'.reqs[id].pc.outcome.Served?
              && Content.Right(env, s'.reqs[id].row, s'.reqs[id].pc.outcome.body)
    {
      SmoothIsUnhindered(env, s, acts, id);
      UnhinderedIsServed(env, s, acts, id);
    }
  }

  // ------------------------------------------------------------- and coalesced

  /** None of the request's waits for a fill in the run times out. */
  predicate Patient(env: Env, s: State, acts: seq<Action>, id: nat)
    requires Possible(env, s, acts)
    decreases |acts|
  {
    acts == []
    || ((acts[0].Step? && acts[0].id == id && id in s.reqs && s.reqs[id].pc.AwaitFill? ==>
           acts[0].choice.wake != TimedOut)
        && Patient(env, Apply(env, s, acts[0]), acts[1..], id))
  }

  /** It still goes by its key, or it has waited for as many fills as there are rounds. */
  predicate Waiting(r: Req, key: string) { r.cacheKey == key || r.round == MAX_FILL_ROUNDS }

  lemma NextWaits(env: Env, s: State, r: Req, id: nat, c: Choice, key: string)
    requires Shape(env, r) && Waiting(r, key) && (r.pc.AwaitFill? ==> c.wake != TimedOut)
    ensures Waiting(NextReq(env, s, r, id, c), key)
    ensures var r' := NextReq(env, s, r, id, c);
            r.round <= r'.round && (r'.round > r.round ==> r.pc.AwaitFill? && c.wake == Signalled && r'.round == r.round + 1)
  {
    var round, k := r.round, r.cacheKey;
    assert r.round <= MAX_FILL_ROUNDS;
    hide NextLookup, NextAdmission, NextFetch, NextPromotion, NextDelete, Shape;
    if InLookup(r.pc) { LookupKeepsRound(s, r, c); }
    else if InAdmission(r.pc) { AdmissionKeepsRound(s, r, c); }
    else if InFetch(r.pc) { FetchKeepsRound(s, r, id, c); }
    else if InPromotion(r.pc) { PromotionKeepsRound(s, r, id, c); }
    else if IsDelete(r.pc) { DeleteKeepsRound(env, s, r, c); }
  }

  lemma LookupKeepsRound(s: State, r: Req, c: Choice)
    requires InLookup(r.pc)
    ensures var r' := NextLookup(s.store, r, c); r'.round == r.round && r'.cacheKey == r.cacheKey
  {
    hide FileAt, IsRegular;
  }

  lemma AdmissionKeepsRound(s: State, r: Req, c: Choice)
    requires InAdmission(r.pc)
    ensures var r' := NextAdmission(s.gate, s.limit, r, c.wake); r'.round == r.round && r'.cacheKey == r.cacheKey
  {
  }

  lemma FetchKeepsRound(s: State, r: Req, id: nat, c: Choice)
    requires InFetch(r.pc)
    ensures var r' := NextFetch(s.store.tmp, s.counts, r, id, c); r'.round == r.round && r'.cacheKey == r.cacheKey
  {
    hide Bump, FetchId;
  }

  lemma PromotionKeepsRound(s: State, r: Req, id: nat, c: Choice)
    requires InPromotion(r.pc)
    ensures var r' := NextPromotion(s, r, id, c); r'.round == r.round && r'.cacheKey == r.cacheKey
  {
    hide Promote, UuidThere;
  }

  lemma DeleteKeepsRound(env: Env, s: State, r: Req, c: Choice)
    requires IsDelete(r.pc)
    ensures var r' := NextDelete(env, s, r, c); r'.round == r.round && r'.cacheKey == r.cacheKey
  {
    hide Drop, CacheKeys, DeletesRow;
  }

  /** No stampede: a download that may use the cache fetches on its own, without
      leading the fill of its key, only after one of its waits timed out or after
      it has waited out a fill in every round. */
  lemma {:induction false} FollowersWait(env: Env, s: State, acts: seq<Action>, id: nat, key: string)
    requires GateInv(env, s) && FlightInv(s) && Possible(env, s, acts) && Patient(env, s, acts, id)
    requires id in s.reqs && Waiting(s.reqs[id], key) && key != ""
    ensures var s' := Run(env, s, acts);
            && id in s'.reqs && Waiting(s'.reqs[id], key)
            && (PastLoop(s'.reqs[id]) && s'.reqs[id].round < MAX_FILL_ROUNDS ==>
                  key in s'.flight.inflight && s'.flight.inflight[key] == id)
    decreases |acts|
  {
    assert Shape(env, s.reqs[id]);
    if acts != [] {
      var a := acts[0];
      ApplyKeepsGate(env, s, a);
      ApplyKeepsFlight(env, s, a);
      if a.Step? && a.id == id {
        OwnStep(env, s, id, a.choice);
        NextWaits(env, s, s.reqs[id], id, a.choice, key);
      } else {
        OthersKeepReq(env, s, a, id);
      }
      hide Apply, Enabled, GateInv, FlightInv, Shape, PastLoop, Waiting;
      FollowersWait(env, Apply(env, s, a), acts[1..], id, key);
    } else {
      SinglePromoter(env, s, [], id, id);
      assert Run(env, s, []) == s;
    }
  }

  // ------------------------------------------------------------ and is it cached

  /** As long as the keys missed fit the counter, a fetched object goes on to its
      promotion if and only if it may be cached, is not too large, and its key has
      been missed as often as configured, this miss included. */
  lemma PromotesAtNthMiss(env: Env, s: State, id: nat, c: Choice)
    requires MissesInv(s) && id in s.reqs && s.reqs[id].pc.Decide?
    requires |Distinct(s.bumped + [s.reqs[id].cacheKey])| <= COUNTER_CAP
    ensures var r := s.reqs[id];
            NextReq(env, s, r, id, c).pc.PromoteTemp? <==>
              && r.cacheKey != "" && !c.fails && |r.pc.fd| <= c.maxObject
              && (c.minUses <= 1 || Occurrences(s.bumped + [r.cacheKey], r.cacheKey) >= c.minUses)
  {
    var r := s.reqs[id];
    BumpIsExact(s.bumped, r.cacheKey);
    hide Bump, Counted, Occurrences, Distinct, NextLookup, NextAdmission, NextPromotion, NextDelete;
  }

  lemma BumpIsExact(bumped: seq<string>, key: string)
    requires |Distinct(bumped + [key])| <= COUNTER_CAP
    ensures Bump(Counted(COUNTER_CAP, bumped), COUNTER_CAP, key).1 == Occurrences(bumped + [key], key)
  {
    ExactWhenFewKeys(COUNTER_CAP, bumped + [key], key);
    assert (bumped + [key])[..|bumped|] == bumped;
    hide Distinct, Occurrences;
  }
}
