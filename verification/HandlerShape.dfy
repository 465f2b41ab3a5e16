/** The shape every request keeps, and in which direction each step moves it. */
module HandlerShape {
  import opened Base
  import opened CacheStore
  import opened Flights
  import opened Gates
  import opened Counters
  import opened Handlers

  /** Which deferred calls are registered where, and when a request may cache. */
  predicate Shape(env: Env, r: Req) {
    var keyed := r.cacheKey != "";
    && (keyed ==> r.cacheKey == DownloadKey(env, r.row))
    && r.round <= MAX_FILL_ROUNDS
    && (InLookup(r.pc) ==> keyed && !r.temp && (r.slot <==> r.pc.at == Admitted) && (r.leads <==> r.pc.at == Admitted))
    && (r.pc.Join? ==> keyed && !r.temp && !r.slot && !r.leads)
    && (r.pc.AwaitFill? ==> keyed && !r.temp && !r.slot && !r.leads && r.round < MAX_FILL_ROUNDS)
    && (InAdmission(r.pc) ==> !r.temp && !r.slot && (r.leads <==> keyed))
    && (r.pc.ReleaseForHit? ==> keyed && !r.temp && r.slot && r.leads)
    && (r.pc.StartFetch? ==> !r.temp && r.slot && (r.leads <==> keyed))
    && (InFetch(r.pc) ==> r.temp && r.slot && (r.leads <==> keyed))
    && (InPromotion(r.pc) ==> keyed && r.temp && r.slot && r.leads)
    && (r.pc.Serve? ==> (r.temp <==> r.slot) && (r.leads ==> keyed))
    && (r.pc.RemoveTemp? ==> r.temp && r.slot && (r.leads ==> keyed))
    && (r.pc.ReleaseSlot? ==> !r.temp && r.slot && (r.leads ==> keyed))
    && (r.pc.EndFlight? ==> !r.temp && !r.slot && r.leads && keyed)
    && (r.pc.Done? ==> !r.temp && !r.slot && !r.leads)
    && (IsDelete(r.pc) ==> !r.temp && !r.slot && !r.leads && !keyed)
  }

  lemma LookupShape(env: Env, s: State, r: Req, c: Choice)
    requires Shape(env, r) && InLookup(r.pc)
    ensures Shape(env, NextLookup(s.store, r, c))
    ensures NextLookup(s.store, r, c).row == r.row
  {
    hide DownloadKey, FileAt, IsRegular;
  }

  lemma AdmissionShape(env: Env, s: State, r: Req, c: Choice)
    requires Shape(env, r) && InAdmission(r.pc)
    ensures Shape(env, NextAdmission(s.gate, s.limit, r, c.wake))
    ensures NextAdmission(s.gate, s.limit, r, c.wake).row == r.row
  {
    hide DownloadKey;
  }

  lemma FetchShape(env: Env, s: State, r: Req, id: nat, c: Choice)
    requires Shape(env, r) && InFetch(r.pc)
    ensures Shape(env, NextFetch(s.store.tmp, s.counts, r, id, c))
    ensures NextFetch(s.store.tmp, s.counts, r, id, c).row == r.row
  {
    hide DownloadKey, Bump, FetchId;
  }

  lemma PromotionShape(env: Env, s: State, r: Req, id: nat, c: Choice)
    requires Shape(env, r) && InPromotion(r.pc)
    ensures Shape(env, NextPromotion(s, r, id, c))
    ensures NextPromotion(s, r, id, c).row == r.row
  {
    hide DownloadKey, Promote;
  }

  lemma DeleteShape(env: Env, s: State, r: Req, c: Choice)
    requires Shape(env, r) && IsDelete(r.pc)
    ensures Shape(env, NextDelete(env, s, r, c))
    ensures NextDelete(env, s, r, c).row == r.row
  {
    hide DownloadKey, CacheKeys, Drop;
  }

  lemma NextShape(env: Env, s: State, r: Req, id: nat, c: Choice)
    requires Shape(env, r)
    ensures Shape(env, NextReq(env, s, r, id, c))
    ensures NextReq(env, s, r, id, c).row == r.row
  {
    hide NextLookup, NextAdmission, NextFetch, NextPromotion, NextDelete, DownloadKey;
    if InLookup(r.pc) { LookupShape(env, s, r, c); hide Shape; }
    else if InAdmission(r.pc) { AdmissionShape(env, s, r, c); hide Shape; }
    else if InFetch(r.pc) { FetchShape(env, s, r, id, c); hide Shape; }
    else if InPromotion(r.pc) { PromotionShape(env, s, r, id, c); hide Shape; }
    else if IsDelete(r.pc) { DeleteShape(env, s, r, c); hide Shape; }
  }

  // ------------------------------------------------------------- step directions

  predicate SameFlags(r: Req, r': Req) {
    r'.row == r.row && r'.cacheKey == r.cacheKey && r'.leads == r.leads && r'.slot == r.slot && r'.temp == r.temp
  }

  /** On the way out through the deferred calls, or out. */
  predicate Leaving(pc: Pc) { pc.RemoveTemp? || pc.ReleaseSlot? || pc.EndFlight? || pc.Done? }

  lemma LookupMoves(s: State, r: Req, c: Choice)
    requires InLookup(r.pc)
    ensures var r' := NextLookup(s.store, r, c);
            && SameFlags(r, r')
            && (InLookup(r'.pc) || r'.pc.Join? || r'.pc.StartFetch? || r'.pc.Serve? || r'.pc.ReleaseForHit?)
  {
    hide FileAt, IsRegular;
  }

  lemma FetchMoves(s: State, r: Req, id: nat, c: Choice)
    requires InFetch(r.pc)
    ensures var r' := NextFetch(s.store.tmp, s.counts, r, id, c);
            && SameFlags(r, r')
            && (InFetch(r'.pc) || r'.pc.PromoteTemp? || r'.pc.Serve? || Leaving(r'.pc))
  {
    hide Bump, FetchId;
  }

  lemma PromotionMoves(s: State, r: Req, id: nat, c: Choice)
    requires InPromotion(r.pc)
    ensures var r' := NextPromotion(s, r, id, c);
            SameFlags(r, r') && (r'.pc.Recheck? || r'.pc.PurgeOwn? || r'.pc.Serve?)
  {
    hide Promote;
  }

  lemma DeleteMoves(env: Env, s: State, r: Req, c: Choice)
    requires IsDelete(r.pc)
    ensures var r' := NextDelete(env, s, r, c);
            SameFlags(r, r') && (IsDelete(r'.pc) || r'.pc.Done?)
  {
    hide Drop, CacheKeys;
  }

  lemma AdmissionMoves(s: State, r: Req, c: Choice)
    requires InAdmission(r.pc)
    ensures var r' := NextAdmission(s.gate, s.limit, r, c.wake);
            && SameFlags(r.(slot := r'.slot), r')
            && (r.pc.ReadLimit? ==> r'.slot == r.slot && r'.pc == TryGate(s.limit))
            && (r.pc.AwaitSlot? ==> r'.slot == r.slot && (r'.pc.ReadLimit? || Leaving(r'.pc)))
            && (r.pc.TryGate? && TryAcquire(s.gate, r.pc.limit).1 ==>
                  r'.slot && r'.pc == (if r.cacheKey != "" then ReadEntry(Admitted) else StartFetch))
            && (r.pc.TryGate? && !TryAcquire(s.gate, r.pc.limit).1 ==>
                  r'.slot == r.slot && r'.pc == AwaitSlot(s.gate.generation, r.pc.limit))
  {
  }
}
