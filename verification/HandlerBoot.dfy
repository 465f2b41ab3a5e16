/** The system from boot to quiescence: every invariant starts true, and when
    every request has finished nothing it took is left behind. */
module HandlerBoot {
  import opened Base
  import opened CacheStore
  import opened Flights
  import opened Gates
  import opened Counters
  import opened Handlers
  import opened HandlerShape
  import opened HandlerGate
  import opened HandlerFlight
  import opened HandlerStaging
  import opened HandlerPurge
  import opened HandlerClean
  import Lives = Lifecycle
  import Content = HandlerContent
  import Laws = StoreLaws

  /** Some birth and some writes left the row like this. */
  ghost predicate AsWritten(u: Lives.Upload) {
    exists birth, writes {:trigger Lives.Lived(birth, writes)} :: u == Lives.Lived(birth, writes)
  }

  lemma AsWrittenIsWellWritten(u: Lives.Upload)
    requires AsWritten(u)
    ensures Lives.WellWritten(u)
  {
    var birth, writes {:trigger Lives.Lived(birth, writes)} :| u == Lives.Lived(birth, writes);
    Lives.LivesWellWritten(birth, writes);
  }

  /** Nobody is running and nothing is counted yet. */
  predicate Idle(s: State) {
    && s.reqs == map[] && s.flight == FlightState(map[], {}) && s.gate == GateState(0, 0)
    && s.counts == map[] && s.bumped == [] && s.strays == {} && s.gone == {}
    && 1 <= s.limit == s.peak <= 1000
    && s.store.tmp == map[]
    && RowsDistinct(s)
  }

  /** The system after a boot scan: rows are as their writers left them, and what is
      cached is content of the size the index records; keys that serve no row, of
      uploads deleted before the program went down, count as left behind. */
  ghost predicate Booted(env: Env, s: State) {
    && Idle(s)
    && Valid(s.store) && Laws.Backed(s.store) && Laws.Covered(s.store)
    && (forall k :: OnDisk(s.store, k) ==> Content.Exact(env, k, s.store.disk[PathOf(k)].data))
    && (forall i :: i in s.rows ==> AsWritten(s.rows[i].upload))
    && (forall k :: k in s.leaked <==> Held(s.store, k) && !LiveKey(env, s.rows, k))
  }

  lemma BootContent(env: Env, st: StoreState)
    requires Laws.Backed(st)
    requires forall k :: OnDisk(st, k) ==> Content.Exact(env, k, st.disk[PathOf(k)].data)
    ensures Content.DiskOk(env, st.disk) && Content.EntriesOk(env, st.entries)
  {
    forall p | p in st.disk && Laws.Canonical(p, st.disk[p]) ensures Content.Good(env, Name(p), st.disk[p].data) {
      assert OnDisk(st, Name(p));
    }
    forall k | k in st.entries ensures Content.GoodSize(env, k, st.entries[k].size) {
      assert KeyValid(k) && Matches(st, k);
      assert OnDisk(st, k);
    }
  }

  lemma BootEstablishesAll(env: Env, s: State)
    requires Booted(env, s)
    ensures GateInv(env, s) && FlightInv(s) && StagingInv(s) && PurgeInv(env, s) && CleanInv(env, s) && MissesInv(s)
    ensures Content.ContentInv(env, s)
  {
    assert Holders(s.reqs) == {};
    BootContent(env, s.store);
    forall i | i in s.rows ensures Lives.WellWritten(s.rows[i].upload) {
      AsWrittenIsWellWritten(s.rows[i].upload);
    }
    hide Held, LiveKey, Valid, Laws.Backed, Laws.Covered, Content.DiskOk, Content.EntriesOk, Lives.WellWritten, AsWritten,
         RowsDistinct;
  }

  /** The keys in the directory that serve no row. */
  function Orphans(env: Env, s: State, st: StoreState): set<string> {
    set p | p in st.disk && Laws.Canonical(p, st.disk[p]) && !LiveKey(env, s.rows, Name(p)) :: Name(p)
  }

  /** A restart over any cache directory whose canonical files are what they were
      promoted as, with any strays among them, removable or not, and with files of
      uploads deleted in the meantime: a completed boot scan, which meets each
      path once, brings the system to the state above. */
  lemma ScanBoots(env: Env, s: State, walk: seq<Visit>, now: int)
    requires Idle(s) && s.store.entries == map[] && s.store.bytes == 0
    requires forall i :: i in s.rows ==> AsWritten(s.rows[i].upload)
    requires forall p :: p in s.store.disk && Laws.Canonical(p, s.store.disk[p]) ==>
               Content.Exact(env, Name(p), s.store.disk[p].data)
    requires Laws.Complete(s.store, walk) && Laws.Once(walk)
    requires Scanned(s.store, walk, now).1
    ensures var st := Scanned(s.store, walk, now).0; Booted(env, s.(store := st, leaked := Orphans(env, s, st)))
  {
    var st := Scanned(s.store, walk, now).0;
    Laws.ScanMakesIndexAuthoritative(s.store, walk, now);
    Laws.FirstScanIsBacked(s.store, walk, now);
    Laws.ScanOnlyRemoves(s.store, walk, now);
    hide Scanned, Content.Exact, AsWritten, Laws.Complete, Laws.Once, Laws.Stuck, Total, LiveKey;
    forall k | OnDisk(st, k) ensures Content.Exact(env, k, st.disk[PathOf(k)].data) {
      var p := PathOf(k);
      assert Name(p) == k;
      assert p in s.store.disk && Laws.Canonical(p, s.store.disk[p]);
    }
    OrphansAre(env, s, st);
    hide Orphans, Held, Laws.Backed, Laws.Covered, OnDisk, Laws.Canonical;
  }

  lemma OrphansAre(env: Env, s: State, st: StoreState)
    requires Laws.Backed(st)
    ensures forall k :: k in Orphans(env, s, st) <==> Held(st, k) && !LiveKey(env, s.rows, k)
  {
    hide LiveKey;
    forall k ensures k in Orphans(env, s, st) <==> Held(st, k) && !LiveKey(env, s.rows, k) {
      if Held(st, k) {
        assert k in st.entries ==> Matches(st, k);
        assert Name(PathOf(k)) == k && Laws.Canonical(PathOf(k), st.disk[PathOf(k)]);
      }
    }
  }

  /** Once every request has finished, every slot is free, every flight is over
      and every staging file is gone, except those whose removal failed: each
      acquire was released once and each leader finished, on every exit path. */
  lemma QuiescentIsClean(env: Env, s: State, acts: seq<Action>)
    requires Booted(env, s) && Possible(env, s, acts)
    requires forall id :: id in Run(env, s, acts).reqs ==> Run(env, s, acts).reqs[id].pc.Done?
    ensures var s' := Run(env, s, acts);
            && s'.gate.inFlight == 0
            && s'.flight.inflight == map[]
            && s'.store.tmp.Keys <= s'.strays
  {
    BootEstablishesAll(env, s);
    RunKeepsFlight(env, s, acts);
    RunKeepsStaging(env, s, acts);
    var s' := Run(env, s, acts);
    hide Run, Possible, Booted, Content.ContentInv, CleanInv, PurgeInv, MissesInv;
    forall id | id in s'.reqs ensures !s'.reqs[id].slot && !s'.reqs[id].leads && !s'.reqs[id].temp {
      assert Shape(env, s'.reqs[id]);
    }
    assert Holders(s'.reqs) == {};
    forall k ensures k !in s'.flight.inflight {
      assert k in s'.flight.inflight ==> LeadsKey(s'.reqs, s'.flight.inflight[k], k);
    }
  }
}
