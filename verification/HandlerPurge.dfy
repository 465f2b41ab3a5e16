/** Deleted uploads stay deleted: a cached key always serves a live row, or somebody
    still owes its purge, or one of a few steps left it behind; and exactly when
    such a step does.  Admission to the cache never comes before the configured
    number of misses. */
module HandlerPurge {
  import opened Base
  import opened CacheStore
  import opened Flights
  import opened Gates
  import opened Counters
  import opened Handlers
  import opened HandlerShape
  import opened HandlerGate
  import opened HandlerStore
  import Content = HandlerContent
  import Laws = StoreLaws
  import Lives = Lifecycle

  /** The request has still to purge the key: a download between its promotion
      and its check or purge, a delete between its row delete and the end of
      its second purge. */
  predicate Owes(env: Env, r: Req, key: string) {
    || ((r.pc.Recheck? || r.pc.PurgeOwn?) && r.cacheKey == key)
    || (r.pc.PurgeAfter? && r.pc.next <= |CacheKeys(env, r.row)| && key in CacheKeys(env, r.row)[r.pc.next..])
  }

  predicate Owed(env: Env, reqs: map<nat, Req>, key: string) { exists id :: id in reqs && Owes(env, reqs[id], key) }

  /** The key is in the cache, serves no row, and nobody is going to purge it. */
  predicate Orphan(env: Env, s: State, key: string) {
    Held(s.store, key) && !LiveKey(env, s.rows, key) && !Owed(env, s.reqs, key)
  }

  ghost predicate PurgeInv(env: Env, s: State) {
    && (forall i :: i in s.rows ==> Lives.WellWritten(s.rows[i].upload))
    && (forall id :: id in s.reqs ==> Shape(env, s.reqs[id]))
    && (forall k :: Orphan(env, s, k) ==> k in s.leaked)
  }

  // -------------------------------------------------------------- preservation

  lemma OpHeld(st: StoreState, op: Laws.Op, k: string)
    requires !op.Visiting?
    ensures Held(Laws.Apply(st, op), k) ==> Held(st, k) || Laws.PromotesKey(st, op, k)
    ensures op.Dropping? && op.key == k && Drop(st, k, op.fails).1 ==> !Held(Laws.Apply(st, op), k)
  {
    if KeyValid(k) {
      match op
      case Promoting(key, _, _, _, _) => if KeyValid(key) { Laws.PathInjective(key, k); }
      case Tampering(key, _) => if KeyValid(key) { Laws.PathInjective(key, k); }
      case Dropping(key, fails) => Laws.DropLaw(st, key, fails, k);
      case Evicting(key, gen, fails) => Laws.UnlinkLaw(st, key, k, fails);
      case _ =>
    }
  }

  lemma NextHeld(env: Env, st: StoreState, r: Req, id: nat, c: Choice, k: string)
    ensures var st' := NextStore(env, st, r, id, c);
            && (Held(st', k) ==>
                  Held(st, k)
                  || (r.pc.PromoteTemp? && r.cacheKey == k
                      && Promote(st, k, id, c.budget, c.now, c.fails).1 == Promoted))
            && (PurgedKey(env, r) == Some(k) && Drop(st, k, c.fails).1 ==> !Held(st', k))
  {
    var ops := RequestOp(env, r, id, c);
    StepStore(env, st, r, id, c);
    RunNone(st);
    hide Drop, Promote, Held, NextStore, FetchId, Laws.Run, Laws.Apply;
    if ops != [] {
      RunOne(st, ops[0]);
      OpHeld(st, ops[0], k);
    }
    hide PurgedKey;
  }

  /** Whoever owes a purge passes it on, or the key serves a row, or it is recorded
      as left behind. */
  lemma DebtMoves(env: Env, s: State, r: Req, id: nat, c: Choice, k: string)
    requires Shape(env, r) && Owes(env, r, k)
    requires Held(NextStore(env, s.store, r, id, c), k)
    ensures Owes(env, NextReq(env, s, r, id, c), k) || k in Lapsed(env, s, r, c)
            || (r.pc.Recheck? && LiveKey(env, s.rows, k))
  {
    NextHeld(env, s.store, r, id, c, k);
    hide NextStore, Held, Promote, Drop, NextLookup, NextAdmission, NextFetch, LiveKey, UuidThere;
    if r.pc.Recheck? {
      hide DownloadKey, CacheKeys, Shape;
    } else if r.pc.PurgeAfter? {
      hide Shape, DownloadKey;
      var keys, i := CacheKeys(env, r.row), r.pc.next;
      assert i < |keys| ==> keys[i..] == [keys[i]] + keys[i + 1..];
      hide CacheKeys;
    } else {
      hide Shape, DownloadKey, CacheKeys;
    }
  }

  lemma LiveKeyStays(env: Env, s: State, id: nat, c: Choice, k: string)
    requires id in s.reqs && LiveKey(env, s.rows, k)
    ensures var s' := Exec(env, s, id, c);
            LiveKey(env, s'.rows, k) || Owed(env, s'.reqs, k) || k in Lapsed(env, s, s.reqs[id], c)
  {
    hide NextStore, NextFlight, NextGate, Bumps, Bump, CacheKeys, NextLookup, NextAdmission, NextFetch,
         NextPromotion, DownloadKey, StillThere;
    var r := s.reqs[id];
    var s' := Exec(env, s, id, c);
    var i :| i in s.rows && DownloadKey(env, RowAt(s.rows, i)) == k;
    if DeletesRow(s, r, c) && i == r.row.id {
      var keys := CacheKeys(env, r.row);
      assert keys[0..] == keys;
      assert k in keys ==> Owes(env, s'.reqs[id], k);
    } else {
      hide NextReq, Lapsed;
      assert i in s'.rows && s'.rows[i] == s.rows[i];
    }
  }

  lemma OwedStays(env: Env, s: State, id: nat, c: Choice, k: string, j: nat)
    requires id in s.reqs && Shape(env, s.reqs[id])
    requires j in s.reqs && Owes(env, s.reqs[j], k)
    requires Held(Exec(env, s, id, c).store, k)
    ensures var s' := Exec(env, s, id, c);
            LiveKey(env, s'.rows, k) || Owed(env, s'.reqs, k) || k in Lapsed(env, s, s.reqs[id], c)
  {
    var r := s.reqs[id];
    var s' := Exec(env, s, id, c);
    hide NextReq, NextStore, Lapsed, NextFlight, NextGate, Bumps, Bump, CacheKeys, Shape, Held, StillThere, LiveKey;
    if j == id {
      DebtMoves(env, s, r, id, c, k);
      hide Owes;
      assert r.pc.Recheck? ==> s'.rows == s.rows;
      if Owes(env, s'.reqs[id], k) {
        assert Owed(env, s'.reqs, k);
      }
    } else {
      hide Owes;
      assert s'.reqs[j] == s.reqs[j];
      assert Owed(env, s'.reqs, k);
    }
  }

  /** A key becomes an orphan by a step only if the step is recorded to leave it. */
  lemma ExecLeaves(env: Env, s: State, id: nat, c: Choice, k: string)
    requires id in s.reqs && Shape(env, s.reqs[id])
    requires Held(Exec(env, s, id, c).store, k)
    ensures var s' := Exec(env, s, id, c);
            LiveKey(env, s'.rows, k) || Owed(env, s'.reqs, k) || Orphan(env, s, k) || k in Lapsed(env, s, s.reqs[id], c)
  {
    var r := s.reqs[id];
    var s' := Exec(env, s, id, c);
    hide NextStore, Lapsed, NextFlight, NextGate, Bumps, Bump, CacheKeys, Held, Shape, NextLookup, StillThere,
         NextAdmission, NextFetch, NextDelete, Promote, LiveKey;
    NextHeld(env, s.store, r, id, c, k);
    if !Held(s.store, k) {
      assert Owes(env, s'.reqs[id], k);
      assert Owed(env, s'.reqs, k);
    }
    hide NextReq, Owes;
    if Held(s.store, k) && LiveKey(env, s.rows, k) {
      LiveKeyStays(env, s, id, c, k);
    } else if Held(s.store, k) && Owed(env, s.reqs, k) {
      var j :| j in s.reqs && Owes(env, s.reqs[j], k);
      OwedStays(env, s, id, c, k, j);
    }
  }

  /** The identifiers of a row that has its final ones do not move its key. */
  lemma RowKeepsKey(env: Env, s: State, a: Action, i: nat)
    requires Enabled(s, a) && !a.Step? && i in s.rows && Lives.WellWritten(s.rows[i].upload)
    ensures i in Apply(env, s, a).rows
    ensures DownloadKey(env, RowAt(s.rows, i)) != "" ==>
              DownloadKey(env, RowAt(Apply(env, s, a).rows, i)) == DownloadKey(env, RowAt(s.rows, i))
    ensures !s.rows[i].upload.staged ==>
              SameContent(RowAt(s.rows, i), RowAt(Apply(env, s, a).rows, i)) && !Apply(env, s, a).rows[i].upload.staged
  {
    hide Drop, DropGen, Tampered, StillThere, Download, Exec;
    if a.WriteRow? && a.rowId == i && !s.rows[i].upload.staged {
      Lives.WriteKeepsIdentifiers(s.rows[i].upload, a.write);
      SameContentSameKey(env, RowAt(s.rows, i), RowAt(Apply(env, s, a).rows, i));
      hide Lives.Written;
    }
  }

  /** The row is the one read before, or has been published since. */
  predicate SameContent(read: Row, now: Row) {
    now == read || (Usable(read.dataMap) && now == read.(address := now.address))
  }

  lemma SameContentSameKey(env: Env, read: Row, now: Row)
    requires SameContent(read, now)
    ensures DownloadKey(env, now) == DownloadKey(env, read)
  {
  }

  lemma OtherHeld(env: Env, s: State, a: Action, k: string)
    requires Enabled(s, a) && !a.Step? && Held(Apply(env, s, a).store, k)
    ensures Held(s.store, k)
  {
    hide Download, Lives.Written, Held;
    match a
    case Evict(key, gen, fails) => OpHeld(s.store, Laws.Evicting(key, gen, fails), k);
    case PurgeKey(key, fails) => OpHeld(s.store, Laws.Dropping(key, fails), k);
    case Tamper(key, file) => OpHeld(s.store, Laws.Tampering(key, file), k);
    case _ => hide Drop, DropGen, Tampered;
  }

  lemma OtherKeepsLive(env: Env, s: State, a: Action, k: string)
    requires Enabled(s, a) && !a.Step? && LiveKey(env, s.rows, k) && k != ""
    requires forall i :: i in s.rows ==> Lives.WellWritten(s.rows[i].upload)
    ensures LiveKey(env, Apply(env, s, a).rows, k)
  {
    var i :| i in s.rows && DownloadKey(env, RowAt(s.rows, i)) == k;
    RowKeepsKey(env, s, a, i);
    hide Apply, DownloadKey;
  }

  lemma OtherKeepsOwed(env: Env, s: State, a: Action, k: string)
    requires Enabled(s, a) && !a.Step? && Owed(env, s.reqs, k)
    ensures Owed(env, Apply(env, s, a).reqs, k)
  {
    hide Drop, DropGen, Tampered, Download, Lives.Written, StillThere, Owes;
    var j :| j in s.reqs && Owes(env, s.reqs[j], k);
    assert j in Apply(env, s, a).reqs && Apply(env, s, a).reqs[j] == s.reqs[j];
  }

  /** Nothing but a step of a request makes an orphan. */
  lemma OtherLeavesNothing(env: Env, s: State, a: Action, k: string)
    requires PurgeInv(env, s) && Enabled(s, a) && !a.Step?
    requires Held(Apply(env, s, a).store, k)
    ensures var s' := Apply(env, s, a); LiveKey(env, s'.rows, k) || Owed(env, s'.reqs, k) || Orphan(env, s, k)
  {
    OtherHeld(env, s, a, k);
    assert k != "";
    hide Held, Apply, Shape;
    if LiveKey(env, s.rows, k) { OtherKeepsLive(env, s, a, k); }
    if Owed(env, s.reqs, k) { OtherKeepsOwed(env, s, a, k); }
    hide LiveKey, Owed, Lives.WellWritten;
  }

  /** What the rest of the machine does to rows and requests. */
  lemma ApplyKeepsShapes(env: Env, s: State, a: Action)
    requires Enabled(s, a)
    requires forall i :: i in s.rows ==> Lives.WellWritten(s.rows[i].upload)
    requires forall id :: id in s.reqs ==> Shape(env, s.reqs[id])
    ensures var s' := Apply(env, s, a);
            && (forall i :: i in s'.rows ==> Lives.WellWritten(s'.rows[i].upload))
            && (forall id :: id in s'.reqs ==> Shape(env, s'.reqs[id]))
  {
    hide Lives.WellWritten, Drop, DropGen, Tampered, StillThere, Download;
    match a
    case Step(id, c) =>
      NextShape(env, s, s.reqs[id], id, c);
      hide Shape, NextReq, NextStore, Lapsed, NextFlight, NextGate, Bumps, Bump;
    case StartDownload(_, _, _, _) =>
      StartShape(env, s, a);
      hide Shape, Apply;
    case StartDelete(_, _, _) =>
      StartShape(env, s, a);
      hide Shape, Apply;
    case InsertRow(_, _, birth) =>
      Content.BirthIsWellWritten(birth);
      hide Shape;
    case WriteRow(rowId, write) =>
      Lives.WriteKeepsWellWritten(s.rows[rowId].upload, write);
      hide Shape;
    case _ =>
      hide Shape;
  }

  lemma ApplyKeepsPurge(env: Env, s: State, a: Action)
    requires PurgeInv(env, s) && Enabled(s, a)
    ensures PurgeInv(env, Apply(env, s, a))
  {
    var s' := Apply(env, s, a);
    ApplyKeepsShapes(env, s, a);
    forall k | Orphan(env, s', k) ensures k in s'.leaked {
      hide Shape;
      if a.Step? {
        ExecLeaves(env, s, a.id, a.choice, k);
        assert k in s.leaked + Lapsed(env, s, s.reqs[a.id], a.choice);
        LeakedIs(env, s, a);
      } else {
        OtherLeavesNothing(env, s, a, k);
        LeakedIs(env, s, a);
      }
    }
    hide Orphan, Shape, Lives.WellWritten, Apply;
  }

  /** What is recorded as left behind. */
  lemma LeakedIs(env: Env, s: State, a: Action)
    requires Enabled(s, a)
    ensures var s' := Apply(env, s, a);
            forall k :: Held(s'.store, k) ==>
              (k in s'.leaked <==> k in s.leaked || (a.Step? && k in Lapsed(env, s, s.reqs[a.id], a.choice)))
              || (s'.store == s.store && s'.leaked == s.leaked)
  {
    hide Held, Drop, DropGen, Tampered, NextStore, NextReq, NextFlight, NextGate, Lapsed, Bumps, Bump, Download,
         DeletesRow, Lives.Written;
  }

  lemma {:induction false} RunKeepsPurge(env: Env, s: State, acts: seq<Action>)
    requires PurgeInv(env, s) && Possible(env, s, acts)
    ensures PurgeInv(env, Run(env, s, acts))
    decreases |acts|
  {
    if acts != [] {
      ApplyKeepsPurge(env, s, acts[0]);
      hide PurgeInv, Apply, Enabled;
      RunKeepsPurge(env, Apply(env, s, acts[0]), acts[1..]);
    }
  }

  // ------------------------------------------------------------------ theorems

  /** No resurrection: in every reachable state, a cached key that serves no live
      row has a request that still owes its purge, unless one of the recorded
      steps left it behind and it has been there ever since. */
  lemma NoResurrection(env: Env, s: State, acts: seq<Action>, key: string)
    requires PurgeInv(env, s) && Possible(env, s, acts)
    ensures var s' := Run(env, s, acts); Orphan(env, s', key) ==> key in s'.leaked
  {
    RunKeepsPurge(env, s, acts);
    hide Run, Possible, Orphan;
  }

  /** So once every request has finished, what is cached serves a live row or was
      left behind by one of those steps. */
  lemma DeletedStaysDeleted(env: Env, s: State, acts: seq<Action>, key: string)
    requires PurgeInv(env, s) && Possible(env, s, acts)
    requires forall id :: id in Run(env, s, acts).reqs ==> Run(env, s, acts).reqs[id].pc.Done?
    ensures var s' := Run(env, s, acts);
            Held(s'.store, key) && !LiveKey(env, s'.rows, key) ==> key in s'.leaked
  {
    NoResurrection(env, s, acts, key);
    NothingOwedWhenDone(env, Run(env, s, acts).reqs, key);
    hide Run, Possible, LiveKey, Owed, Held;
  }

  lemma NothingOwedWhenDone(env: Env, reqs: map<nat, Req>, key: string)
    requires forall id :: id in reqs ==> reqs[id].pc.Done?
    ensures !Owed(env, reqs, key)
  {
  }

  // ---------------------------------------------------------- miss admission

  /** The counter has seen exactly the bumps recorded, and a download about to
      promote under a raised threshold has that many misses behind it. */
  predicate MissesInv(s: State) {
    && s.counts == Counted(COUNTER_CAP, s.bumped)
    && (forall id :: id in s.reqs ==> EnoughMisses(s.bumped, s.reqs[id]))
  }

  predicate EnoughMisses(bumped: seq<string>, r: Req) {
    r.pc.PromoteTemp? && r.pc.minUses > 1 ==> Occurrences(bumped, r.cacheKey) >= r.pc.minUses
  }

  lemma OneMore(bumped: seq<string>, key: string, last: string)
    ensures Counted(COUNTER_CAP, bumped + [last]) == Bump(Counted(COUNTER_CAP, bumped), COUNTER_CAP, last).0
    ensures Occurrences(bumped + [last], key) >= Occurrences(bumped, key)
  {
    assert (bumped + [last])[..|bumped|] == bumped;
  }

  /** Only the decision after a fetch leads to a promotion. */
  lemma NextMisses(env: Env, s: State, r: Req, id: nat, c: Choice)
    ensures var r' := NextReq(env, s, r, id, c);
            r'.pc.PromoteTemp? && r' != r ==>
              && r.pc.Decide? && r'.cacheKey == r.cacheKey && r.cacheKey != "" && r'.pc.minUses == c.minUses
              && (c.minUses > 1 ==> Bump(s.counts, COUNTER_CAP, r.cacheKey).1 >= c.minUses)
  {
    hide NextLookup, NextAdmission, NextPromotion, NextDelete, Bump, FetchId;
    if InLookup(r.pc) { LookupMoves(s, r, c); hide NextFetch; }
    else if InAdmission(r.pc) { AdmissionMoves(s, r, c); hide NextFetch; }
    else if InPromotion(r.pc) { PromotionMoves(s, r, id, c); hide NextFetch; }
    else if IsDelete(r.pc) { DeleteMoves(env, s, r, c); hide NextFetch; }
  }

  lemma StepKeepsMisses(env: Env, s: State, id: nat, c: Choice)
    requires MissesInv(s) && id in s.reqs
    ensures MissesInv(Exec(env, s, id, c))
  {
    var r, s' := s.reqs[id], Exec(env, s, id, c);
    NextMisses(env, s, r, id, c);
    NeverEarly(COUNTER_CAP, s.bumped, r.cacheKey, c.minUses);
    hide NextReq, NextStore, Lapsed, NextFlight, NextGate, Bump, Counted, Occurrences, StillThere, DeletesRow;
    forall j | j in s'.reqs ensures EnoughMisses(s'.bumped, s'.reqs[j]) {
      OneMore(s.bumped, s'.reqs[j].cacheKey, r.cacheKey);
      assert j in s.reqs && EnoughMisses(s.bumped, s.reqs[j]);
    }
    OneMore(s.bumped, r.cacheKey, r.cacheKey);
  }

  lemma ApplyKeepsMisses(env: Env, s: State, a: Action)
    requires MissesInv(s) && Enabled(s, a)
    ensures MissesInv(Apply(env, s, a))
  {
    hide Bump, Counted, Occurrences, Drop, DropGen, Tampered, StillThere, Lives.Written, Exec;
    if a.Step? {
      StepKeepsMisses(env, s, a.id, a.choice);
      hide MissesInv;
    } else if a.StartDownload? || a.StartDelete? {
      StartShape(env, s, a);
      hide Apply, Shape;
    }
  }

  /** With the threshold raised to `n`, nothing is promoted before its `n`-th
      cache miss: a download about to promote has at least that many recorded
      misses of its key, its own included. */
  lemma {:induction false} NoEarlyAdmission(env: Env, s: State, acts: seq<Action>)
    requires MissesInv(s) && Possible(env, s, acts)
    ensures MissesInv(Run(env, s, acts))
    decreases |acts|
  {
    if acts != [] {
      ApplyKeepsMisses(env, s, acts[0]);
      hide MissesInv, Apply, Enabled;
      NoEarlyAdmission(env, Apply(env, s, acts[0]), acts[1..]);
    }
  }
}
