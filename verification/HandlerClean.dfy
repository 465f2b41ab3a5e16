/** When exactly deleted content is left in the cache, and that runs without such a
    step leave none. */
module HandlerClean {
  import opened Base
  import opened CacheStore
  import opened Flights
  import opened Gates
  import opened Counters
  import opened Handlers
  import opened HandlerShape
  import opened HandlerGate
  import opened HandlerPurge
  import Content = HandlerContent
  import Lives = Lifecycle

  // ------------------------------------------------------ the exact conditions

  /** Only this request, if anybody, still owes the purge. */
  predicate OnlyOwer(env: Env, s: State, id: nat, k: string) {
    forall j :: j in s.reqs && j != id ==> !Owes(env, s.reqs[j], k)
  }

  lemma OwedAfter(env: Env, s: State, id: nat, c: Choice, k: string)
    requires id in s.reqs && OnlyOwer(env, s, id, k)
    ensures Owed(env, Exec(env, s, id, c).reqs, k) <==> Owes(env, NextReq(env, s, s.reqs[id], id, c), k)
  {
    hide NextReq, NextStore, Lapsed, NextFlight, NextGate, Bumps, Bump, Owes, StillThere;
    var s' := Exec(env, s, id, c);
    assert s'.reqs == s.reqs[id := NextReq(env, s, s.reqs[id], id, c)];
    if Owes(env, s'.reqs[id], k) { assert Owed(env, s'.reqs, k); }
  }

  /** The check after a promotion, once no row is served under the key: it lets the
      bytes stand if and only if it fails or some row has the uuid it looks for, be
      it another one. */
  lemma RecheckIff(env: Env, s: State, id: nat, c: Choice)
    requires id in s.reqs && Shape(env, s.reqs[id]) && s.reqs[id].pc.Recheck?
    requires Held(s.store, s.reqs[id].cacheKey) && !LiveKey(env, s.rows, s.reqs[id].cacheKey)
    requires OnlyOwer(env, s, id, s.reqs[id].cacheKey)
    ensures Orphan(env, Exec(env, s, id, c), s.reqs[id].cacheKey) <==> c.fails || UuidThere(s.rows, s.reqs[id].row.uuid)
  {
    var r, s' := s.reqs[id], Exec(env, s, id, c);
    OwedAfter(env, s, id, c, r.cacheKey);
    hide Lapsed, NextFlight, NextGate, Bumps, Bump, StillThere, Shape, LiveKey, Held, UuidThere, Owed, OnlyOwer;
    assert s'.store == s.store && s'.rows == s.rows;
  }

  /** A delete, once it removes the only row served under a key: the key is left
      behind if and only if the row it had read did not have it yet. */
  lemma DeleteIff(env: Env, s: State, id: nat, c: Choice, k: string)
    requires id in s.reqs && DeletesRow(s, s.reqs[id], c) && k == DownloadKey(env, RowAt(s.rows, s.reqs[id].row.id))
    requires forall i :: i in s.rows && i != s.reqs[id].row.id ==> DownloadKey(env, RowAt(s.rows, i)) != k
    requires Held(s.store, k) && OnlyOwer(env, s, id, k)
    ensures Orphan(env, Exec(env, s, id, c), k) <==> k !in CacheKeys(env, s.reqs[id].row)
  {
    var r, s' := s.reqs[id], Exec(env, s, id, c);
    OwedAfter(env, s, id, c, k);
    var keys := CacheKeys(env, r.row);
    assert keys[0..] == keys;
    hide Lapsed, NextFlight, NextGate, Bumps, Bump, StillThere, Held, Owed, OnlyOwer, CacheKeys, DownloadKey;
    assert s'.store == s.store && s'.rows == s.rows - {r.row.id};
  }

  /** A last purge: the key is left behind if and only if its unlink fails. */
  lemma PurgeIff(env: Env, s: State, id: nat, c: Choice, k: string)
    requires id in s.reqs && PurgedKey(env, s.reqs[id]) == Some(k) && !s.reqs[id].pc.PurgeBefore?
    requires s.reqs[id].pc.PurgeAfter? ==> k !in CacheKeys(env, s.reqs[id].row)[s.reqs[id].pc.next + 1..]
    requires Held(s.store, k) && !LiveKey(env, s.rows, k) && OnlyOwer(env, s, id, k)
    ensures Orphan(env, Exec(env, s, id, c), k) <==> c.fails
  {
    var r, s' := s.reqs[id], Exec(env, s, id, c);
    OwedAfter(env, s, id, c, k);
    NextHeld(env, s.store, r, id, c, k);
    hide Lapsed, NextFlight, NextGate, Bumps, Bump, StillThere, Owed, OnlyOwer, CacheKeys, LiveKey, Forget;
    assert s'.rows == s.rows;
    assert Drop(s.store, k, c.fails).1 <==> !c.fails;
    assert c.fails ==> s'.store == s.store;
    hide Held, Drop;
  }

  /** No other step, and no other action, leaves a key behind. */
  lemma OrphanedByStepOnly(env: Env, s: State, a: Action, k: string)
    requires PurgeInv(env, s) && Enabled(s, a) && !Orphan(env, s, k)
    ensures Orphan(env, Apply(env, s, a), k) ==> a.Step? && k in Lapsed(env, s, s.reqs[a.id], a.choice)
  {
    if Held(Apply(env, s, a).store, k) {
      if a.Step? {
        ExecLeaves(env, s, a.id, a.choice, k);
      } else {
        OtherLeavesNothing(env, s, a, k);
      }
    }
    hide Held, LiveKey, Owed, Lapsed, Exec;
  }

  // --------------------------------------------------------------- clean runs

  /** A download that is not done with the row it read. */
  predicate Pending(r: Req) { !r.pc.Done? && !IsDelete(r.pc) }

  /** The row it read has the same content still or is gone for good, and no other
      row has its uuid. */
  predicate Known(s: State, r: Req) {
    && r.row.uuid in s.used
    && (r.row.id in s.gone
        || (r.row.id in s.rows && !s.rows[r.row.id].upload.staged && SameContent(r.row, RowAt(s.rows, r.row.id))))
    && (forall i :: i in s.rows && s.rows[i].uuid == r.row.uuid ==> i == r.row.id)
  }

  predicate RowsDistinct(s: State) {
    && s.rows.Keys !! s.gone
    && (forall i :: i in s.rows ==> s.rows[i].uuid in s.used)
    && (forall i, j :: i in s.rows && j in s.rows && s.rows[i].uuid == s.rows[j].uuid ==> i == j)
  }

  ghost predicate CleanInv(env: Env, s: State) {
    PurgeInv(env, s) && RowsDistinct(s) && forall id :: id in s.reqs && Pending(s.reqs[id]) ==> Known(s, s.reqs[id])
  }

  /** The steps that leave nothing behind, to be told before they are taken: no purge
      or row read fails once the row may be gone, no delete removes a row that
      got its identifiers after the delete had read it, and no import brings back
      a uuid that an unfinished download has read. */
  predicate Clean(env: Env, s: State, a: Action)
    requires Enabled(s, a)
  {
    match a
    case Step(id, c) =>
      var r := s.reqs[id];
      && (r.pc.Recheck? || r.pc.PurgeOwn? || r.pc.PurgeAfter? ==> !c.fails)
      && (DeletesRow(s, r, c) ==> SameContent(r.row, RowAt(s.rows, r.row.id)))
    case InsertRow(_, uuid, birth) =>
      birth.Imported? ==> forall id :: id in s.reqs && Pending(s.reqs[id]) ==> s.reqs[id].row.uuid != uuid
    case _ => true
  }

  predicate CleanRun(env: Env, s: State, acts: seq<Action>)
    requires Possible(env, s, acts)
    decreases |acts|
  {
    acts == [] || (Clean(env, s, acts[0]) && CleanRun(env, Apply(env, s, acts[0]), acts[1..]))
  }

  lemma CleanStepLeavesNothing(env: Env, s: State, id: nat, c: Choice, k: string)
    requires CleanInv(env, s) && Enabled(s, Step(id, c)) && Clean(env, s, Step(id, c)) && k != ""
    ensures k !in Lapsed(env, s, s.reqs[id], c)
  {
    var r := s.reqs[id];
    assert Shape(env, r);
    if r.pc.Recheck? {
      assert Known(s, r) && r.cacheKey == DownloadKey(env, r.row);
      if UuidThere(s.rows, r.row.uuid) {
        SameContentSameKey(env, r.row, RowAt(s.rows, r.row.id));
        assert LiveKey(env, s.rows, r.cacheKey);
      }
      hide DownloadKey, CacheKeys, Shape, LiveKey, SameContent;
    } else if DeletesRow(s, r, c) {
      SameContentSameKey(env, r.row, RowAt(s.rows, r.row.id));
      if DownloadKey(env, r.row) != "" { Content.PurgeCoversDownloadKey(env, r.row); }
      hide DownloadKey, CacheKeys, Shape, LiveKey, SameContent;
    } else {
      hide DownloadKey, CacheKeys, Shape, LiveKey, SameContent;
    }
  }

  lemma CleanAddsNothing(env: Env, s: State, a: Action)
    requires CleanInv(env, s) && Enabled(s, a) && Clean(env, s, a)
    ensures Apply(env, s, a).leaked <= s.leaked
  {
    LeakedIs(env, s, a);
    forall k | k in Apply(env, s, a).leaked ensures k in s.leaked {
      LeakedIsHeld(env, s, a, k);
      if a.Step? { CleanStepLeavesNothing(env, s, a.id, a.choice, k); }
    }
  }

  lemma LeakedIsHeld(env: Env, s: State, a: Action, k: string)
    requires Enabled(s, a) && k in Apply(env, s, a).leaked
    ensures k in s.leaked || (k != "" && Held(Apply(env, s, a).store, k))
  {
    hide Drop, DropGen, Tampered, NextStore, NextReq, NextFlight, NextGate, Lapsed, Bumps, Bump, Download,
         DeletesRow, Lives.Written;
  }

  /** A request that is under way keeps the row it read. */
  lemma StepKeepsRead(env: Env, s: State, r: Req, id: nat, c: Choice)
    requires Shape(env, r) && Pending(NextReq(env, s, r, id, c))
    ensures NextReq(env, s, r, id, c).row == r.row && Pending(r)
  {
    NextShape(env, s, r, id, c);
    hide NextLookup, NextAdmission, NextFetch, NextPromotion, DownloadKey, CacheKeys, Shape;
  }

  lemma ExecKeepsKnown(env: Env, s: State, id: nat, c: Choice)
    requires CleanInv(env, s) && Enabled(s, Step(id, c))
    ensures var s' := Exec(env, s, id, c);
            RowsDistinct(s') && forall j :: j in s'.reqs && Pending(s'.reqs[j]) ==> Known(s', s'.reqs[j])
  {
    var r, s' := s.reqs[id], Exec(env, s, id, c);
    assert Shape(env, r);
    if Pending(s'.reqs[id]) { StepKeepsRead(env, s, r, id, c); }
    hide NextReq, NextStore, Lapsed, NextFlight, NextGate, Bumps, Bump, Shape, StillThere, SameContent, Orphan;
    forall j | j in s'.reqs && Pending(s'.reqs[j]) ensures Known(s', s'.reqs[j]) {
      assert Known(s, s.reqs[j]) && s'.reqs[j].row == s.reqs[j].row;
    }
  }

  lemma SameContentStays(read: Row, mid: Row, now: Row)
    requires SameContent(read, mid) && SameContent(mid, now)
    ensures SameContent(read, now)
  {
  }

  lemma OtherKeepsKnown(env: Env, s: State, a: Action, r: Req)
    requires CleanInv(env, s) && Enabled(s, a) && !a.Step? && Clean(env, s, a)
    requires Known(s, r) && (exists j :: j in s.reqs && s.reqs[j] == r && Pending(r))
    ensures Known(Apply(env, s, a), r)
  {
    var s' := Apply(env, s, a);
    if r.row.id in s.rows {
      RowKeepsKey(env, s, a, r.row.id);
      if r.row.id !in s.gone {
        SameContentStays(r.row, RowAt(s.rows, r.row.id), RowAt(s'.rows, r.row.id));
      }
    }
    hide Drop, DropGen, Tampered, Download, Lives.Written, StillThere, SameContent, Orphan, Shape, DownloadKey;
  }

  lemma OtherKeepsRows(env: Env, s: State, a: Action)
    requires RowsDistinct(s) && Enabled(s, a) && !a.Step?
    ensures RowsDistinct(Apply(env, s, a))
  {
    hide Drop, DropGen, Tampered, Download, Lives.Written, StillThere;
  }

  lemma StartIsKnown(env: Env, s: State, a: Action)
    requires CleanInv(env, s) && Enabled(s, a) && (a.StartDownload? || a.StartDelete?)
    requires Pending(Apply(env, s, a).reqs[a.id])
    ensures Known(Apply(env, s, a), Apply(env, s, a).reqs[a.id])
  {
    StartShape(env, s, a);
    assert Lives.WellWritten(s.rows[a.rowId].upload);
    hide Apply, Shape, Orphan;
  }

  lemma ApplyKeepsClean(env: Env, s: State, a: Action)
    requires CleanInv(env, s) && Enabled(s, a) && Clean(env, s, a)
    ensures CleanInv(env, Apply(env, s, a))
  {
    var s' := Apply(env, s, a);
    ApplyKeepsPurge(env, s, a);
    if a.Step? {
      ExecKeepsKnown(env, s, a.id, a.choice);
      hide PurgeInv, Exec, Known, RowsDistinct;
    } else {
      OtherKeepsRows(env, s, a);
      forall j | j in s'.reqs && Pending(s'.reqs[j]) ensures Known(s', s'.reqs[j]) {
        if j in s.reqs {
          assert s'.reqs[j] == s.reqs[j];
          OtherKeepsKnown(env, s, a, s.reqs[j]);
        } else {
          StartIsKnown(env, s, a);
        }
      }
      hide PurgeInv, Known, RowsDistinct, Drop, DropGen, Tampered, Download, Lives.Written, StillThere, Clean;
    }
  }

  /** A run of clean steps, among whatever evictions, purges, failures before a row
      delete, new rows and tampering, leaves nothing behind: every cached key
      serves a live row, or somebody still owes its purge, or it was left behind
      before the run began. */
  lemma {:induction false} CleanRunLeavesNothing(env: Env, s: State, acts: seq<Action>)
    requires CleanInv(env, s) && Possible(env, s, acts) && CleanRun(env, s, acts)
    ensures var s' := Run(env, s, acts);
            && CleanInv(env, s') && s'.leaked <= s.leaked
            && forall k :: Orphan(env, s', k) ==> k in s.leaked
    decreases |acts|
  {
    if acts != [] {
      ApplyKeepsClean(env, s, acts[0]);
      CleanAddsNothing(env, s, acts[0]);
      hide CleanInv, Apply, Enabled, Clean, Orphan;
      CleanRunLeavesNothing(env, Apply(env, s, acts[0]), acts[1..]);
    }
  }
}
