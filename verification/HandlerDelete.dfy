/** Deletes are honest: a row goes only after every key of it was purged, a failed
    purge before that stops the delete for good, and the answer says which. */
module HandlerDelete {
  import opened Base
  import opened CacheStore
  import opened Flights
  import opened Gates
  import opened Handlers
  import opened HandlerShape
  import opened HandlerStore
  import opened HandlerPurge
  import opened HandlerServe
  import Laws = StoreLaws
  import Lives = Lifecycle

  /** The keys of a delete are exactly the digests of the row's identifiers, each
      once, the serve key first. */
  lemma CacheKeysIff(env: Env, row: Row, key: string)
    ensures key in CacheKeys(env, row) <==>
            || (Usable(row.dataMap) && key == env.digest(row.dataMap.value))
            || (Usable(row.address) && key == env.digest(row.address.value))
    ensures var keys := CacheKeys(env, row);
            && |keys| <= 2 && (|keys| == 2 ==> keys[0] != keys[1])
            && (keys != [] ==> keys[0] == DownloadKey(env, row))
  {
    var keys := CacheKeys(env, row);
    if Usable(row.dataMap) { assert keys[0] == env.digest(row.dataMap.value); }
    if Usable(row.address) { assert keys[|keys| - 1] == env.digest(row.address.value); }
  }

  /** The key a step of request `id` purges with success. */
  function Cleared(env: Env, s: State, a: Action, id: nat): set<string> {
    if a.Step? && a.id == id && id in s.reqs && PurgedKey(env, s.reqs[id]).Some?
       && Drop(s.store, PurgedKey(env, s.reqs[id]).value, a.choice.fails).1
    then {PurgedKey(env, s.reqs[id]).value}
    else {}
  }

  /** Such a step leaves neither file nor entry of the key. */
  lemma ClearedIsGone(env: Env, s: State, a: Action, id: nat, key: string)
    requires Enabled(s, a) && key in Cleared(env, s, a, id)
    ensures !Held(Apply(env, s, a).store, key)
  {
    NextHeld(env, s.store, s.reqs[id], id, a.choice, key);
    hide NextStore, Drop, Held, PurgedKey, NextReq, Lapsed, NextFlight, NextGate, Bumps, DeletesRow, StillThere;
  }

  /** The keys request `id` purged with success in the run. */
  function ClearedBy(env: Env, s: State, acts: seq<Action>, id: nat): set<string>
    requires Possible(env, s, acts)
    decreases |acts|
  {
    if acts == [] then {}
    else Cleared(env, s, acts[0], id) + ClearedBy(env, Apply(env, s, acts[0]), acts[1..], id)
  }

  /** Request `id` removed its row in the run. */
  predicate Removes(env: Env, s: State, a: Action, id: nat)
    requires Enabled(s, a)
  {
    a.Step? && a.id == id && s.reqs[id].row.id in s.rows && s.reqs[id].row.id !in Apply(env, s, a).rows
  }

  predicate RemovedBy(env: Env, s: State, acts: seq<Action>, id: nat)
    requires Possible(env, s, acts)
    decreases |acts|
  {
    acts != [] && (Removes(env, s, acts[0], id) || RemovedBy(env, Apply(env, s, acts[0]), acts[1..], id))
  }

  /** Where a delete stands that has purged these keys so far. */
  predicate Stands(env: Env, r: Req, row: Row, cleared: set<string>, removed: bool) {
    var keys := CacheKeys(env, row);
    && r.row == row
    && match r.pc
       case PurgeBefore(i) => !removed && i <= |keys| && forall j :: 0 <= j < i ==> keys[j] in cleared
       case DeleteRow => !removed && forall k :: k in keys ==> k in cleared
       case PurgeAfter(i) => removed && forall k :: k in keys ==> k in cleared
       case Done(o) => if removed then o == Handlers.Outcome.Deleted && forall k :: k in keys ==> k in cleared
                       else o.Refused?
       case _ => false
  }

  lemma StepStands(env: Env, s: State, id: nat, c: Choice, row: Row, cleared: set<string>, removed: bool)
    requires Enabled(s, Step(id, c)) && Stands(env, s.reqs[id], row, cleared, removed)
    ensures var a := Step(id, c);
            Stands(env, Apply(env, s, a).reqs[id], row, cleared + Cleared(env, s, a, id), removed || Removes(env, s, a, id))
  {
    OwnStep(env, s, id, c);
    RowsAfter(env, s, id, c);
    hide CacheKeys, Drop, NextLookup, NextFetch, NextAdmission, NextPromotion, Exec, Lives.Deletable;
    assert IsDelete(s.reqs[id].pc);
  }

  lemma RowsAfter(env: Env, s: State, id: nat, c: Choice)
    requires Enabled(s, Step(id, c))
    ensures Apply(env, s, Step(id, c)).rows == if DeletesRow(s, s.reqs[id], c) then s.rows - {s.reqs[id].row.id} else s.rows
  {
    hide NextReq, NextStore, Lapsed, NextFlight, NextGate, Bumps, DeletesRow, StillThere;
  }

  lemma {:induction false} RunStands(env: Env, s: State, acts: seq<Action>, id: nat, row: Row, cleared: set<string>,
                                     removed: bool)
    requires Possible(env, s, acts) && id in s.reqs && Stands(env, s.reqs[id], row, cleared, removed)
    ensures id in Run(env, s, acts).reqs
    ensures Stands(env, Run(env, s, acts).reqs[id], row, cleared + ClearedBy(env, s, acts, id),
                   removed || RemovedBy(env, s, acts, id))
    decreases |acts|
  {
    if acts == [] {
      assert cleared + {} == cleared;
    } else {
      var a := acts[0];
      var s1 := Apply(env, s, a);
      if a.Step? && a.id == id {
        OwnStep(env, s, id, a.choice);
        StepStands(env, s, id, a.choice, row, cleared, removed);
      } else {
        OthersKeepReq(env, s, a, id);
        assert cleared + {} == cleared;
      }
      hide Apply, Enabled, Stands, Cleared, Removes;
      var now := cleared + Cleared(env, s, a, id);
      RunStands(env, s1, acts[1..], id, row, now, removed || Removes(env, s, a, id));
      assert now + ClearedBy(env, s1, acts[1..], id) == cleared + ClearedBy(env, s, acts, id);
    }
  }

  /** Over any run from the start of a delete: if it removes its row, it has purged
      every key of the row as it read it; when it is done, it answers "deleted" if
      and only if it removed the row, and otherwise refuses. */
  lemma DeleteIsHonest(env: Env, s: State, acts: seq<Action>, id: nat, row: Row)
    requires Possible(env, s, acts) && id in s.reqs && s.reqs[id] == Deletion(row)
    ensures id in Run(env, s, acts).reqs
    ensures var r := Run(env, s, acts).reqs[id];
            && (RemovedBy(env, s, acts, id) ==>
                  forall k :: k in CacheKeys(env, row) ==> k in ClearedBy(env, s, acts, id))
            && (r.pc.Done? ==> (r.pc.outcome.Deleted? <==> RemovedBy(env, s, acts, id))
                               && (!r.pc.outcome.Deleted? ==> r.pc.outcome.Refused?))
  {
    RunStands(env, s, acts, id, row, {}, false);
    assert {} + ClearedBy(env, s, acts, id) == ClearedBy(env, s, acts, id);
    hide Run, Possible, RemovedBy, ClearedBy, CacheKeys;
  }

  /** The removing step itself comes after all of them. */
  lemma RowGoesLast(env: Env, s: State, acts: seq<Action>, id: nat, row: Row, c: Choice)
    requires Possible(env, s, acts) && id in s.reqs && s.reqs[id] == Deletion(row)
    requires Enabled(Run(env, s, acts), Step(id, c)) && Removes(env, Run(env, s, acts), Step(id, c), id)
    ensures forall k :: k in CacheKeys(env, row) ==> k in ClearedBy(env, s, acts, id)
  {
    RunStands(env, s, acts, id, row, {}, false);
    assert {} + ClearedBy(env, s, acts, id) == ClearedBy(env, s, acts, id);
    RowsAfter(env, Run(env, s, acts), id, c);
    hide Run, Possible, RemovedBy, ClearedBy, CacheKeys, Apply;
  }

  /** No step of the request is possible any more. */
  lemma {:induction false} DoneStays(env: Env, s: State, acts: seq<Action>, id: nat)
    requires Possible(env, s, acts) && id in s.reqs && s.reqs[id].pc.Done?
    ensures id in Run(env, s, acts).reqs && Run(env, s, acts).reqs[id] == s.reqs[id]
    ensures forall i :: 0 <= i < |acts| && acts[i].Step? ==> acts[i].id != id
    decreases |acts|
  {
    if acts != [] {
      var a := acts[0];
      assert a.Step? ==> a.id != id;
      OthersKeepReq(env, s, a, id);
      hide Apply, Enabled;
      DoneStays(env, Apply(env, s, a), acts[1..], id);
      forall i | 0 <= i < |acts| && acts[i].Step? ensures acts[i].id != id {
        assert i > 0 ==> acts[1..][i - 1] == acts[i];
      }
    }
  }

  /** A purge that fails before the row delete ends the request: it answers 500 with
      the row in place, and never does anything again. */
  lemma FailedPurgeStopsDelete(env: Env, s: State, id: nat, c: Choice, acts: seq<Action>)
    requires Enabled(s, Step(id, c)) && s.reqs[id].pc.PurgeBefore? && PurgedKey(env, s.reqs[id]).Some?
    requires Held(s.store, PurgedKey(env, s.reqs[id]).value) && c.fails
    requires Possible(env, Apply(env, s, Step(id, c)), acts)
    ensures var s1 := Apply(env, s, Step(id, c)); var s2 := Run(env, s1, acts);
            && s1.rows == s.rows
            && Held(s1.store, PurgedKey(env, s.reqs[id]).value)
            && id in s2.reqs && s2.reqs[id].pc == Done(Refused(500))
            && forall i :: 0 <= i < |acts| && acts[i].Step? ==> acts[i].id != id
  {
    var s1 := Apply(env, s, Step(id, c));
    OwnStep(env, s, id, c);
    RowsAfter(env, s, id, c);
    FailedPurgeStep(env, s, id, c);
    hide Apply, Enabled, Run, Possible, Held, PurgedKey, NextReq;
    DoneStays(env, s1, acts, id);
  }

  lemma FailedPurgeStep(env: Env, s: State, id: nat, c: Choice)
    requires Enabled(s, Step(id, c)) && s.reqs[id].pc.PurgeBefore? && PurgedKey(env, s.reqs[id]).Some?
    requires Held(s.store, PurgedKey(env, s.reqs[id]).value) && c.fails
    ensures NextReq(env, s, s.reqs[id], id, c).pc == Done(Refused(500))
    ensures Apply(env, s, Step(id, c)).store == s.store
    ensures !DeletesRow(s, s.reqs[id], c)
  {
    var k := PurgedKey(env, s.reqs[id]).value;
    assert Drop(s.store, k, true) == (s.store, false);
    hide CacheKeys, Drop, NextLookup, NextFetch, NextAdmission, NextPromotion, Lapsed, NextFlight, NextGate, Bumps, StillThere;
  }

  /** Rows go only by the row delete of a request, and only when completed, already
      stored or failed. */
  lemma OnlyFinishedRowsGo(env: Env, s: State, a: Action, rowId: nat)
    requires Enabled(s, a) && rowId in s.rows && rowId !in Apply(env, s, a).rows
    ensures a.Step? && s.reqs[a.id].pc.DeleteRow? && s.reqs[a.id].row.id == rowId
    ensures s.rows[rowId].upload.status in {Lives.Completed, Lives.AlreadyStored, Lives.Failed}
  {
    if a.Step? { RowsAfter(env, s, a.id, a.choice); hide Exec; }
    hide Drop, DropGen, Tampered, Lives.Written, StillThere, Download;
  }

  /** And a delete that meets no failure, of a row that may be deleted, removes it. */
  lemma DeletableRowGoes(env: Env, s: State, id: nat, c: Choice)
    requires Enabled(s, Step(id, c)) && s.reqs[id].pc.DeleteRow? && !c.fails && s.reqs[id].row.id in s.rows
    requires s.rows[s.reqs[id].row.id].upload.status in {Lives.Completed, Lives.AlreadyStored, Lives.Failed}
    ensures Removes(env, s, Step(id, c), id)
  {
    RowsAfter(env, s, id, c);
    hide Apply;
  }
}
