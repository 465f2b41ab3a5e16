/** Two whole runs, from a booted system, with nothing failing, that end with the
    content of a deleted upload in the cache and nobody to purge it. */
module HandlerReimport {
  import opened Base
  import opened CacheStore
  import opened Flights
  import opened Gates
  import opened Handlers
  import opened HandlerRuns
  import opened HandlerPurge
  import opened HandlerBoot
  import Content = HandlerContent
  import Lives = Lifecycle

  predicate AllDone(s: State) { forall id :: id in s.reqs ==> s.reqs[id].pc.Done? }

  /** A booted system with an empty cache and one private upload. */
  function OneUpload(u: Lives.Upload): State {
    State(map[0 := Record(0, u)], {}, {0}, EmptyStore(), NoFlight(), GateState(0, 0), 1, 1, map[], [], map[], {}, {})
  }

  lemma OneUploadBoots(env: Env, u: Lives.Upload)
    requires AsWritten(u)
    ensures Booted(env, OneUpload(u))
  {
    hide AsWritten, LiveKey, Content.Exact;
  }

  function Finished(dm: string): Lives.Upload { Lives.Upload(false, Lives.Completed, false, Some(dm), None) }

  function Processing(): Lives.Upload { Lives.Upload(false, Lives.Processing, true, None, None) }

  lemma BothAreWritten(dm: string)
    ensures AsWritten(Finished(dm)) && AsWritten(Processing())
  {
    var birth, writes := Lives.Created(false), [Lives.Dequeue, Lives.Finish(dm, "", false)];
    assert writes[..1] == [Lives.Dequeue] && [Lives.Dequeue][..0] == [];
    assert Lives.Lived(birth, []) == Lives.Born(birth);
    assert Lives.Lived(birth, [Lives.Dequeue]) == Processing();
    assert Lives.Lived(birth, writes) == Finished(dm);
  }

  // ------------------------------------------------ the uuid that comes back

  lemma DeleteStarts(env: Env, s0: State, s: State, row: Row)
    requires Reachable(env, s0, s, SmoothRun) && 1 !in s.reqs && 0 in s.rows && row == RowAt(s.rows, 0)
    ensures Reachable(env, s0, At(s, s.store, s.flight, s.gate, 1, Deletion(row)), SmoothRun)
  {
    hide Reachable;
    ReachOn(env, s0, s, SmoothRun, StartDelete(1, 0, true));
    hide Exec, Drop, DropGen, Download, StillThere;
  }

  lemma DeletePurgesFirst(env: Env, s0: State, s: State, row: Row, key: string, body: Bytes)
    requires Reachable(env, s0, At(s, s.store, s.flight, s.gate, 1, Deletion(row)), SmoothRun)
    requires s.store == StagedStore(0, body) && s.leaked == {} && KeyValid(key) && CacheKeys(env, row) == [key]
    ensures Reachable(env, s0, At(s, s.store, s.flight, s.gate, 1, Deletion(row).(pc := DeleteRow)), SmoothRun)
  {
    hide Apply, Enabled, Possible, Run, Exec;
    hide NextLookup, NextFetch, NextAdmission, NextPromotion, DropGen, Promote, Touch, LiveKey, UuidThere, DownloadKey;
    assert Drop(s.store, key, false) == (s.store, true) by { DropsNothing(s.store, key); }
    hide Reachable, KeyValid, Drop, CacheKeys;
    var st, f, g, c, r := s.store, s.flight, s.gate, Smooth(0), Deletion(row);
    Move(env, s0, SmoothRun, s, st, f, g, 1, r, c, st, f, g, r.(pc := PurgeBefore(1)));
    Move(env, s0, SmoothRun, s, st, f, g, 1, r.(pc := PurgeBefore(1)), c, st, f, g, r.(pc := DeleteRow));
  }

  lemma DropsNothing(st: StoreState, key: string)
    requires KeyValid(key) && PathOf(key) !in st.disk && key !in st.entries
    ensures Drop(st, key, false) == (st, true)
  {
    assert st.disk - {PathOf(key)} == st.disk;
  }

  /** The row is gone. */
  function Without(s: State): State { s.(rows := s.rows - {0}, gone := s.gone + {0}) }

  lemma DeleteDeletes(env: Env, s0: State, s: State, row: Row, key: string)
    requires Reachable(env, s0, At(s, s.store, s.flight, s.gate, 1, Deletion(row).(pc := DeleteRow)), SmoothRun)
    requires 0 in s.rows && row == RowAt(s.rows, 0) && Lives.Deletable(s.rows[0].upload) && s.leaked == {}
    requires DownloadKey(env, row) in CacheKeys(env, row)
    ensures Reachable(env, s0, At(Without(s), s.store, s.flight, s.gate, 1, Deletion(row).(pc := PurgeAfter(0))), SmoothRun)
  {
    hide NextLookup, NextFetch, NextAdmission, NextPromotion, DropGen, Promote, Touch, LiveKey, UuidThere, DownloadKey;
    hide Reachable, CacheKeys, Drop, Held, Lives.Deletable;
    var c, r := Smooth(0), Deletion(row).(pc := DeleteRow);
    var s1 := At(s, s.store, s.flight, s.gate, 1, r);
    ReachOn(env, s0, s1, SmoothRun, Step(1, c));
    assert s.reqs[1 := r][1 := r.(pc := PurgeAfter(0))] == s.reqs[1 := r.(pc := PurgeAfter(0))];
    NothingKept(s.store);
    assert Exec(env, s1, 1, c) == At(Without(s), s.store, s.flight, s.gate, 1, r.(pc := PurgeAfter(0)));
  }

  lemma DeletePurgesAgain(env: Env, s0: State, s: State, row: Row, key: string)
    requires Reachable(env, s0, At(s, s.store, s.flight, s.gate, 1, Deletion(row).(pc := PurgeAfter(0))), SmoothRun)
    requires KeyValid(key) && CacheKeys(env, row) == [key] && s.leaked == {}
    requires PathOf(key) !in s.store.disk && key !in s.store.entries
    ensures Reachable(env, s0, At(s, s.store, s.flight, s.gate, 1, Deletion(row).(pc := Done(Deleted))), SmoothRun)
  {
    hide Apply, Enabled, Possible, Run, Exec;
    hide NextLookup, NextFetch, NextAdmission, NextPromotion, DropGen, Promote, Touch, LiveKey, UuidThere, DownloadKey;
    assert Drop(s.store, key, false) == (s.store, true) by { DropsNothing(s.store, key); }
    hide Reachable, KeyValid, Drop, CacheKeys;
    var st, f, g, c, r := s.store, s.flight, s.gate, Smooth(0), Deletion(row);
    Move(env, s0, SmoothRun, s, st, f, g, 1, r.(pc := PurgeAfter(0)), c, st, f, g, r.(pc := PurgeAfter(1)));
    Move(env, s0, SmoothRun, s, st, f, g, 1, r.(pc := PurgeAfter(1)), c, st, f, g, r.(pc := Done(Deleted)));
  }

  function Deleting(s: State, row: Row, pc: Pc): State { At(s, s.store, s.flight, s.gate, 1, Deletion(row).(pc := pc)) }

  /** The download is about to promote; the delete runs from start to end. */
  lemma DeleteRuns(env: Env, s0: State, s: State, row: Row, key: string, body: Bytes)
    requires Reachable(env, s0, s, SmoothRun) && 1 !in s.reqs && 0 in s.rows && row == RowAt(s.rows, 0)
    requires s.store == StagedStore(0, body) && s.leaked == {} && KeyValid(key)
    requires CacheKeys(env, row) == [key] && DownloadKey(env, row) == key && Lives.Deletable(s.rows[0].upload)
    ensures Reachable(env, s0, Deleting(Without(s), row, Done(Deleted)), SmoothRun)
  {
    hide Reachable, KeyValid, CacheKeys, DownloadKey, RowAt, Lives.Deletable;
    DeleteStarts(env, s0, s, row);
    assert Deletion(row).(pc := PurgeBefore(0)) == Deletion(row);
    DeletePurgesFirst(env, s0, s, row, key, body);
    DeleteDeletes(env, s0, s, row, key);
    DeletePurgesAgain(env, s0, Without(s), row, key);
  }

  /** An export from when the upload was still queued. */
  function OldExport(): Lives.Birth { Lives.Imported(false, Lives.Queued, "", "") }

  function Imported(s: State): State {
    s.(rows := s.rows[1 := Record(0, Lives.Born(OldExport()))], used := s.used + {0})
  }

  lemma ImportBringsBack(env: Env, s0: State, s: State)
    requires Reachable(env, s0, s, SmoothRun) && s.rows == map[] && s.gone == {0}
    ensures Reachable(env, s0, Imported(s), SmoothRun)
  {
    hide Reachable;
    ReachOn(env, s0, s, SmoothRun, InsertRow(1, 0, OldExport()));
    hide Exec, Drop, DropGen, Download, StillThere;
  }

  /** The import comes before the download's check, which finds the uuid. */
  lemma CheckIsFooled(env: Env, s0: State, s: State, row: Row, key: string, body: Bytes)
    requires Reachable(env, s0, s, SmoothRun) && KeyValid(key) && s.leaked == {}
    requires s == ReadyState(s, 0, row, key, body)
    requires UuidThere(s.rows, row.uuid) && !LiveKey(env, s.rows, key)
    ensures Reachable(env, s0, DoneState(s.(leaked := {key}), 0, row, key, body), SmoothRun)
  {
    hide Reachable, KeyValid, UuidThere, LiveKey, CachedStore;
    ReadyPromotes(env, s0, SmoothRun, s, 0, row, key, body);
    RecheckServes(env, s0, SmoothRun, s, 0, row, key, body);
    var s1 := s.(leaked := {key});
    assert At(s, CachedStore(key, body), FlightState(map[key := 0], {}), GateState(1, 0), 0,
              ReadyReq(row, key, body).(pc := Serve(body))).(leaked := {key})
           == At(s1, CachedStore(key, body), FlightState(map[key := 0], {}), GateState(1, 0), 0,
                 ReadyReq(row, key, body).(pc := Serve(body)));
    ServingFinishes(env, s0, SmoothRun, s1, 0, row, key, body);
  }

  lemma KeysOfPrivateRow(env: Env, dm: string)
    requires Content.SoundEnv(env) && dm != ""
    ensures var row := RowAt(OneUpload(Finished(dm)).rows, 0);
            && KeyValid(env.digest(dm)) && CacheKeys(env, row) == [env.digest(dm)]
            && DownloadKey(env, row) == env.digest(dm) && FetchId(row) == Some(dm)
  {
  }

  /** An export is taken while an upload is queued; the upload completes.  Later a
      download of it is about to promote while a delete removes the row and
      purges; then the old export is imported, and with it the uuid.  The
      download promotes and its check finds the uuid.  Nothing failed, everybody
      is done, and the deleted content is cached for no row. */
  lemma ReimportOrphans(env: Env, dm: string)
    requires Content.SoundEnv(env) && dm != ""
    ensures Booted(env, OneUpload(Finished(dm)))
    ensures exists s' :: Reachable(env, OneUpload(Finished(dm)), s', SmoothRun)
                         && AllDone(s') && Orphan(env, s', env.digest(dm))
  {
    hide Apply, Enabled, Possible, Run, Exec, Orphan;
    BothAreWritten(dm);
    OneUploadBoots(env, Finished(dm));
    var s0, key, body := OneUpload(Finished(dm)), env.digest(dm), env.fetch(dm);
    var row := RowAt(s0.rows, 0);
    KeysOfPrivateRow(env, dm);
    assert Fresh(env, s0, 0, 0, key);
    hide Booted, Content.SoundEnv, Reachable, KeyValid, CacheKeys, DownloadKey, FetchId, Fresh;
    DownloadIsReady(env, s0, SmoothRun, 0, 0, key);
    var s1 := ReadyState(s0, 0, row, key, body);
    DeleteRuns(env, s0, s1, row, key, body);
    var s2 := Deleting(Without(s1), row, Done(Deleted));
    assert s2.rows == map[] && s2.gone == {0};
    ImportBringsBack(env, s0, s2);
    ImportedState(env, s2, row, key, body);
    CheckIsFooled(env, s0, Imported(s2), row, key, body);
    EndsOrphaned(env, Imported(s2).(leaked := {key}), row, key, body);
  }

  lemma ImportedState(env: Env, s: State, row: Row, key: string, body: Bytes)
    requires s.rows == map[] && row.uuid == 0 && key != "" && 0 in s.reqs && s.reqs[0] == ReadyReq(row, key, body)
    requires s.store == StagedStore(0, body) && s.flight == FlightState(map[key := 0], {}) && s.gate == GateState(1, 0)
    ensures var s' := Imported(s);
            && s' == ReadyState(s', 0, row, key, body)
            && UuidThere(s'.rows, row.uuid) && !LiveKey(env, s'.rows, key)
  {
    var s' := Imported(s);
    assert s'.rows[1].uuid == 0;
    assert DownloadKey(env, RowAt(s'.rows, 1)) == "";
    assert s'.reqs[0 := ReadyReq(row, key, body)] == s'.reqs;
  }

  lemma EndsOrphaned(env: Env, s: State, row: Row, key: string, body: Bytes)
    requires KeyValid(key) && !LiveKey(env, s.rows, key)
    requires forall id :: id in s.reqs ==> id == 0 || s.reqs[id].pc.Done?
    ensures var s' := DoneState(s, 0, row, key, body); AllDone(s') && Orphan(env, s', key)
  {
    var s' := DoneState(s, 0, row, key, body);
    assert Held(s'.store, key);
    assert AllDone(s');
    NothingOwedWhenDone(env, s'.reqs, key);
  }

  // --------------------------------------------- the delete that read too soon

  /** What the delete reads of an upload that is still being processed. */
  function Unfinished(): Row { Row(0, 0, None, None) }

  lemma DeleteReadsTooSoon(env: Env, s: State)
    requires s == OneUpload(Processing())
    ensures Reachable(env, s, Deleting(s, Unfinished(), DeleteRow), SmoothRun)
  {
    hide NextLookup, NextFetch, NextAdmission, NextPromotion, DropGen, Promote, Touch, LiveKey, UuidThere, Drop, Reachable;
    ReachSelf(env, s, SmoothRun);
    DeleteStarts(env, s, s, Unfinished());
    assert CacheKeys(env, Unfinished()) == [];
    hide OneUpload, CacheKeys;
    Move(env, s, SmoothRun, s, s.store, s.flight, s.gate, 1, Deletion(Unfinished()), Smooth(0),
         s.store, s.flight, s.gate, Deletion(Unfinished()).(pc := DeleteRow));
  }

  function Completed(s: State, dm: string): State { s.(rows := map[0 := Record(0, Finished(dm))]) }

  lemma UploadCompletes(env: Env, s0: State, s: State, dm: string)
    requires Reachable(env, s0, s, SmoothRun) && s.rows == map[0 := Record(0, Processing())]
    ensures Reachable(env, s0, Completed(s, dm), SmoothRun)
  {
    hide Reachable;
    assert Lives.Written(Processing(), Lives.Finish(dm, "", false)) == Finished(dm);
    assert map[0 := Record(0, Processing())][0 := Record(0, Finished(dm))] == map[0 := Record(0, Finished(dm))];
    ReachOn(env, s0, s, SmoothRun, WriteRow(0, Lives.Finish(dm, "", false)));
    hide Exec, Drop, DropGen, Download, StillThere;
  }

  lemma DeleteMisses(env: Env, s0: State, s: State, key: string, body: Bytes)
    requires Reachable(env, s0, s, SmoothRun) && 1 in s.reqs && s.reqs[1] == Deletion(Unfinished()).(pc := DeleteRow)
    requires 0 in s.rows && Lives.Deletable(s.rows[0].upload) && s.leaked == {}
    requires KeyValid(key) && DownloadKey(env, RowAt(s.rows, 0)) == key && s.store == CachedStore(key, body)
    ensures Reachable(env, s0, At(Without(s).(leaked := {key}), s.store, s.flight, s.gate, 1,
                                  Deletion(Unfinished()).(pc := PurgeAfter(0))), SmoothRun)
  {
    hide NextLookup, NextFetch, NextAdmission, NextPromotion, DropGen, Promote, Touch, LiveKey, UuidThere, Drop;
    assert CacheKeys(env, Unfinished()) == [];
    CachedIsKept(key, body, {key});
    hide Reachable, CacheKeys, DownloadKey, Held, KeyValid, CachedStore, Lives.Deletable;
    var c, r := Smooth(0), Deletion(Unfinished()).(pc := DeleteRow);
    ReachOn(env, s0, s, SmoothRun, Step(1, c));
    assert s.leaked + {key} == {key};
    assert Exec(env, s, 1, c) == At(Without(s).(leaked := {key}), s.store, s.flight, s.gate, 1, r.(pc := PurgeAfter(0)));
  }

  lemma DeleteEnds(env: Env, s0: State, s: State, key: string, body: Bytes)
    requires Reachable(env, s0, At(s, s.store, s.flight, s.gate, 1, Deletion(Unfinished()).(pc := PurgeAfter(0))), SmoothRun)
    requires KeyValid(key) && s.store == CachedStore(key, body) && s.leaked == {key}
    ensures Reachable(env, s0, At(s, s.store, s.flight, s.gate, 1, Deletion(Unfinished()).(pc := Done(Deleted))), SmoothRun)
  {
    hide NextLookup, NextFetch, NextAdmission, NextPromotion, DropGen, Promote, Touch, LiveKey, UuidThere, Drop;
    assert CacheKeys(env, Unfinished()) == [];
    CachedIsKept(key, body, {key});
    hide Reachable, CacheKeys, KeyValid, CachedStore, Kept;
    Move(env, s0, SmoothRun, s, s.store, s.flight, s.gate, 1, Deletion(Unfinished()).(pc := PurgeAfter(0)), Smooth(0),
         s.store, s.flight, s.gate, Deletion(Unfinished()).(pc := Done(Deleted)));
  }

  /** A delete reads an upload that is still being processed and finds no keys; the
      upload completes and a download caches it; the delete goes on, removes the
      row and purges what it had read: nothing. */
  lemma StaleDeleteOrphans(env: Env, dm: string)
    requires Content.SoundEnv(env) && dm != ""
    ensures Booted(env, OneUpload(Processing()))
    ensures exists s' :: Reachable(env, OneUpload(Processing()), s', SmoothRun)
                         && AllDone(s') && Orphan(env, s', env.digest(dm))
  {
    hide Apply, Enabled, Possible, Run, Exec, Orphan;
    BothAreWritten(dm);
    OneUploadBoots(env, Processing());
    var s0, key, body := OneUpload(Processing()), env.digest(dm), env.fetch(dm);
    KeysOfPrivateRow(env, dm);
    hide Booted, Content.SoundEnv, Reachable, KeyValid, CacheKeys, DownloadKey, FetchId;
    DeleteReadsTooSoon(env, s0);
    var s1 := Deleting(s0, Unfinished(), DeleteRow);
    UploadCompletes(env, s0, s1, dm);
    var s2 := Completed(s1, dm);
    var row := RowAt(s2.rows, 0);
    assert row == RowAt(OneUpload(Finished(dm)).rows, 0);
    DownloadInBetween(env, s0, s2, row, key, body);
    var s3 := DoneState(s2, 0, row, key, body);
    assert s3.reqs[1] == Deletion(Unfinished()).(pc := DeleteRow);
    DeleteMisses(env, s0, s3, key, body);
    var s4 := Without(s3).(leaked := {key});
    DeleteEnds(env, s0, s4, key, body);
    EndsWithoutRow(env, s4, key, body);
  }

  lemma DownloadInBetween(env: Env, s0: State, s: State, row: Row, key: string, body: Bytes)
    requires Reachable(env, s0, s, SmoothRun) && Fresh(env, s, 0, 0, key) && row == RowAt(s.rows, 0)
    requires body == Body(env, row)
    ensures Reachable(env, s0, DoneState(s, 0, row, key, body), SmoothRun)
  {
    assert LiveKey(env, s.rows, key) && s.rows[0].uuid == row.uuid;
    assert UuidThere(s.rows, row.uuid);
    hide Reachable, LiveKey, UuidThere, KeyValid, DownloadKey;
    DownloadIsReady(env, s, SmoothRun, 0, 0, key);
    ReachThrough(env, s0, s, ReadyState(s, 0, row, key, body), SmoothRun);
    ReadyFinishes(env, s0, SmoothRun, s, 0, row, key, body);
  }

  lemma EndsWithoutRow(env: Env, s: State, key: string, body: Bytes)
    requires KeyValid(key) && s.rows == map[] && s.store == CachedStore(key, body)
    requires forall id :: id in s.reqs ==> id == 1 || s.reqs[id].pc.Done?
    ensures var s' := At(s, s.store, s.flight, s.gate, 1, Deletion(Unfinished()).(pc := Done(Deleted)));
            AllDone(s') && Orphan(env, s', key)
  {
    var s' := At(s, s.store, s.flight, s.gate, 1, Deletion(Unfinished()).(pc := Done(Deleted)));
    assert Held(s'.store, key);
    assert AllDone(s');
    NothingOwedWhenDone(env, s'.reqs, key);
  }
}
