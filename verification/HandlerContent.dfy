/** Cache transparency: whatever is cached, fetched or served, under any
    interleaving, is the content of the row it is served for. */
module HandlerContent {
  import opened Base
  import opened CacheStore
  import opened Flights
  import opened Gates
  import opened Counters
  import opened Handlers
  import opened HandlerShape
  import opened HandlerGate
  import opened HandlerStaging
  import Lives = Lifecycle
  import Laws = StoreLaws

  // ------------------------------------------------------------- assumptions

  /** Digests are usable as keys, and identifiers that share one name the same
      bytes. */
  ghost predicate SoundEnv(env: Env) {
    && (forall a {:trigger env.digest(a)} :: a != "" ==> KeyValid(env.digest(a)))
    && (forall a, b {:trigger env.digest(a), env.digest(b)} ::
          a != "" && b != "" && env.digest(a) == env.digest(b) ==> env.fetch(a) == env.fetch(b))
  }

  /** A row is fetched by the identifier its cache key is derived from. */
  predicate Consistent(row: Row) { ContentId(row) != "" ==> FetchId(row) == Some(ContentId(row)) }

  /** The only rows the code treats inconsistently are those with an address and
      a data map that is present but empty. */
  lemma ConsistentIff(row: Row)
    ensures Consistent(row) <==> !(row.dataMap == Some("") && Usable(row.address))
  {
  }

  /** Whatever wrote a row, it is consistent: no upload, import, retry or
      publication leaves an empty data map beside an address. */
  lemma WrittenIsConsistent(id: nat, uuid: nat, birth: Lives.Birth, writes: seq<Lives.Write>)
    ensures Consistent(RowOf(id, Record(uuid, Lives.Lived(birth, writes))))
  {
    Lives.LivesWellWritten(birth, writes);
  }

  lemma WellWrittenIsConsistent(id: nat, rec: Record)
    requires Lives.WellWritten(rec.upload)
    ensures Consistent(RowOf(id, rec))
  {
  }

  /** Giving a row with a data map a published address changes neither what is
      fetched for it nor the key it is cached under, and a delete that read the
      row before still purges that key. */
  lemma PublishingKeepsKeys(env: Env, row: Row, address: string)
    requires Usable(row.dataMap)
    ensures var row' := row.(address := Some(address));
            && DownloadKey(env, row') == DownloadKey(env, row) && FetchId(row') == FetchId(row)
            && Consistent(row) && Consistent(row')
            && (DownloadKey(env, row) != "" ==> DownloadKey(env, row') in CacheKeys(env, row))
            && (forall k :: k in CacheKeys(env, row') ==>
                  k == DownloadKey(env, row) || k == KeyForIdentifier(env, address))
  {
    if DownloadKey(env, row) != "" { PurgeCoversDownloadKey(env, row); }
  }

  /** The serve key is among the keys a delete purges, whichever identifiers the
      row has. */
  lemma PurgeCoversDownloadKey(env: Env, row: Row)
    requires DownloadKey(env, row) != ""
    ensures DownloadKey(env, row) in CacheKeys(env, row)
  {
    assert CacheKeys(env, row)[0] == DownloadKey(env, row);
  }

  // --------------------------------------------------------------- invariants

  /** The bytes are the key's content. */
  ghost predicate Exact(env: Env, key: string, data: Bytes) {
    forall a {:trigger env.digest(a)} :: a != "" && env.digest(a) == key ==> data == env.fetch(a)
  }

  /** The bytes are the key's content, or not of its size. */
  ghost predicate Good(env: Env, key: string, data: Bytes) {
    forall a {:trigger env.digest(a)} ::
      a != "" && env.digest(a) == key && |data| == |env.fetch(a)| ==> data == env.fetch(a)
  }

  /** The size is that of the key's content. */
  ghost predicate GoodSize(env: Env, key: string, size: nat) {
    forall a {:trigger env.digest(a)} :: a != "" && env.digest(a) == key ==> size == |env.fetch(a)|
  }

  /** The bytes of the row's content, as the network holds them. */
  predicate Right(env: Env, row: Row, body: Bytes) {
    FetchId(row).Some? && body == env.fetch(FetchId(row).value)
  }

  predicate RightSize(env: Env, row: Row, size: nat) {
    FetchId(row).Some? && size == |env.fetch(FetchId(row).value)|
  }

  /** Every cached file of its content's size has its key's content; others, and
      strays, may hold anything. */
  ghost predicate DiskOk(env: Env, disk: map<Path, File>) {
    forall p :: p in disk && Laws.Canonical(p, disk[p]) ==> Good(env, Name(p), disk[p].data)
  }

  /** The index records the size of each key's content. */
  ghost predicate EntriesOk(env: Env, entries: map<string, Entry>) {
    forall k :: k in entries ==> GoodSize(env, k, entries[k].size)
  }

  predicate Staged(tmp: map<nat, File>, id: nat, fd: Bytes) { id in tmp && tmp[id] == Regular(fd) }

  /** Every descriptor and every staged file a request relies on holds its row's
      content, and every size it compares with is that content's. */
  predicate BodyOk(env: Env, tmp: map<nat, File>, id: nat, r: Req) {
    match r.pc
    case Lstat(_, size, _) => RightSize(env, r.row, size)
    case OpenFile(_, size, _) => RightSize(env, r.row, size)
    case Fstat(_, size, _, file) =>
      RightSize(env, r.row, size) && (file.Regular? && |file.data| == size ==> Right(env, r.row, file.data))
    case TouchEntry(_, fd) => Right(env, r.row, fd)
    case ReleaseForHit(fd) => Right(env, r.row, fd)
    case OpenTemp => id in tmp && tmp[id].Regular? && Right(env, r.row, tmp[id].data)
    case Decide(fd) => Right(env, r.row, fd) && Staged(tmp, id, fd)
    case PromoteTemp(fd, _) => Right(env, r.row, fd) && Staged(tmp, id, fd)
    case Recheck(fd) => Right(env, r.row, fd)
    case PurgeOwn(fd) => Right(env, r.row, fd)
    case Serve(body) => Right(env, r.row, body)
    case RemoveTemp(o) => o.Served? ==> Right(env, r.row, o.body)
    case ReleaseSlot(o) => o.Served? ==> Right(env, r.row, o.body)
    case EndFlight(o) => o.Served? ==> Right(env, r.row, o.body)
    case Done(o) => o.Served? ==> Right(env, r.row, o.body)
    case _ => true
  }

  predicate ReqOk(env: Env, tmp: map<nat, File>, id: nat, r: Req) {
    Shape(env, r) && Consistent(r.row) && BodyOk(env, tmp, id, r)
  }

  ghost predicate ContentInv(env: Env, s: State) {
    && DiskOk(env, s.store.disk) && EntriesOk(env, s.store.entries)
    && (forall i :: i in s.rows ==> Lives.WellWritten(s.rows[i].upload))
    && (forall id :: id in s.reqs ==> ReqOk(env, s.store.tmp, id, s.reqs[id]))
  }

  // ------------------------------------------------------------- preservation

  lemma GoodIsRight(env: Env, r: Req, disk: map<Path, File>, size: nat)
    requires DiskOk(env, disk) && Shape(env, r) && Consistent(r.row) && r.cacheKey != ""
    requires RightSize(env, r.row, size)
    requires FileAt(disk, r.cacheKey).Some?
    ensures var f := FileAt(disk, r.cacheKey).value;
            f.Regular? && |f.data| == size ==> Right(env, r.row, f.data)
  {
    var p := PathOf(r.cacheKey);
    assert Name(p) == r.cacheKey;
    assert disk[p].Regular? ==> Laws.Canonical(p, disk[p]) && Good(env, Name(p), disk[p].data);
    assert env.digest(ContentId(r.row)) == r.cacheKey;
  }

  lemma RightIsGood(env: Env, r: Req, data: Bytes)
    requires SoundEnv(env) && Shape(env, r) && Consistent(r.row) && r.cacheKey != "" && Right(env, r.row, data)
    ensures KeyValid(r.cacheKey) && Good(env, r.cacheKey, data) && GoodSize(env, r.cacheKey, |data|)
  {
    assert env.digest(ContentId(r.row)) == r.cacheKey;
  }

  lemma EntryIsRight(env: Env, r: Req, entries: map<string, Entry>)
    requires EntriesOk(env, entries) && Shape(env, r) && Consistent(r.row) && r.cacheKey != ""
    ensures r.cacheKey in entries ==> RightSize(env, r.row, entries[r.cacheKey].size)
  {
    assert env.digest(ContentId(r.row)) == r.cacheKey;
  }

  lemma LookupBodies(env: Env, s: State, r: Req, id: nat, c: Choice)
    requires InLookup(r.pc) && DiskOk(env, s.store.disk) && EntriesOk(env, s.store.entries)
    requires ReqOk(env, s.store.tmp, id, r)
    ensures var r' := NextLookup(s.store, r, c); BodyOk(env, s.store.tmp, id, r')
  {
    assert r.cacheKey != "";
    EntryIsRight(env, r, s.store.entries);
    if r.pc.OpenFile? && FileAt(s.store.disk, r.cacheKey).Some? {
      GoodIsRight(env, r, s.store.disk, r.pc.size);
    }
    hide FileAt, DiskOk, EntriesOk, Shape, Right, RightSize;
  }

  lemma FetchingStages(env: Env, store: StoreState, r: Req, id: nat, c: Choice)
    requires InFetch(r.pc)
    ensures r.pc.Fetching? && FetchId(r.row).Some? ==>
              NextStore(env, store, r, id, c).tmp ==
              store.tmp[id := Regular(if c.fails then "" else env.fetch(FetchId(r.row).value))]
    ensures !r.pc.Fetching? ==> NextStore(env, store, r, id, c) == store
  {
    hide FetchId, Drop, DropGen, Promote, Touch, CacheKeys;
  }

  lemma FetchBodies(env: Env, s: State, r: Req, id: nat, c: Choice)
    requires InFetch(r.pc) && BodyOk(env, s.store.tmp, id, r)
    ensures BodyOk(env, NextStore(env, s.store, r, id, c).tmp, id, NextFetch(s.store.tmp, s.counts, r, id, c))
  {
    FetchingStages(env, s.store, r, id, c);
    hide Bump, NextStore, FetchId, RightSize;
  }

  lemma PromotionBodies(env: Env, s: State, r: Req, id: nat, c: Choice, tmp: map<nat, File>)
    requires InPromotion(r.pc) && BodyOk(env, s.store.tmp, id, r)
    ensures BodyOk(env, tmp, id, NextPromotion(s, r, id, c))
  {
    hide Promote, Right;
  }

  lemma AdmissionBodies(env: Env, s: State, r: Req, id: nat, c: Choice, tmp: map<nat, File>)
    requires InAdmission(r.pc)
    ensures BodyOk(env, tmp, id, NextAdmission(s.gate, s.limit, r, c.wake))
  {
  }

  lemma DeleteBodies(env: Env, s: State, r: Req, id: nat, c: Choice, tmp: map<nat, File>)
    requires IsDelete(r.pc)
    ensures BodyOk(env, tmp, id, NextDelete(env, s, r, c))
  {
    hide Drop, CacheKeys;
  }

  lemma NextBodies(env: Env, s: State, r: Req, id: nat, c: Choice)
    requires DiskOk(env, s.store.disk) && EntriesOk(env, s.store.entries) && ReqOk(env, s.store.tmp, id, r)
    ensures BodyOk(env, NextStore(env, s.store, r, id, c).tmp, id, NextReq(env, s, r, id, c))
  {
    hide NextLookup, NextAdmission, NextFetch, NextPromotion, NextDelete, NextStore, DiskOk, EntriesOk, Right, RightSize;
    var tmp := NextStore(env, s.store, r, id, c).tmp;
    TmpView(env, s.store, r, id, c);
    if InLookup(r.pc) { LookupBodies(env, s, r, id, c); hide BodyOk; }
    else if InAdmission(r.pc) { AdmissionBodies(env, s, r, id, c, tmp); hide BodyOk; }
    else if InFetch(r.pc) { FetchBodies(env, s, r, id, c); hide BodyOk; }
    else if InPromotion(r.pc) { PromotionBodies(env, s, r, id, c, tmp); hide BodyOk; }
    else if IsDelete(r.pc) { DeleteBodies(env, s, r, id, c, tmp); hide BodyOk; }
    else { hide Shape; }
  }

  lemma UnlinkDiskOk(env: Env, disk: map<Path, File>, key: string, fails: bool)
    requires DiskOk(env, disk)
    ensures DiskOk(env, Unlink(disk, key, fails).0)
  {
    hide Good, Laws.Canonical, KeyValid;
  }

  lemma DropDiskOk(env: Env, st: StoreState, key: string, gen: nat, fails: bool)
    requires DiskOk(env, st.disk)
    ensures DiskOk(env, Drop(st, key, fails).0.disk)
    ensures DiskOk(env, DropGen(st, key, gen, fails).0.disk)
  {
    UnlinkDiskOk(env, st.disk, key, fails);
    hide Unlink, DiskOk;
  }

  lemma PromoteDiskOk(env: Env, st: StoreState, key: string, src: nat, budget: int, now: int, moveFails: bool)
    requires DiskOk(env, st.disk)
    requires src in st.tmp && st.tmp[src].Regular? && KeyValid(key) && Good(env, key, st.tmp[src].data)
    ensures DiskOk(env, Promote(st, key, src, budget, now, moveFails).0.disk)
  {
    assert Name(PathOf(key)) == key;
    hide Good, KeyValid;
  }

  lemma DropEntriesOk(env: Env, st: StoreState, key: string, gen: nat, fails: bool)
    requires EntriesOk(env, st.entries)
    ensures EntriesOk(env, Drop(st, key, fails).0.entries)
    ensures EntriesOk(env, DropGen(st, key, gen, fails).0.entries)
  {
    hide GoodSize, Unlink;
  }

  lemma PromoteEntriesOk(env: Env, st: StoreState, key: string, src: nat, budget: int, now: int, moveFails: bool)
    requires EntriesOk(env, st.entries)
    requires src in st.tmp && st.tmp[src].Regular? && GoodSize(env, key, |st.tmp[src].data|)
    ensures EntriesOk(env, Promote(st, key, src, budget, now, moveFails).0.entries)
  {
    hide GoodSize, KeyValid;
  }

  lemma TouchEntriesOk(env: Env, st: StoreState, key: string, now: int)
    requires EntriesOk(env, st.entries)
    ensures EntriesOk(env, Touch(st, key, now).entries) && Touch(st, key, now).disk == st.disk
  {
    hide GoodSize;
  }

  lemma TamperContentOk(env: Env, st: StoreState, key: string, file: Option<File>)
    requires DiskOk(env, st.disk) && EntriesOk(env, st.entries)
    ensures DiskOk(env, Tampered(st, key, file).disk) && Tampered(st, key, file).entries == st.entries
  {
    assert KeyValid(key) ==> Name(PathOf(key)) == key;
    if file.Some? && file.value.Regular? && KeyValid(key) && key in st.entries {
      assert GoodSize(env, key, st.entries[key].size);
      assert |file.value.data| != st.entries[key].size ==> Good(env, key, file.value.data);
    }
    hide Good, GoodSize, KeyValid;
  }

  lemma NextDiskOk(env: Env, s: State, r: Req, id: nat, c: Choice)
    requires SoundEnv(env) && ReqOk(env, s.store.tmp, id, r)
    requires DiskOk(env, s.store.disk) && EntriesOk(env, s.store.entries)
    ensures DiskOk(env, NextStore(env, s.store, r, id, c).disk)
    ensures EntriesOk(env, NextStore(env, s.store, r, id, c).entries)
  {
    hide DiskOk, EntriesOk, Drop, DropGen, Promote, Touch, CacheKeys, KeyValid;
    var purged := PurgedKey(env, r);
    if purged.Some? {
      DropDiskOk(env, s.store, purged.value, 0, c.fails);
      DropEntriesOk(env, s.store, purged.value, 0, c.fails);
      hide Shape, Right;
    } else if r.pc.Heal? {
      DropDiskOk(env, s.store, r.cacheKey, r.pc.gen, c.fails);
      DropEntriesOk(env, s.store, r.cacheKey, r.pc.gen, c.fails);
      hide Shape, Right;
    } else if r.pc.PromoteTemp? {
      RightIsGood(env, r, r.pc.fd);
      PromoteDiskOk(env, s.store, r.cacheKey, id, c.budget, c.now, c.fails);
      PromoteEntriesOk(env, s.store, r.cacheKey, id, c.budget, c.now, c.fails);
      hide Shape, Right;
    } else {
      TouchEntriesOk(env, s.store, r.cacheKey, c.now);
      hide Shape, Right;
    }
  }

  lemma ExecKeepsContent(env: Env, s: State, id: nat, c: Choice)
    requires SoundEnv(env) && ContentInv(env, s) && id in s.reqs
    ensures ContentInv(env, Exec(env, s, id, c))
  {
    hide NextReq, NextStore, NextGate, NextFlight, Lapsed, Bumps, Bump, DiskOk, EntriesOk, Consistent, SoundEnv, StillThere;
    var r := s.reqs[id];
    assert ReqOk(env, s.store.tmp, id, r);
    NextDiskOk(env, s, r, id, c);
    NextBodies(env, s, r, id, c);
    NextShape(env, s, r, id, c);
    TmpView(env, s.store, r, id, c);
    var s' := Exec(env, s, id, c);
    forall j | j in s'.reqs ensures ReqOk(env, s'.store.tmp, j, s'.reqs[j]) {
      if j != id {
        assert ReqOk(env, s.store.tmp, j, s.reqs[j]);
        SameTmp(env, s.store.tmp, s'.store.tmp, j, s.reqs[j]);
      }
    }
    hide Shape, BodyOk, ReqOk;
  }

  lemma SameTmp(env: Env, tmp: map<nat, File>, tmp': map<nat, File>, id: nat, r: Req)
    requires ReqOk(env, tmp, id, r)
    requires (id in tmp' <==> id in tmp) && (id in tmp ==> tmp'[id] == tmp[id])
    ensures ReqOk(env, tmp', id, r)
  {
    hide Shape, Consistent, Right, RightSize;
  }

  lemma StartKeepsContent(env: Env, s: State, a: Action)
    requires ContentInv(env, s) && (a.StartDownload? || a.StartDelete?) && Enabled(s, a)
    ensures ContentInv(env, Apply(env, s, a))
  {
    StartShape(env, s, a);
    var s' := Apply(env, s, a);
    var r := s'.reqs[a.id];
    if a.rowId in s.rows { WellWrittenIsConsistent(a.rowId, s.rows[a.rowId]); }
    assert Consistent(r.row) by { StartRow(env, s, a); }
    hide DiskOk, EntriesOk, Consistent, Shape, Apply, Lives.WellWritten, RowAt;
    assert ReqOk(env, s'.store.tmp, a.id, r);
    hide ReqOk;
  }

  lemma StartRow(env: Env, s: State, a: Action)
    requires (a.StartDownload? || a.StartDelete?) && Enabled(s, a)
    ensures var r := Apply(env, s, a).reqs[a.id];
            r.row == NoRow(a.rowId) || (a.rowId in s.rows && r.row == RowAt(s.rows, a.rowId))
  {
    hide DownloadKey;
  }

  lemma StoreKeepsContent(env: Env, s: State, st: StoreState, leaked: set<string>)
    requires ContentInv(env, s) && DiskOk(env, st.disk) && EntriesOk(env, st.entries) && st.tmp == s.store.tmp
    ensures ContentInv(env, s.(store := st, leaked := leaked))
  {
    hide DiskOk, EntriesOk, ReqOk, Lives.WellWritten;
  }

  lemma RowsKeepContent(env: Env, s: State, s': State)
    requires ContentInv(env, s) && s'.store == s.store && s'.reqs == s.reqs
    requires forall i :: i in s'.rows ==> Lives.WellWritten(s'.rows[i].upload)
    ensures ContentInv(env, s')
  {
    hide DiskOk, EntriesOk, ReqOk, Lives.WellWritten;
  }

  lemma ApplyKeepsContent(env: Env, s: State, a: Action)
    requires SoundEnv(env) && ContentInv(env, s) && Enabled(s, a)
    ensures ContentInv(env, Apply(env, s, a))
  {
    hide DiskOk, EntriesOk, Exec, ReqOk, Drop, DropGen, Tampered, StillThere, Lives.WellWritten, SoundEnv, Download;
    var s' := Apply(env, s, a);
    match a
    case Step(id, c) =>
      ExecKeepsContent(env, s, id, c);
    case StartDownload(_, _, _, _) =>
      StartKeepsContent(env, s, a);
    case StartDelete(_, _, _) =>
      StartKeepsContent(env, s, a);
    case Evict(key, gen, fails) =>
      DropDiskOk(env, s.store, key, gen, fails);
      DropEntriesOk(env, s.store, key, gen, fails);
      DropTmp(s.store, key, gen, fails);
      StoreKeepsContent(env, s, s'.store, s'.leaked);
    case PurgeKey(key, fails) =>
      DropDiskOk(env, s.store, key, 0, fails);
      DropEntriesOk(env, s.store, key, 0, fails);
      DropTmp(s.store, key, 0, fails);
      StoreKeepsContent(env, s, s'.store, s'.leaked);
    case Tamper(key, file) =>
      TamperContentOk(env, s.store, key, file);
      TamperTmp(s.store, key, file);
      StoreKeepsContent(env, s, s'.store, s'.leaked);
    case InsertRow(id, uuid, birth) =>
      BirthIsWellWritten(birth);
      RowsKeepContent(env, s, s');
    case WriteRow(rowId, write) =>
      Lives.WriteKeepsWellWritten(s.rows[rowId].upload, write);
      RowsKeepContent(env, s, s');
    case SetLimit(_) =>
      RowsKeepContent(env, s, s');
  }

  lemma BirthIsWellWritten(birth: Lives.Birth)
    ensures Lives.WellWritten(Lives.Born(birth))
  {
  }

  lemma {:induction false} RunKeepsContent(env: Env, s: State, acts: seq<Action>)
    requires SoundEnv(env) && ContentInv(env, s) && Possible(env, s, acts)
    ensures ContentInv(env, Run(env, s, acts))
    decreases |acts|
  {
    if acts != [] {
      ApplyKeepsContent(env, s, acts[0]);
      hide Apply, Enabled, ContentInv, SoundEnv;
      RunKeepsContent(env, Apply(env, s, acts[0]), acts[1..]);
    }
  }

  // ------------------------------------------------------------------ theorems

  /** Cache transparency: however requests, evictions and purges interleave, a
      download that answers with a body answers with its row's content, whether
      it was a hit, a miss, promoted, refused, or promoted and evicted again, and
      whatever somebody outside removed or replaced by something of another size. */
  lemma EveryBodyIsRight(env: Env, s: State, acts: seq<Action>, id: nat)
    requires SoundEnv(env) && ContentInv(env, s) && Possible(env, s, acts)
    ensures var s' := Run(env, s, acts);
            id in s'.reqs && s'.reqs[id].pc.Done? && s'.reqs[id].pc.outcome.Served? ==>
              Right(env, s'.reqs[id].row, s'.reqs[id].pc.outcome.body)
  {
    RunKeepsContent(env, s, acts);
    hide Run, Possible;
    var s' := Run(env, s, acts);
    if id in s'.reqs { assert ReqOk(env, s'.store.tmp, id, s'.reqs[id]); }
  }
}
