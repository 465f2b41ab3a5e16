/** The download and delete requests as interleaved programs over the cache
    store, the fill coalescing, the gate, the miss counter and the upload rows.

    A step of the machine is one critical section, one file operation or one
    database access of one request; any request may step at any time.  Whatever
    the program does not decide (failures, timeouts, settings, clocks) is a
    choice handed to the step. */
module Handlers {
  import opened Base
  import opened CacheStore
  import opened Flights
  import opened Gates
  import opened Counters
  import Lives = Lifecycle

  // ------------------------------------------------------ rows and their keys

  /** What a request read of an upload row: its number, the uuid it is known by
      outside, and its identifiers; `None` is a NULL column. */
  datatype Row = Row(id: nat, uuid: nat, dataMap: Option<string>, address: Option<string>)

  /** A row of the uploads table. */
  datatype Record = Record(uuid: nat, upload: Lives.Upload)

  function RowOf(id: nat, rec: Record): Row { Row(id, rec.uuid, rec.upload.dataMap, rec.upload.address) }

  function RowAt(rows: map<nat, Record>, id: nat): Row
    requires id in rows
  {
    RowOf(id, rows[id])
  }

  predicate UuidThere(rows: map<nat, Record>, uuid: nat) { exists i :: i in rows && rows[i].uuid == uuid }

  /** The hash behind cache keys and the bytes the network holds per identifier. */
  datatype Env = Env(digest: string -> string, fetch: string -> Bytes)

  predicate Usable(id: Option<string>) { id.Some? && id.value != "" }

  function KeyForIdentifier(env: Env, id: string): string {
    if id == "" then "" else env.digest(id)
  }

  /** The identifier the ETag is computed from. */
  function ContentId(row: Row): string {
    if Usable(row.dataMap) then row.dataMap.value
    else if Usable(row.address) then row.address.value
    else ""
  }

  function DownloadKey(env: Env, row: Row): string { KeyForIdentifier(env, ContentId(row)) }

  /** The keys a delete purges. */
  function CacheKeys(env: Env, row: Row): seq<string> {
    var first := if Usable(row.dataMap) then [KeyForIdentifier(env, row.dataMap.value)] else [];
    if !Usable(row.address) then first
    else
      var k := KeyForIdentifier(env, row.address.value);
      if first == [] || first[0] != k then first + [k] else first
  }

  /** Some row that is still there is served under this key. */
  predicate LiveKey(env: Env, rows: map<nat, Record>, key: string) {
    exists i :: i in rows && DownloadKey(env, RowAt(rows, i)) == key
  }

  /** The identifier the bytes are fetched by: any non-NULL data map wins, even
      an empty one. */
  function FetchId(row: Row): Option<string> {
    if row.dataMap.Some? then row.dataMap else row.address
  }

  // ------------------------------------------------------------------ requests

  /** Where a lookup was made: in the coalescing loop, or once more after
      admission. */
  datatype Where = InLoop | Admitted

  datatype Outcome = Served(body: Bytes) | Deleted | Refused(status: nat)

  datatype Pc =
    // the step-wise `Open`
    | ReadEntry(at: Where)
    | Lstat(at: Where, size: nat, gen: nat)
    | OpenFile(at: Where, size: nat, gen: nat)
    | Fstat(at: Where, size: nat, gen: nat, file: File)
    | TouchEntry(at: Where, fd: Bytes)
    | Heal(at: Where, gen: nat)
    // coalescing and admission
    | Join
    | AwaitFill(done: nat)
    | ReadLimit
    | TryGate(limit: int)
    | AwaitSlot(notify: nat, limit: int)
    | ReleaseForHit(fd: Bytes)
    // fetch, promote, serve
    | StartFetch
    | Fetching
    | OpenTemp
    | Decide(fd: Bytes)
    | PromoteTemp(fd: Bytes, minUses: int)
    | Recheck(fd: Bytes)
    | PurgeOwn(fd: Bytes)
    | Serve(body: Bytes)
    // deferred calls, last registered first
    | RemoveTemp(outcome: Outcome)
    | ReleaseSlot(outcome: Outcome)
    | EndFlight(outcome: Outcome)
    | Done(outcome: Outcome)
    // delete
    | PurgeBefore(next: nat)
    | DeleteRow
    | PurgeAfter(next: nat)

  /** One request's local state.  `slot`, `temp` and `leads` say which deferred
      calls are registered; the staging file of a request has its number. */
  datatype Req = Req(row: Row, cacheKey: string, round: nat, leads: bool, slot: bool, temp: bool, pc: Pc)

  const MAX_FILL_ROUNDS: nat := 4
  const COUNTER_CAP: int := 65536

  // --------------------------------------------------------------------- state

  /** `gone` are the numbers of deleted rows, `used` the uuids rows ever had, `peak`
      the highest limit ever in force, `bumped` the keys bumped on the miss
      counter, oldest first, `strays` the staging files whose removal failed,
      `leaked` the keys that a step left in the cache without a row to serve or
      anybody to purge them, and that have been there ever since. */
  datatype State = State(
    rows: map<nat, Record>, gone: set<nat>, used: set<nat>,
    store: StoreState, flight: FlightState<nat>, gate: GateState,
    limit: int, peak: int,
    counts: map<string, int>, bumped: seq<string>,
    reqs: map<nat, Req>, strays: set<nat>, leaked: set<string>)

  datatype Wake = Signalled | TimedOut | Cancelled

  datatype Choice = Choice(fails: bool, wake: Wake, minUses: int, maxObject: int, budget: int, now: int)

  // ------------------------------------------------------ where a request goes

  predicate InLookup(pc: Pc) {
    pc.ReadEntry? || pc.Lstat? || pc.OpenFile? || pc.Fstat? || pc.TouchEntry? || pc.Heal?
  }

  /** Between joining as leader, or giving up on coalescing, and admission. */
  predicate InAdmission(pc: Pc) { pc.ReadLimit? || pc.TryGate? || pc.AwaitSlot? }

  predicate InFetch(pc: Pc) { pc.Fetching? || pc.OpenTemp? || pc.Decide? }

  predicate InPromotion(pc: Pc) { pc.PromoteTemp? || pc.Recheck? || pc.PurgeOwn? }

  predicate IsDelete(pc: Pc) { pc.PurgeBefore? || pc.DeleteRow? || pc.PurgeAfter? }

  /** Where a returning request goes next: its remaining deferred calls. */
  function Unwind(r: Req, o: Outcome): Req {
    r.(pc := if r.temp then RemoveTemp(o)
             else if r.slot then ReleaseSlot(o)
             else if r.leads then EndFlight(o)
             else Done(o))
  }

  function Miss(at: Where): Pc { if at == InLoop then Join else StartFetch }

  /** What is at the key's position on disk. */
  function FileAt(disk: map<Path, File>, key: string): Option<File> {
    if KeyValid(key) && PathOf(key) in disk then Some(disk[PathOf(key)]) else None
  }

  /** A cached file of the key. */
  predicate OnDisk(store: StoreState, key: string) {
    KeyValid(key) && PathOf(key) in store.disk && store.disk[PathOf(key)].Regular?
  }

  /** The key has a file or an index entry. */
  predicate Held(store: StoreState, key: string) { OnDisk(store, key) || (KeyValid(key) && key in store.entries) }

  function StillThere(store: StoreState, keys: set<string>): set<string> { set k | k in keys && Held(store, k) }

  predicate IsRegular(f: Option<File>, size: nat) {
    f.Some? && f.value.Regular? && |f.value.data| == size
  }

  /** The step-wise `Open`: entry, lstat, open, fstat, touch; any mismatch heals. */
  function NextLookup(store: StoreState, r: Req, c: Choice): Req
    requires InLookup(r.pc)
  {
    var file := FileAt(store.disk, r.cacheKey);
    match r.pc
    case ReadEntry(at) =>
      r.(pc := if r.cacheKey in store.entries
               then Lstat(at, store.entries[r.cacheKey].size, store.entries[r.cacheKey].gen)
               else Miss(at))
    case Lstat(at, size, gen) =>
      r.(pc := if c.fails || !IsRegular(file, size) then Heal(at, gen) else OpenFile(at, size, gen))
    case OpenFile(at, size, gen) =>
      r.(pc := if c.fails || file.None? then Heal(at, gen) else Fstat(at, size, gen, file.value))
    case Fstat(at, size, gen, file) =>
      r.(pc := if c.fails || !IsRegular(Some(file), size) then Heal(at, gen) else TouchEntry(at, file.data))
    case TouchEntry(at, fd) =>
      r.(pc := if at == InLoop then Serve(fd) else ReleaseForHit(fd))
    case Heal(at, _) =>
      r.(pc := Miss(at))
  }

  /** `flights.Begin` in the loop: lead, give up after the last round, or wait. */
  function NextJoin(flight: FlightState<nat>, r: Req, id: nat): Req {
    var (_, leader, done) := Begin(flight, r.cacheKey, id);
    if leader then r.(leads := true, pc := ReadLimit)
    else if r.round >= MAX_FILL_ROUNDS then r.(cacheKey := "", pc := ReadLimit)
    else r.(pc := AwaitFill(done))
  }

  function NextAwaitFill(r: Req, wake: Wake): Req {
    match wake
    case Signalled => r.(round := r.round + 1, pc := ReadEntry(InLoop))
    case TimedOut => r.(cacheKey := "", pc := ReadLimit)
    case Cancelled => Unwind(r, Refused(499))
  }

  /** `acquire`: read the limit, try, park on the channel seen, try again. */
  function NextAdmission(gate: GateState, limit: int, r: Req, wake: Wake): Req
    requires InAdmission(r.pc)
  {
    match r.pc
    case ReadLimit => r.(pc := TryGate(limit))
    case TryGate(read) =>
      if TryAcquire(gate, read).1 then
        r.(slot := true, pc := if r.cacheKey != "" then ReadEntry(Admitted) else StartFetch)
      else r.(pc := AwaitSlot(gate.generation, read))
    case AwaitSlot(_, _) =>
      if wake == Signalled then r.(pc := ReadLimit) else Unwind(r, Refused(503))
  }

  function NextFetch(tmp: map<nat, File>, counts: map<string, int>, r: Req, id: nat, c: Choice): Req
    requires InFetch(r.pc)
  {
    match r.pc
    case Fetching =>
      if FetchId(r.row).None? then Unwind(r, Refused(500))
      else if c.fails then Unwind(r, Refused(502))
      else r.(pc := OpenTemp)
    case OpenTemp =>
      if c.fails || id !in tmp || tmp[id].Special? then Unwind(r, Refused(500))
      else r.(pc := Decide(tmp[id].data))
    case Decide(fd) =>
      var enough := c.minUses <= 1 || Bump(counts, COUNTER_CAP, r.cacheKey).1 >= c.minUses;
      r.(pc := if r.cacheKey != "" && enough && !c.fails && |fd| <= c.maxObject
               then PromoteTemp(fd, c.minUses)
               else Serve(fd))
  }

  function NextPromotion(s: State, r: Req, id: nat, c: Choice): Req
    requires InPromotion(r.pc)
  {
    match r.pc
    case PromoteTemp(fd, _) =>
      r.(pc := if Promote(s.store, r.cacheKey, id, c.budget, c.now, c.fails).1 == Promoted
               then Recheck(fd) else Serve(fd))
    case Recheck(fd) =>
      // the row is looked up by its uuid, whatever row has it now
      r.(pc := if c.fails || UuidThere(s.rows, r.row.uuid) then Serve(fd) else PurgeOwn(fd))
    case PurgeOwn(fd) =>
      r.(pc := Serve(fd))
  }

  /** The delete succeeds, on a row whose status allows it. */
  predicate DeletesRow(s: State, r: Req, c: Choice) {
    r.pc.DeleteRow? && !c.fails && r.row.id in s.rows && Lives.Deletable(s.rows[r.row.id].upload)
  }

  function NextDelete(env: Env, s: State, r: Req, c: Choice): Req
    requires IsDelete(r.pc)
  {
    var keys := CacheKeys(env, r.row);
    match r.pc
    case PurgeBefore(i) =>
      r.(pc := if i >= |keys| then DeleteRow
               else if !Drop(s.store, keys[i], c.fails).1 then Done(Refused(500))
               else PurgeBefore(i + 1))
    case DeleteRow =>
      r.(pc := if DeletesRow(s, r, c) then PurgeAfter(0) else Done(Refused(409)))
    case PurgeAfter(i) =>
      r.(pc := if i >= |keys| then Done(Deleted) else PurgeAfter(i + 1))
  }

  /** The request after its step. */
  function NextReq(env: Env, s: State, r: Req, id: nat, c: Choice): Req {
    if InLookup(r.pc) then NextLookup(s.store, r, c)
    else if InAdmission(r.pc) then NextAdmission(s.gate, s.limit, r, c.wake)
    else if InFetch(r.pc) then NextFetch(s.store.tmp, s.counts, r, id, c)
    else if InPromotion(r.pc) then NextPromotion(s, r, id, c)
    else if IsDelete(r.pc) then NextDelete(env, s, r, c)
    else match r.pc
      case Join => NextJoin(s.flight, r, id)
      case AwaitFill(_) => NextAwaitFill(r, c.wake)
      case ReleaseForHit(fd) => r.(slot := false, pc := Serve(fd))
      case StartFetch => r.(temp := true, pc := Fetching)
      case Serve(body) => Unwind(r, Served(body))
      case RemoveTemp(o) => Unwind(r.(temp := false), o)
      case ReleaseSlot(o) => Unwind(r.(slot := false), o)
      case EndFlight(o) => Unwind(r.(leads := false), o)
      case _ => r
  }

  // --------------------------------------------- what a step does to the rest

  /** The key a step purges, if it does: its own after a promotion the row did
      not outlive, the row's keys around a delete. */
  function PurgedKey(env: Env, r: Req): Option<string> {
    var keys := CacheKeys(env, r.row);
    match r.pc
    case PurgeOwn(_) => Some(r.cacheKey)
    case PurgeBefore(i) => if i < |keys| then Some(keys[i]) else None
    case PurgeAfter(i) => if i < |keys| then Some(keys[i]) else None
    case _ => None
  }

  function NextStore(env: Env, store: StoreState, r: Req, id: nat, c: Choice): StoreState {
    var purged := PurgedKey(env, r);
    if purged.Some? then Drop(store, purged.value, c.fails).0
    else match r.pc
      case TouchEntry(_, _) => Touch(store, r.cacheKey, c.now)
      case Heal(_, gen) => DropGen(store, r.cacheKey, gen, c.fails).0
      case Fetching =>
        // a failed fetch may leave a partial file; with no identifier there is none
        if FetchId(r.row).None? then store
        else store.(tmp := store.tmp[id := Regular(if c.fails then "" else env.fetch(FetchId(r.row).value))])
      case PromoteTemp(_, _) => Promote(store, r.cacheKey, id, c.budget, c.now, c.fails).0
      case RemoveTemp(_) => if c.fails then store else store.(tmp := store.tmp - {id})
      case _ => store
  }

  /** The keys a step leaves behind: what it failed to purge after the row delete,
      what it promoted and let stand for a failed row read or for another row that
      has the uuid now, and the key of a row it deleted without having read it. */
  function Lapsed(env: Env, s: State, r: Req, c: Choice): set<string> {
    var purged := PurgedKey(env, r);
    if purged.Some? && !r.pc.PurgeBefore? then
      if Drop(s.store, purged.value, c.fails).1 then {} else {purged.value}
    else if r.pc.Recheck? then
      if c.fails || (UuidThere(s.rows, r.row.uuid) && !LiveKey(env, s.rows, r.cacheKey)) then {r.cacheKey} else {}
    else if DeletesRow(s, r, c) then
      var key := DownloadKey(env, RowAt(s.rows, r.row.id));
      if key in CacheKeys(env, r.row) then {} else {key}
    else {}
  }

  function NextFlight(flight: FlightState<nat>, r: Req, id: nat): FlightState<nat> {
    match r.pc
    case Join => Begin(flight, r.cacheKey, id).0
    case EndFlight(_) => Finish(flight, r.cacheKey)
    case _ => flight
  }

  function NextGate(gate: GateState, r: Req): GateState {
    match r.pc
    case TryGate(limit) => TryAcquire(gate, limit).0
    case ReleaseForHit(_) => Release(gate)
    case ReleaseSlot(_) => Release(gate)
    case _ => gate
  }

  predicate Bumps(r: Req, c: Choice) { r.pc.Decide? && r.cacheKey != "" && c.minUses > 1 }

  function Exec(env: Env, s: State, id: nat, c: Choice): State
    requires id in s.reqs
  {
    var r := s.reqs[id];
    var store := NextStore(env, s.store, r, id, c);
    State(
      rows := if DeletesRow(s, r, c) then s.rows - {r.row.id} else s.rows,
      gone := if DeletesRow(s, r, c) then s.gone + {r.row.id} else s.gone,
      used := s.used,
      store := store,
      flight := NextFlight(s.flight, r, id),
      gate := NextGate(s.gate, r),
      limit := s.limit,
      peak := s.peak,
      counts := if Bumps(r, c) then Bump(s.counts, COUNTER_CAP, r.cacheKey).0 else s.counts,
      bumped := if Bumps(r, c) then s.bumped + [r.cacheKey] else s.bumped,
      reqs := s.reqs[id := NextReq(env, s, r, id, c)],
      strays := if r.pc.RemoveTemp? && c.fails then s.strays + {id} else s.strays,
      leaked := StillThere(store, s.leaked + Lapsed(env, s, r, c)))
  }

  // ------------------------------------------------------------------- actions

  datatype Action =
    | InsertRow(id: nat, uuid: nat, birth: Lives.Birth)
    | WriteRow(rowId: nat, write: Lives.Write)
    | StartDownload(id: nat, rowId: nat, eligible: bool, allowed: bool)
    | StartDelete(id: nat, rowId: nat, allowed: bool)
    | Step(id: nat, choice: Choice)
    | Evict(key: string, gen: nat, fails: bool)
    | PurgeKey(key: string, fails: bool)
    | Tamper(key: string, file: Option<File>)
    | SetLimit(limit: int)

  predicate Enabled(s: State, a: Action) {
    match a
    // uuids are unique among rows, and a created one is new; an import brings its own
    case InsertRow(id, uuid, birth) =>
      id !in s.rows && id !in s.gone && !UuidThere(s.rows, uuid) && (birth.Created? ==> uuid !in s.used)
    case WriteRow(rowId, _) => rowId in s.rows
    case StartDownload(id, _, _, _) => id !in s.reqs
    case StartDelete(id, _, _) => id !in s.reqs
    case Step(id, c) =>
      && id in s.reqs
      && !s.reqs[id].pc.Done?
      && (s.reqs[id].pc.AwaitFill? && c.wake == Signalled ==> s.reqs[id].pc.done in s.flight.closed)
      && (s.reqs[id].pc.AwaitSlot? && c.wake == Signalled ==> !IsOpen(s.gate, s.reqs[id].pc.notify))
    case SetLimit(n) => 1 <= n <= 1000
    case _ => true
  }

  function Download(env: Env, row: Row, eligible: bool): Req {
    var key := if eligible then DownloadKey(env, row) else "";
    Req(row, key, 0, false, false, false, if key != "" then ReadEntry(InLoop) else ReadLimit)
  }

  /** A request that is turned away before it does anything. */
  function Turned(row: Row, status: nat): Req { Req(row, "", 0, false, false, false, Done(Refused(status))) }

  function NoRow(rowId: nat): Row { Row(rowId, 0, None, None) }

  function Deletion(row: Row): Req { Req(row, "", 0, false, false, false, PurgeBefore(0)) }

  function Apply(env: Env, s: State, a: Action): State
    requires Enabled(s, a)
  {
    match a
    case InsertRow(id, uuid, birth) =>
      s.(rows := s.rows[id := Record(uuid, Lives.Born(birth))], used := s.used + {uuid})
    case WriteRow(rowId, write) =>
      s.(rows := s.rows[rowId := s.rows[rowId].(upload := Lives.Written(s.rows[rowId].upload, write))])
    case StartDownload(id, rowId, eligible, allowed) =>
      s.(reqs := s.reqs[id :=
        if rowId !in s.rows || !allowed then Turned(NoRow(rowId), 404)
        else if !Lives.Downloadable(s.rows[rowId].upload) then Turned(RowAt(s.rows, rowId), 409)
        else Download(env, RowAt(s.rows, rowId), eligible)])
    case StartDelete(id, rowId, allowed) =>
      s.(reqs := s.reqs[id :=
        if rowId !in s.rows || !allowed then Turned(NoRow(rowId), 404) else Deletion(RowAt(s.rows, rowId))])
    case Step(id, c) => Exec(env, s, id, c)
    case Evict(key, gen, fails) =>
      var store := DropGen(s.store, key, gen, fails).0;
      s.(store := store, leaked := StillThere(store, s.leaked))
    case PurgeKey(key, fails) =>
      var store := Drop(s.store, key, fails).0;
      s.(store := store, leaked := StillThere(store, s.leaked))
    case Tamper(key, file) =>
      var store := Tampered(s.store, key, file);
      s.(store := store, leaked := StillThere(store, s.leaked))
    case SetLimit(n) => s.(limit := n, peak := Max(s.peak, n))
  }

  /** Every step of the run is possible when it is taken. */
  predicate Possible(env: Env, s: State, acts: seq<Action>)
    decreases |acts|
  {
    acts == [] || (Enabled(s, acts[0]) && Possible(env, Apply(env, s, acts[0]), acts[1..]))
  }

  function Run(env: Env, s: State, acts: seq<Action>): State
    requires Possible(env, s, acts)
    decreases |acts|
  {
    if acts == [] then s else Run(env, Apply(env, s, acts[0]), acts[1..])
  }
}
