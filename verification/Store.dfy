/** The content-addressed download cache: an in-memory index over a directory of
    promoted files.

    `StoreState` is the whole state behind the store's mutex together with the
    directory it indexes; the functions on it are the store's critical sections.
    The class `Store` is the store itself, proved against those functions. */
module CacheStore {
  import opened Base

  // -------------------------------------------------------- keys and paths

  predicate LowerHex(c: char) { '0' <= c <= '9' || 'a' <= c <= 'f' }

  /** A key is safe as a file name: lowercase hex of a digest's length. */
  predicate KeyValid(key: string) {
    16 <= |key| <= 128 && forall i :: 0 <= i < |key| ==> LowerHex(key[i])
  }

  /** The components of a file's path below the cache root. */
  type Path = seq<string>

  /** The two-level fanout position of a key. */
  function PathOf(key: string): Path
    requires |key| >= 4
  {
    [key[0..2], key[2..4], key]
  }

  function Name(p: Path): string { if p == [] then "" else p[|p| - 1] }

  /** `Special` is anything but a regular file: a symlink, a device node. */
  datatype File = Regular(data: Bytes) | Special

  // ----------------------------------------------------------------- state

  datatype Entry = Entry(size: nat, lastAccess: int, gen: nat)

  /** `disk` is the cache directory, `tmp` the staging files elsewhere on the
      same file system, named by number. */
  datatype StoreState = StoreState(
    entries: map<string, Entry>, bytes: int, ready: bool, genSeq: nat,
    disk: map<Path, File>, tmp: map<nat, File>)

  ghost function Total(entries: map<string, Entry>): nat {
    if entries == map[] then 0
    else
      var k :| k in entries;
      entries[k].size + Total(entries - {k})
  }

  /** What every operation of the store keeps. */
  ghost predicate Valid(s: StoreState) {
    && s.bytes == Total(s.entries)
    && (forall k :: k in s.entries ==> KeyValid(k) && s.entries[k].gen <= s.genSeq)
    && (forall j, k :: j in s.entries && k in s.entries && s.entries[j].gen == s.entries[k].gen ==> j == k)
  }

  // ------------------------------------------------------ critical sections

  /** `unlinkLocked`: the directory afterwards, whether a file went, whether it
      failed.  A missing file is success; `fails` is any other unlink error. */
  function Unlink(disk: map<Path, File>, key: string, fails: bool): (map<Path, File>, bool, bool) {
    if !KeyValid(key) then (disk, false, true)
    else if fails then (disk, false, false)
    else (disk - {PathOf(key)}, PathOf(key) in disk, true)
  }

  function Forget(s: StoreState, key: string): StoreState {
    if key in s.entries then s.(bytes := s.bytes - s.entries[key].size, entries := s.entries - {key}) else s
  }

  /** `Drop`: the new state and whether it succeeded. */
  function Drop(s: StoreState, key: string, fails: bool): (StoreState, bool) {
    var (disk, _, ok) := Unlink(s.disk, key, fails);
    if !ok then (s, false) else (Forget(s.(disk := disk), key), true)
  }

  /** `DropGen`: the new state and whether it acted. */
  function DropGen(s: StoreState, key: string, gen: nat, fails: bool): (StoreState, bool) {
    if key !in s.entries || s.entries[key].gen != gen then (s, false)
    else
      var (disk, _, ok) := Unlink(s.disk, key, fails);
      if !ok then (s, false) else (Forget(s.(disk := disk), key), true)
  }

  function Touch(s: StoreState, key: string, now: int): StoreState {
    if key in s.entries then s.(entries := s.entries[key := s.entries[key].(lastAccess := now)]) else s
  }

  /** Somebody outside the program removes the file at a key's position, or puts
      something else there: no regular file, or for an indexed key a regular one
      of another size than the index records.  Anything else this is not. */
  function Tampered(s: StoreState, key: string, file: Option<File>): StoreState {
    if !KeyValid(key) then s
    else if file.None? then s.(disk := s.disk - {PathOf(key)})
    else if file.value.Regular? && (key !in s.entries || |file.value.data| == s.entries[key].size) then s
    else s.(disk := s.disk[PathOf(key) := file.value])
  }

  datatype PromoteResult = Promoted | Invalid | SourceMissing | NotReady | OverBudget | MoveFailed

  function Delta(s: StoreState, key: string, size: nat): int {
    size - (if key in s.entries then s.entries[key].size else 0)
  }

  /** `PromoteIfFits`: the staging file `src` becomes the key's cached file. */
  function Promote(s: StoreState, key: string, src: nat, budget: int, now: int, moveFails: bool)
    : (StoreState, PromoteResult)
  {
    if !KeyValid(key) then (s, Invalid)
    else if src !in s.tmp then (s, SourceMissing)
    else if s.tmp[src].Special? then (s, Invalid)
    else if !s.ready then (s, NotReady)
    else
      var size := |s.tmp[src].data|;
      var delta := Delta(s, key, size);
      if s.bytes + delta > budget then (s, OverBudget)
      else if moveFails then (s, MoveFailed)
      else
        (StoreState(
           entries := s.entries[key := Entry(size, now, s.genSeq + 1)],
           bytes := s.bytes + delta,
           ready := s.ready,
           genSeq := s.genSeq + 1,
           disk := s.disk[PathOf(key) := s.tmp[src]],
           tmp := s.tmp - {src}),
         Promoted)
  }

  // ------------------------------------------------------------------ scan

  /** What the walk meets at one path, besides the file itself: an error that
      ends the walk (an unreadable directory, a cancelled context), a failing
      removal of a stray, or a file that vanishes before it can be examined. */
  datatype Outcome = Fine | Abort | RemoveFails | Vanished

  datatype Visit = Visit(path: Path, outcome: Outcome)

  /** One file of the boot walk: adopt a file at its key's own position, delete
      anything else. */
  function VisitFile(s: StoreState, v: Visit, now: int): StoreState {
    if v.path !in s.disk then s
    else
      var key := Name(v.path);
      var removed := if v.outcome == RemoveFails then s else s.(disk := s.disk - {v.path});
      if s.disk[v.path].Special? || !KeyValid(key) || PathOf(key) != v.path then removed
      else if v.outcome == Vanished then s.(disk := s.disk - {v.path})
      else if key in s.entries then s
      else
        var size := |s.disk[v.path].data|;
        s.(genSeq := s.genSeq + 1,
           entries := s.entries[key := Entry(size, now, s.genSeq + 1)],
           bytes := s.bytes + size)
  }

  function Scanned(s: StoreState, walk: seq<Visit>, now: int): (StoreState, bool)
    decreases |walk|
  {
    if walk == [] then (s.(ready := true), true)
    else if walk[0].outcome == Abort then (s, false)
    else Scanned(VisitFile(s, walk[0], now), walk[1..], now)
  }

  // ---------------------------------------------------------------- lookup

  /** The index entry still describes the file on disk. */
  predicate Matches(s: StoreState, key: string)
    requires key in s.entries && KeyValid(key)
  {
    var p := PathOf(key);
    p in s.disk && s.disk[p].Regular? && |s.disk[p].data| == s.entries[key].size
  }

  /** Where a lookup meets an I/O error, if it does. */
  datatype Fault = NoFault | LstatFails | OpenFails | FstatFails

  /** An `Open` that nothing interrupts. */
  function Lookup(s: StoreState, key: string, now: int, fault: Fault, fails: bool): (StoreState, Option<Bytes>)
    requires forall k :: k in s.entries ==> KeyValid(k)
  {
    if key !in s.entries then (s, None)
    else if !Matches(s, key) || fault != NoFault then (DropGen(s, key, s.entries[key].gen, fails).0, None)
    else (Touch(s, key, now), Some(s.disk[PathOf(key)].data))
  }

  // -------------------------------------------------------------- snapshot

  datatype Victim = Victim(key: string, gen: nat, size: nat, lastAccess: int)

  function VictimOf(entries: map<string, Entry>, key: string): Victim
    requires key in entries
  {
    Victim(key, entries[key].gen, entries[key].size, entries[key].lastAccess)
  }

  predicate SortedByAccess(vs: seq<Victim>) {
    forall i, j :: 0 <= i < j < |vs| ==> vs[i].lastAccess <= vs[j].lastAccess
  }

  predicate DistinctKeys(vs: seq<Victim>) {
    forall i, j :: 0 <= i < j < |vs| ==> vs[i].key != vs[j].key
  }

  predicate Describes(vs: seq<Victim>, entries: map<string, Entry>) {
    forall i :: 0 <= i < |vs| ==> vs[i].key in entries && vs[i] == VictimOf(entries, vs[i].key)
  }

  function KeysOf(vs: seq<Victim>): set<string> { set v | v in vs :: v.key }

  /** The answer of `Oldest`: the least recently accessed entries, oldest first. */
  predicate LeastRecent(entries: map<string, Entry>, max: int, vs: seq<Victim>) {
    && Describes(vs, entries)
    && DistinctKeys(vs)
    && SortedByAccess(vs)
    && |vs| == (if 0 <= max < |entries| then max else |entries|)
    && (forall k, i :: k in entries && k !in KeysOf(vs) && 0 <= i < |vs| ==>
          vs[i].lastAccess <= entries[k].lastAccess)
  }

  /** Where the stand-in for the library sort puts a victim. */
  function Position(vs: seq<Victim>, v: Victim): (p: nat)
    ensures p <= |vs|
    ensures forall i :: 0 <= i < p ==> vs[i].lastAccess <= v.lastAccess
    ensures p < |vs| ==> v.lastAccess < vs[p].lastAccess
  {
    if vs == [] || v.lastAccess < vs[0].lastAccess then 0 else 1 + Position(vs[1..], v)
  }

  function Insert(vs: seq<Victim>, v: Victim): seq<Victim> {
    var p := Position(vs, v);
    vs[..p] + [v] + vs[p..]
  }

  // -------------------------------------------------------------- eviction

  /** The sweeper's batch: oldest first, stopping once the total is at or below
      the target.  `stuck` are the keys whose unlink fails.  The results are
      the state, the number of entries and the bytes dropped. */
  function EvictTo(s: StoreState, vs: seq<Victim>, target: int, stuck: set<string>): (StoreState, nat, nat)
    decreases |vs|
  {
    if vs == [] || s.bytes <= target then (s, 0, 0)
    else
      var (s1, acted) := DropGen(s, vs[0].key, vs[0].gen, vs[0].key in stuck);
      var (s2, n, freed) := EvictTo(s1, vs[1..], target, stuck);
      (s2, n + (if acted then 1 else 0), freed + (if acted then vs[0].size else 0))
  }

  // ------------------------------------------------------------- the class

  /** The store.  Each method is one run of the program's method; where that one
      releases the mutex half-way, this is the run nothing interrupts (the
      interleaved runs are in the handlers' step machine). */
  class Store {
    var entries: map<string, Entry>
    var bytes: int
    var ready: bool
    var genSeq: nat
    var disk: map<Path, File>
    var tmp: map<nat, File>

    function State(): StoreState
      reads this
    {
      StoreState(entries, bytes, ready, genSeq, disk, tmp)
    }

    constructor (files: map<Path, File>, staged: map<nat, File>)
      ensures State() == StoreState(map[], 0, false, 0, files, staged)
      ensures Valid(State())
    {
      entries, bytes, ready, genSeq := map[], 0, false, 0;
      disk, tmp := files, staged;
    }

    method UnlinkLocked(key: string, fails: bool) returns (removed: bool, ok: bool)
      modifies this`disk
      ensures (disk, removed, ok) == Unlink(old(disk), key, fails)
    {
      if !KeyValid(key) {
        return false, true;
      }
      if fails {
        return false, false;
      }
      removed := PathOf(key) in disk;
      disk := disk - {PathOf(key)};
      ok := true;
    }

    method DropKey(key: string, fails: bool) returns (ok: bool)
      modifies this
      ensures (State(), ok) == Drop(old(State()), key, fails)
    {
      var _, unlinked := UnlinkLocked(key, fails);
      if !unlinked {
        return false;
      }
      if key in entries {
        bytes := bytes - entries[key].size;
        entries := entries - {key};
      }
      return true;
    }

    method DropGeneration(key: string, gen: nat, fails: bool) returns (acted: bool)
      modifies this
      ensures (State(), acted) == DropGen(old(State()), key, gen, fails)
    {
      if key !in entries || entries[key].gen != gen {
        return false;
      }
      var _, unlinked := UnlinkLocked(key, fails);
      if !unlinked {
        return false;
      }
      bytes := bytes - entries[key].size;
      entries := entries - {key};
      return true;
    }

    method PromoteIfFits(key: string, src: nat, budget: int, now: int, moveFails: bool)
      returns (result: PromoteResult)
      modifies this
      ensures (State(), result) == Promote(old(State()), key, src, budget, now, moveFails)
    {
      if !KeyValid(key) {
        return Invalid;
      }
      if src !in tmp {
        return SourceMissing;
      }
      if tmp[src].Special? {
        return Invalid;
      }
      if !ready {
        return NotReady;
      }
      var size := |tmp[src].data|;
      var delta := size;
      if key in entries {
        delta := delta - entries[key].size;
      }
      if bytes + delta > budget {
        return OverBudget;
      }
      if moveFails {
        return MoveFailed;
      }
      disk := disk[PathOf(key) := tmp[src]];
      tmp := tmp - {src};
      genSeq := genSeq + 1;
      entries := entries[key := Entry(size, now, genSeq)];
      bytes := bytes + delta;
      return Promoted;
    }

    method Open(key: string, now: int, fault: Fault, fails: bool) returns (fd: Option<Bytes>)
      requires forall k :: k in entries ==> KeyValid(k)
      modifies this
      ensures (State(), fd) == Lookup(old(State()), key, now, fault, fails)
    {
      if key !in entries {
        return None;
      }
      var size, gen := entries[key].size, entries[key].gen;
      var p := PathOf(key);
      if fault == LstatFails || p !in disk || !disk[p].Regular? || |disk[p].data| != size {
        var _ := DropGeneration(key, gen, fails);
        return None;
      }
      if fault == OpenFails {
        var _ := DropGeneration(key, gen, fails);
        return None;
      }
      if fault == FstatFails {
        var _ := DropGeneration(key, gen, fails);
        return None;
      }
      fd := Some(disk[p].data);
      entries := entries[key := entries[key].(lastAccess := now)];
    }

    method Visited(v: Visit, now: int)
      modifies this
      ensures State() == VisitFile(old(State()), v, now)
    {
      if v.path !in disk {
        return;
      }
      var key := Name(v.path);
      if disk[v.path].Special? || !KeyValid(key) || PathOf(key) != v.path {
        if v.outcome != RemoveFails {
          disk := disk - {v.path};
        }
        return;
      }
      if v.outcome == Vanished {
        disk := disk - {v.path};
        return;
      }
      if key !in entries {
        var size := |disk[v.path].data|;
        genSeq := genSeq + 1;
        entries := entries[key := Entry(size, now, genSeq)];
        bytes := bytes + size;
      }
    }

    method Scan(walk: seq<Visit>, now: int) returns (ok: bool)
      modifies this
      ensures (State(), ok) == Scanned(old(State()), walk, now)
    {
      var i := 0;
      assert walk[0..] == walk;
      while i < |walk|
        invariant 0 <= i <= |walk|
        invariant Scanned(State(), walk[i..], now) == Scanned(old(State()), walk, now)
      {
        if walk[i].outcome == Abort {
          return false;
        }
        assert walk[i..][1..] == walk[i + 1..];
        Visited(walk[i], now);
        i := i + 1;
      }
      ready := true;
      return true;
    }

    method Oldest(max: int) returns (victims: seq<Victim>)
      ensures LeastRecent(entries, max, victims)
    {
      victims := [];
      var todo := entries.Keys;
      while todo != {}
        invariant todo <= entries.Keys
        invariant |victims| + |todo| == |entries|
        invariant Describes(victims, entries)
        invariant DistinctKeys(victims)
        invariant SortedByAccess(victims)
        invariant KeysOf(victims) == entries.Keys - todo
        decreases |todo|
      {
        var k :| k in todo;
        InsertKeepsVictims(entries, victims, k);
        victims := Insert(victims, VictimOf(entries, k));
        todo := todo - {k};
      }
      if max >= 0 && |victims| > max {
        PrefixIsLeastRecent(entries, victims, max);
        victims := victims[..max];
      }
    }

    method EvictBatchToBytes(batch: int, target: int, stuck: set<string>)
      returns (evicted: nat, freed: nat, ghost victims: seq<Victim>)
      modifies this
      ensures LeastRecent(old(entries), batch, victims)
      ensures (State(), evicted, freed) == EvictTo(old(State()), victims, target, stuck)
    {
      hide DropGen, LeastRecent;
      evicted, freed := 0, 0;
      var snapshot := Oldest(batch);
      victims := snapshot;
      var i := 0;
      assert victims[0..] == victims;
      while i < |snapshot|
        invariant 0 <= i <= |snapshot|
        invariant var (s, n, f) := EvictTo(State(), snapshot[i..], target, stuck);
                  EvictTo(old(State()), snapshot, target, stuck) == (s, evicted + n, freed + f)
      {
        if bytes <= target {
          break;
        }
        var v := snapshot[i];
        assert snapshot[i..][1..] == snapshot[i + 1..];
        var acted := DropGeneration(v.key, v.gen, v.key in stuck);
        if acted {
          evicted := evicted + 1;
          freed := freed + v.size;
        }
        i := i + 1;
      }
    }
  }

  // ------------------------------------------------ lemmas about the snapshot

  lemma InsertKeys(vs: seq<Victim>, v: Victim)
    ensures KeysOf(Insert(vs, v)) == KeysOf(vs) + {v.key}
  {
    hide Position;
    var p := Position(vs, v);
    forall u ensures u in Insert(vs, v) <==> u in vs || u == v {
      assert vs == vs[..p] + vs[p..];
    }
  }

  lemma InsertAt(vs: seq<Victim>, v: Victim)
    ensures Inserted(vs, v, Position(vs, v), Insert(vs, v))
  {
    hide Position;
  }

  predicate Inserted(vs: seq<Victim>, v: Victim, p: nat, r: seq<Victim>) {
    && p <= |vs| && |r| == |vs| + 1
    && r[p] == v
    && (forall i :: 0 <= i < p ==> r[i] == vs[i])
    && (forall i :: p < i < |r| ==> r[i] == vs[i - 1])
  }

  lemma InsertedDistinct(vs: seq<Victim>, v: Victim, p: nat, r: seq<Victim>)
    requires Inserted(vs, v, p, r) && DistinctKeys(vs)
    requires forall i :: 0 <= i < |vs| ==> vs[i].key != v.key
    ensures DistinctKeys(r)
  {
    forall i, j | 0 <= i < j < |r| ensures r[i].key != r[j].key {
      if j <= p {
        assert r[i] == vs[i];
      } else {
        assert r[j] == vs[j - 1];
        assert i != p ==> r[i] == vs[if i < p then i else i - 1];
      }
    }
  }

  lemma InsertedSorted(vs: seq<Victim>, v: Victim, p: nat, r: seq<Victim>)
    requires Inserted(vs, v, p, r) && SortedByAccess(vs)
    requires forall i :: 0 <= i < p ==> vs[i].lastAccess <= v.lastAccess
    requires p < |vs| ==> v.lastAccess < vs[p].lastAccess
    ensures SortedByAccess(r)
  {
    forall i, j | 0 <= i < j < |r| ensures r[i].lastAccess <= r[j].lastAccess {
      if i == p {
        assert r[j] == vs[j - 1] && vs[p].lastAccess <= vs[j - 1].lastAccess;
      } else if j == p {
        assert r[i] == vs[i];
      } else {
        assert r[i] == vs[if i < p then i else i - 1] && r[j] == vs[if j < p then j else j - 1];
      }
    }
  }

  lemma InsertedDescribes(entries: map<string, Entry>, vs: seq<Victim>, v: Victim, p: nat, r: seq<Victim>)
    requires Inserted(vs, v, p, r) && Describes(vs, entries)
    requires v.key in entries && v == VictimOf(entries, v.key)
    ensures Describes(r, entries)
  {
    forall i | 0 <= i < |r| ensures r[i].key in entries && r[i] == VictimOf(entries, r[i].key) {
      assert i != p ==> r[i] == vs[if i < p then i else i - 1];
    }
  }

  lemma InsertKeepsVictims(entries: map<string, Entry>, vs: seq<Victim>, key: string)
    requires Describes(vs, entries) && DistinctKeys(vs) && SortedByAccess(vs)
    requires key in entries && key !in KeysOf(vs)
    ensures var r := Insert(vs, VictimOf(entries, key));
            && Describes(r, entries) && DistinctKeys(r) && SortedByAccess(r)
            && KeysOf(r) == KeysOf(vs) + {key} && |r| == |vs| + 1
  {
    var v := VictimOf(entries, key);
    var p, r := Position(vs, v), Insert(vs, v);
    assert forall i :: 0 <= i < |vs| ==> vs[i] in vs && vs[i].key in KeysOf(vs);
    hide Insert, Position, KeysOf, SortedByAccess, DistinctKeys, Describes;
    InsertAt(vs, v);
    InsertKeys(vs, v);
    InsertedDistinct(vs, v, p, r);
    InsertedSorted(vs, v, p, r);
    InsertedDescribes(entries, vs, v, p, r);
  }

  lemma KeyAt(vs: seq<Victim>, i: nat)
    requires i < |vs|
    ensures vs[i].key in KeysOf(vs)
  {
    assert vs[i] in vs;
  }

  lemma IndexOfKey(vs: seq<Victim>, key: string) returns (i: nat)
    requires key in KeysOf(vs)
    ensures i < |vs| && vs[i].key == key
  {
    var v :| v in vs && v.key == key;
    i :| i < |vs| && vs[i] == v;
  }

  lemma PrefixIsLeastRecent(entries: map<string, Entry>, vs: seq<Victim>, max: nat)
    requires max < |vs|
    requires Describes(vs, entries) && DistinctKeys(vs) && SortedByAccess(vs)
    requires KeysOf(vs) == entries.Keys && |vs| == |entries|
    ensures LeastRecent(entries, max, vs[..max])
  {
    hide KeysOf;
    var ps := vs[..max];
    forall k, i | k in entries && k !in KeysOf(ps) && 0 <= i < |ps|
      ensures ps[i].lastAccess <= entries[k].lastAccess
    {
      var j := IndexOfKey(vs, k);
      if j < max {
        KeyAt(ps, j);
      }
    }
  }
}
