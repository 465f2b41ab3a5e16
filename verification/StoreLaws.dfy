/** Laws of the download cache store, over single operations and whole runs. */
module StoreLaws {
  import opened Base
  import opened CacheStore

  /** One atomic step of anybody who uses the store, in any order.  `Stage` and
      `Unstage` are a caller writing and removing a staging file, `Tampering` is
      somebody outside the program; `Visiting` and `FinishScan` are the steps of
      the boot walk, so runs include scans that stop half-way and are retried. */
  datatype Op =
    | Stage(src: nat, file: File)
    | Unstage(src: nat)
    | Promoting(key: string, src: nat, budget: int, now: int, moveFails: bool)
    | Dropping(key: string, fails: bool)
    | Evicting(key: string, gen: nat, fails: bool)
    | Touching(key: string, now: int)
    | Tampering(key: string, put: Option<File>)
    | Visiting(visit: Visit, now: int)
    | FinishScan

  function Apply(s: StoreState, op: Op): StoreState {
    match op
    case Stage(src, file) => s.(tmp := s.tmp[src := file])
    case Unstage(src) => s.(tmp := s.tmp - {src})
    case Promoting(key, src, budget, now, moveFails) => Promote(s, key, src, budget, now, moveFails).0
    case Dropping(key, fails) => Drop(s, key, fails).0
    case Evicting(key, gen, fails) => DropGen(s, key, gen, fails).0
    case Touching(key, now) => Touch(s, key, now)
    case Tampering(key, file) => Tampered(s, key, file)
    case Visiting(visit, now) => VisitFile(s, visit, now)
    case FinishScan => s.(ready := true)
  }

  function Run(s: StoreState, ops: seq<Op>): StoreState
    decreases |ops|
  {
    if ops == [] then s else Run(Apply(s, ops[0]), ops[1..])
  }

  // ------------------------------------------------------------ accounting

  lemma {:induction false} TotalRemove(entries: map<string, Entry>, key: string)
    requires key in entries
    ensures Total(entries) == entries[key].size + Total(entries - {key})
    decreases |entries|
  {
    var k :| k in entries && Total(entries) == entries[k].size + Total(entries - {k});
    if k != key {
      TotalRemove(entries - {k}, key);
      TotalRemove(entries - {key}, k);
      assert (entries - {k}) - {key} == (entries - {key}) - {k};
    }
  }

  lemma TotalPut(entries: map<string, Entry>, key: string, e: Entry)
    ensures Total(entries[key := e]) ==
            Total(entries) + e.size - (if key in entries then entries[key].size else 0)
  {
    TotalRemove(entries[key := e], key);
    if key in entries {
      TotalRemove(entries, key);
      assert entries[key := e] - {key} == entries - {key};
    } else {
      assert entries[key := e] - {key} == entries;
    }
  }

  lemma ForgetKeepsValid(s: StoreState, key: string)
    requires Valid(s)
    ensures Valid(Forget(s, key))
  {
    if key in s.entries { TotalRemove(s.entries, key); }
  }

  lemma PutKeepsValid(s: StoreState, key: string, size: nat, now: int)
    requires Valid(s) && KeyValid(key)
    ensures var s' := s.(entries := s.entries[key := Entry(size, now, s.genSeq + 1)],
                         bytes := s.bytes + Delta(s, key, size), genSeq := s.genSeq + 1);
            Valid(s')
  {
    TotalPut(s.entries, key, Entry(size, now, s.genSeq + 1));
  }

  lemma PromoteKeepsValid(s: StoreState, key: string, src: nat, budget: int, now: int, moveFails: bool)
    requires Valid(s)
    ensures Valid(Promote(s, key, src, budget, now, moveFails).0)
    ensures s.genSeq <= Promote(s, key, src, budget, now, moveFails).0.genSeq
  {
    if Promote(s, key, src, budget, now, moveFails).1 == Promoted {
      PutKeepsValid(s, key, |s.tmp[src].data|, now);
      hide Total;
    }
  }

  lemma DropKeepsValid(s: StoreState, key: string, fails: bool)
    requires Valid(s)
    ensures Valid(Drop(s, key, fails).0)
  {
    ForgetKeepsValid(s.(disk := Unlink(s.disk, key, fails).0), key);
  }

  lemma DropGenKeepsValid(s: StoreState, key: string, gen: nat, fails: bool)
    requires Valid(s)
    ensures Valid(DropGen(s, key, gen, fails).0)
  {
    ForgetKeepsValid(s.(disk := Unlink(s.disk, key, fails).0), key);
  }

  lemma TouchKeepsValid(s: StoreState, key: string, now: int)
    requires Valid(s)
    ensures Valid(Touch(s, key, now))
  {
    if key in s.entries { TotalPut(s.entries, key, s.entries[key].(lastAccess := now)); }
  }

  lemma VisitKeepsValid(s: StoreState, v: Visit, now: int)
    requires Valid(s)
    ensures Valid(VisitFile(s, v, now))
    ensures s.genSeq <= VisitFile(s, v, now).genSeq
  {
    hide Total;
    var key := Name(v.path);
    if v.path in s.disk && s.disk[v.path].Regular? && KeyValid(key) && key !in s.entries {
      PutKeepsValid(s, key, |s.disk[v.path].data|, now);
    }
  }

  lemma ApplyKeepsValid(s: StoreState, op: Op)
    requires Valid(s)
    ensures Valid(Apply(s, op))
    ensures s.genSeq <= Apply(s, op).genSeq
  {
    hide Promote, VisitFile, Total;
    match op
    case Promoting(key, src, budget, now, moveFails) => PromoteKeepsValid(s, key, src, budget, now, moveFails);
    case Dropping(key, fails) => DropKeepsValid(s, key, fails);
    case Evicting(key, gen, fails) => DropGenKeepsValid(s, key, gen, fails);
    case Touching(key, now) => TouchKeepsValid(s, key, now);
    case Visiting(v, now) => VisitKeepsValid(s, v, now);
    case _ =>
  }

  /** In every run, the byte count is the sum of the indexed sizes, every
      indexed key is safe, and generations are distinct and already issued. */
  lemma {:induction false} RunKeepsValid(s: StoreState, ops: seq<Op>)
    requires Valid(s)
    ensures Valid(Run(s, ops))
    ensures s.genSeq <= Run(s, ops).genSeq
    decreases |ops|
  {
    if ops != [] {
      ApplyKeepsValid(s, ops[0]);
      RunKeepsValid(Apply(s, ops[0]), ops[1..]);
    }
  }

  // ---------------------------------------------------------------- budget

  function Adopted(s: StoreState, op: Op): nat {
    if op.Visiting? && Apply(s, op).entries != s.entries then |s.disk[op.visit.path].data| else 0
  }

  function AdoptedIn(s: StoreState, ops: seq<Op>): nat
    decreases |ops|
  {
    if ops == [] then 0 else Adopted(s, ops[0]) + AdoptedIn(Apply(s, ops[0]), ops[1..])
  }

  function LargestBudget(ops: seq<Op>): int {
    if ops == [] then 0
    else if ops[0].Promoting? then Max(ops[0].budget, LargestBudget(ops[1..]))
    else LargestBudget(ops[1..])
  }

  /** A promotion succeeds if and only if the key and the source are good, the scan
      is done, the total with the old copy replaced by the new one fits the
      budget, and the move works.  Then the source has become the key's file,
      indexed at its size, as accessed now, under a generation never used
      before, and nothing else has changed; otherwise nothing has. */
  lemma PromoteLaw(s: StoreState, key: string, src: nat, budget: int, now: int, moveFails: bool)
    requires Valid(s)
    ensures var (s', r) := Promote(s, key, src, budget, now, moveFails);
            var replaced := if key in s.entries then s.entries[key].size else 0;
            && (r == Promoted <==>
                  && KeyValid(key) && src in s.tmp && s.tmp[src].Regular? && s.ready && !moveFails
                  && s.bytes - replaced + |s.tmp[src].data| <= budget)
            && (r != Promoted ==> s' == s)
            && (r == Promoted ==>
                  && s'.bytes == s.bytes - replaced + |s.tmp[src].data|
                  && s'.tmp == s.tmp - {src} && s'.ready
                  && s'.disk == s.disk[PathOf(key) := s.tmp[src]]
                  && key in s'.entries && s'.entries - {key} == s.entries - {key}
                  && s'.entries[key].size == |s.tmp[src].data| && s'.entries[key].lastAccess == now
                  && (forall k :: k in s.entries ==> s.entries[k].gen < s'.entries[key].gen))
  {
    hide Total;
  }

  lemma ApplyBytes(s: StoreState, op: Op)
    requires Valid(s)
    ensures var s' := Apply(s, op);
            s'.bytes <= s.bytes + Adopted(s, op) || (op.Promoting? && s'.bytes <= op.budget)
  {
  }

  /** Over any run, with any budgets and any interleaving of keys, the indexed
      total never exceeds what was there, or the largest budget used, plus what
      scans adopt. */
  lemma {:induction false} RunBudget(s: StoreState, ops: seq<Op>)
    requires Valid(s)
    ensures Run(s, ops).bytes <= Max(s.bytes, LargestBudget(ops)) + AdoptedIn(s, ops)
    decreases |ops|
  {
    if ops != [] {
      ApplyKeepsValid(s, ops[0]);
      ApplyBytes(s, ops[0]);
      RunBudget(Apply(s, ops[0]), ops[1..]);
      hide Apply, Adopted;
    }
  }

  // ----------------------------------------------------------- generations

  predicate PromotesKey(s: StoreState, op: Op, key: string) {
    && op.Promoting? && op.key == key
    && Promote(s, op.key, op.src, op.budget, op.now, op.moveFails).1 == Promoted
  }

  predicate PromotedIn(s: StoreState, ops: seq<Op>, key: string)
    decreases |ops|
  {
    ops != [] && (PromotesKey(s, ops[0], key) || PromotedIn(Apply(s, ops[0]), ops[1..], key))
  }

  /** The key is not indexed, or only as something newer than generation `g`. */
  predicate NewerThan(s: StoreState, key: string, g: nat) {
    key in s.entries ==> s.entries[key].gen > g
  }

  lemma ApplyGenerations(s: StoreState, op: Op, key: string, g: nat)
    requires g <= s.genSeq
    ensures NewerThan(s, key, g) ==> NewerThan(Apply(s, op), key, g)
    ensures PromotesKey(s, op, key) ==> NewerThan(Apply(s, op), key, g)
    ensures g <= Apply(s, op).genSeq
  {
  }

  lemma {:induction false} RunGenerations(s: StoreState, ops: seq<Op>, key: string, g: nat)
    requires g <= s.genSeq
    requires NewerThan(s, key, g) || PromotedIn(s, ops, key)
    ensures NewerThan(Run(s, ops), key, g)
    decreases |ops|
  {
    if ops != [] {
      ApplyGenerations(s, ops[0], key, g);
      RunGenerations(Apply(s, ops[0]), ops[1..], key, g);
    }
  }

  /** An eviction planned from an old snapshot of the index touches neither the
      file nor the entry when the key was promoted again since, no matter what
      else happened in between (the key may have been dropped and come back). */
  lemma StaleEvictionIsSafe(s: StoreState, ops: seq<Op>, key: string, fails: bool)
    requires Valid(s) && key in s.entries
    requires PromotedIn(s, ops, key)
    ensures var s' := Run(s, ops);
            DropGen(s', key, s.entries[key].gen, fails) == (s', false)
  {
    RunGenerations(s, ops, key, s.entries[key].gen);
  }

  /** The same for a key that was dropped, whether or not it came back. */
  lemma DroppedGenerationIsDead(s: StoreState, ops: seq<Op>, key: string, g: nat, fails: bool)
    requires Valid(s) && g <= s.genSeq && key !in s.entries
    ensures var s' := Run(s, ops);
            DropGen(s', key, g, fails) == (s', false)
  {
    RunGenerations(s, ops, key, g);
  }

  // ------------------------------------------------------ index and directory

  /** Every regular file at a key's own position is indexed. */
  ghost predicate Covered(s: StoreState) {
    forall k {:trigger k in s.entries} {:trigger PathOf(k)} ::
      KeyValid(k) && PathOf(k) in s.disk && s.disk[PathOf(k)].Regular? ==> k in s.entries
  }

  /** Every entry has its file, of the recorded size. */
  ghost predicate Backed(s: StoreState) {
    forall k :: k in s.entries ==> KeyValid(k) && Matches(s, k)
  }

  lemma PathInjective(j: string, k: string)
    requires |j| >= 4 && |k| >= 4
    ensures PathOf(j) == PathOf(k) <==> j == k
  {
    assert PathOf(j)[2] == j && PathOf(k)[2] == k;
  }

  lemma UnlinkLaw(s: StoreState, key: string, k: string, fails: bool)
    requires KeyValid(k)
    ensures var (disk, removed, ok) := Unlink(s.disk, key, fails);
            && (k != key || !ok ==> (PathOf(k) in disk <==> PathOf(k) in s.disk)
                                    && (PathOf(k) in disk ==> disk[PathOf(k)] == s.disk[PathOf(k)]))
            && (k == key && ok ==> PathOf(k) !in disk)
  {
    if KeyValid(key) { PathInjective(key, k); }
  }

  /** A purge that reports success leaves neither file nor entry, and one that
      fails leaves everything; no other key is affected either way. */
  lemma DropLaw(s: StoreState, key: string, fails: bool, k: string)
    requires KeyValid(k)
    ensures var (s', ok) := Drop(s, key, fails);
            && (!ok ==> s' == s)
            && (ok ==> key !in s'.entries && (KeyValid(key) ==> PathOf(key) !in s'.disk))
            && (k != key ==> (k in s'.entries <==> k in s.entries)
                             && (k in s.entries ==> s'.entries[k] == s.entries[k])
                             && (PathOf(k) in s'.disk <==> PathOf(k) in s.disk)
                             && (PathOf(k) in s.disk ==> s'.disk[PathOf(k)] == s.disk[PathOf(k)]))
  {
    UnlinkLaw(s, key, k, fails);
  }

  /** A generation-checked drop acts exactly when the entry is still the one
      observed and the unlink works; then it is a drop, otherwise nothing. */
  lemma DropGenLaw(s: StoreState, key: string, gen: nat, fails: bool)
    requires Valid(s)
    ensures var (s', acted) := DropGen(s, key, gen, fails);
            && (acted <==> key in s.entries && s.entries[key].gen == gen && !fails)
            && s' == (if acted then Drop(s, key, false).0 else s)
  {
  }

  predicate CoveredAt(s: StoreState, k: string) {
    KeyValid(k) && PathOf(k) in s.disk && s.disk[PathOf(k)].Regular? ==> k in s.entries
  }

  lemma DropKeepsCovered(s: StoreState, key: string, gen: nat, fails: bool, k: string)
    requires CoveredAt(s, k)
    ensures CoveredAt(Drop(s, key, fails).0, k) && CoveredAt(DropGen(s, key, gen, fails).0, k)
  {
    if KeyValid(k) { UnlinkLaw(s, key, k, fails); }
  }

  lemma PutKeepsCovered(s: StoreState, op: Op, k: string)
    requires CoveredAt(s, k) && (op.Promoting? || op.Tampering?)
    ensures CoveredAt(Apply(s, op), k)
  {
    if KeyValid(op.key) && KeyValid(k) { PathInjective(op.key, k); }
  }

  lemma ApplyKeepsCovered(s: StoreState, op: Op)
    requires Covered(s)
    ensures Covered(Apply(s, op))
  {
    var s' := Apply(s, op);
    forall k ensures CoveredAt(s', k) {
      assert CoveredAt(s, k);
      match op
      case Promoting(_, _, _, _, _) => PutKeepsCovered(s, op, k); hide *;
      case Tampering(_, _) => PutKeepsCovered(s, op, k); hide *;
      case Dropping(key, fails) => DropKeepsCovered(s, key, 0, fails, k); hide Drop;
      case Evicting(key, gen, fails) => DropKeepsCovered(s, key, gen, fails, k); hide DropGen;
      case Visiting(v, now) => VisitKeepsCovered(s, v, now, k); hide VisitFile;
      case _ => hide Drop, DropGen, VisitFile, Promote;
    }
    hide Apply;
  }

  lemma VisitKeepsCovered(s: StoreState, v: Visit, now: int, k: string)
    requires CoveredAt(s, k)
    ensures CoveredAt(VisitFile(s, v, now), k)
  {
  }

  /** Once the index covers the directory it never undercounts it again. */
  lemma {:induction false} RunKeepsCovered(s: StoreState, ops: seq<Op>)
    requires Covered(s)
    ensures Covered(Run(s, ops))
    decreases |ops|
  {
    if ops != [] {
      ApplyKeepsCovered(s, ops[0]);
      RunKeepsCovered(Apply(s, ops[0]), ops[1..]);
    }
  }

  /** Nothing makes a file disappear or change from under its entry. */
  predicate Undisturbed(op: Op) { !op.Tampering? && (op.Visiting? ==> op.visit.outcome != Vanished) }

  lemma PromoteKeepsBacked(s: StoreState, key: string, src: nat, budget: int, now: int, moveFails: bool)
    requires Backed(s)
    ensures Backed(Promote(s, key, src, budget, now, moveFails).0)
  {
    var (s', r) := Promote(s, key, src, budget, now, moveFails);
    forall k | k in s'.entries ensures KeyValid(k) && Matches(s', k) {
      if r == Promoted && k != key {
        PathInjective(key, k);
        assert KeyValid(k) && Matches(s, k);
      }
    }
  }

  lemma DropKeepsBacked(s: StoreState, key: string, fails: bool)
    requires Backed(s)
    ensures Backed(Drop(s, key, fails).0)
  {
    var s' := Drop(s, key, fails).0;
    forall k | k in s'.entries ensures KeyValid(k) && Matches(s', k) {
      assert KeyValid(k) && Matches(s, k);
      DropLaw(s, key, fails, k);
    }
  }

  lemma DropGenKeepsBacked(s: StoreState, key: string, gen: nat, fails: bool)
    requires Valid(s) && Backed(s)
    ensures Backed(DropGen(s, key, gen, fails).0)
  {
    DropGenLaw(s, key, gen, fails);
    DropKeepsBacked(s, key, false);
  }

  /** Every entry has its file, of the recorded size, except those of `lost`. */
  ghost predicate BackedBut(s: StoreState, lost: set<string>) {
    forall k :: k in s.entries ==> KeyValid(k) && (k in lost || Matches(s, k))
  }

  /** The key of a cached file that vanishes while the walk looks at it. */
  function LostAt(v: Visit): set<string> {
    if v.outcome == Vanished && KeyValid(Name(v.path)) && PathOf(Name(v.path)) == v.path then {Name(v.path)} else {}
  }

  lemma VisitKeepsBackedBut(s: StoreState, v: Visit, now: int, lost: set<string>)
    requires BackedBut(s, lost) && LostAt(v) <= lost
    ensures BackedBut(VisitFile(s, v, now), lost)
  {
    var s' := VisitFile(s, v, now);
    forall k | k in s'.entries ensures KeyValid(k) && (k in lost || Matches(s', k)) {
      assert KeyValid(k) ==> PathOf(k)[2] == k && Name(PathOf(k)) == k;
      if k in s.entries { assert KeyValid(k) && (k in lost || Matches(s, k)); }
    }
  }

  lemma ApplyKeepsBacked(s: StoreState, op: Op)
    requires Valid(s) && Backed(s) && Undisturbed(op)
    ensures Backed(Apply(s, op))
  {
    match op
    case Promoting(key, src, budget, now, moveFails) => PromoteKeepsBacked(s, key, src, budget, now, moveFails);
    case Dropping(key, fails) => DropKeepsBacked(s, key, fails);
    case Evicting(key, gen, fails) => DropGenKeepsBacked(s, key, gen, fails);
    case Visiting(v, now) =>
      assert BackedBut(s, {});
      VisitKeepsBackedBut(s, v, now, {});
      assert BackedBut(Apply(s, op), {});
    case Tampering(_, _) =>
      assert false;
    case _ =>
      forall k | k in Apply(s, op).entries ensures KeyValid(k) && Matches(Apply(s, op), k) {
        assert KeyValid(k) && Matches(s, k);
      }
  }

  lemma {:induction false} RunKeepsBacked(s: StoreState, ops: seq<Op>)
    requires Valid(s) && Backed(s)
    requires forall i :: 0 <= i < |ops| ==> Undisturbed(ops[i])
    ensures Backed(Run(s, ops))
    decreases |ops|
  {
    if ops != [] {
      ApplyKeepsValid(s, ops[0]);
      ApplyKeepsBacked(s, ops[0]);
      RunKeepsBacked(Apply(s, ops[0]), ops[1..]);
    }
  }

  // ------------------------------------------------------------------ scan

  function ScanOps(walk: seq<Visit>, now: int): seq<Op> {
    if walk == [] then [FinishScan]
    else if walk[0].outcome == Abort then []
    else [Visiting(walk[0], now)] + ScanOps(walk[1..], now)
  }

  /** A scan is a run of its steps, so everything said about runs holds of it. */
  lemma {:induction false} ScanIsRun(s: StoreState, walk: seq<Visit>, now: int)
    ensures Scanned(s, walk, now).0 == Run(s, ScanOps(walk, now))
    decreases |walk|
  {
    if walk != [] && walk[0].outcome != Abort {
      ScanIsRun(VisitFile(s, walk[0], now), walk[1..], now);
      assert ScanOps(walk, now)[1..] == ScanOps(walk[1..], now);
    } else if walk == [] {
      assert Run(s, [FinishScan]) == Run(s.(ready := true), []);
    }
  }

  /** The walk meets every file of the directory. */
  ghost predicate Complete(s: StoreState, walk: seq<Visit>) {
    forall p :: p in s.disk ==> exists i :: 0 <= i < |walk| && walk[i].path == p
  }

  predicate Canonical(p: Path, f: File) {
    f.Regular? && KeyValid(Name(p)) && p == PathOf(Name(p))
  }

  /** The paths whose removal fails during the walk. */
  function Stuck(walk: seq<Visit>): set<Path> { set v | v in walk && v.outcome == RemoveFails :: v.path }

  /** Files not still ahead of `walk` are indexed if they are the cache's, and
      undeletable if they are strays. */
  ghost predicate SettledBut(s: StoreState, walk: seq<Visit>, stuck: set<Path>) {
    forall p :: p in s.disk && (forall i :: 0 <= i < |walk| ==> walk[i].path != p) ==>
      if Canonical(p, s.disk[p]) then Name(p) in s.entries else p in stuck
  }

  lemma VisitSettles(s: StoreState, walk: seq<Visit>, now: int, stuck: set<Path>)
    requires walk != [] && SettledBut(s, walk, stuck)
    requires walk[0].outcome == RemoveFails ==> walk[0].path in stuck
    ensures SettledBut(VisitFile(s, walk[0], now), walk[1..], stuck)
  {
    var s1 := VisitFile(s, walk[0], now);
    forall p | p in s1.disk && (forall i :: 0 <= i < |walk[1..]| ==> walk[1..][i].path != p)
      ensures if Canonical(p, s1.disk[p]) then Name(p) in s1.entries else p in stuck
    {
      if p != walk[0].path {
        forall i | 0 <= i < |walk| ensures walk[i].path != p {
          if i > 0 { assert walk[1..][i - 1].path != p; }
        }
      }
    }
  }

  lemma {:induction false} ScanSettles(s: StoreState, walk: seq<Visit>, now: int, stuck: set<Path>)
    requires SettledBut(s, walk, stuck) && Stuck(walk) <= stuck
    ensures Scanned(s, walk, now).1 ==> SettledBut(Scanned(s, walk, now).0, [], stuck)
    decreases |walk|
  {
    if walk == [] {
      var s' := s.(ready := true);
      assert SettledBut(s', [], stuck);
    } else if walk[0].outcome != Abort {
      VisitSettles(s, walk, now, stuck);
      hide VisitFile, SettledBut;
      ScanSettles(VisitFile(s, walk[0], now), walk[1..], now, stuck);
    }
  }

  lemma {:induction false} ScanOnlyRemoves(s: StoreState, walk: seq<Visit>, now: int)
    ensures var (s', ok) := Scanned(s, walk, now);
            && (forall p :: p in s'.disk ==> p in s.disk && s'.disk[p] == s.disk[p])
            && (forall k :: k in s.entries ==> k in s'.entries && s'.entries[k] == s.entries[k])
            && (forall k :: k in s'.entries && k !in s.entries ==>
                  s'.entries[k].lastAccess == now && s'.entries[k].gen > s.genSeq)
            && (ok ==> s'.ready) && (!ok ==> s'.ready == s.ready)
            && s'.tmp == s.tmp && s'.genSeq >= s.genSeq
    decreases |walk|
  {
    if walk != [] && walk[0].outcome != Abort {
      ScanOnlyRemoves(VisitFile(s, walk[0], now), walk[1..], now);
    }
  }

  /** A scan of any directory, after any number of scans that stopped half-way:
      when one completes, the index covers the directory, the store is ready,
      nothing was counted twice, no cached file was altered, and the directory
      holds nothing but files at their keys' own positions and the strays that
      could not be removed. */
  lemma ScanMakesIndexAuthoritative(s: StoreState, walk: seq<Visit>, now: int)
    requires Valid(s) && Complete(s, walk)
    ensures var (s', ok) := Scanned(s, walk, now);
            && Valid(s')
            && (forall p :: p in s'.disk ==> p in s.disk && s'.disk[p] == s.disk[p])
            && (forall k :: k in s.entries ==> k in s'.entries && s'.entries[k] == s.entries[k])
            && (!ok ==> s'.ready == s.ready)
            && (ok ==> s'.ready && Covered(s')
                       && forall p :: p in s'.disk ==>
                            if Canonical(p, s'.disk[p]) then Name(p) in s'.entries else p in Stuck(walk))
  {
    ScanIsRun(s, walk, now);
    RunKeepsValid(s, ScanOps(walk, now));
    ScanOnlyRemoves(s, walk, now);
    ScanSettles(s, walk, now, Stuck(walk));
    var (s', ok) := Scanned(s, walk, now);
    hide Scanned;
    if ok {
      forall k | KeyValid(k) && PathOf(k) in s'.disk && s'.disk[PathOf(k)].Regular? ensures k in s'.entries {
        assert Name(PathOf(k)) == k;
      }
    }
  }

  function Lost(walk: seq<Visit>): set<string> {
    if walk == [] then {} else LostAt(walk[0]) + Lost(walk[1..])
  }

  lemma {:induction false} ScanKeepsBackedBut(s: StoreState, walk: seq<Visit>, now: int, lost: set<string>)
    requires BackedBut(s, lost) && Lost(walk) <= lost
    ensures BackedBut(Scanned(s, walk, now).0, lost)
    decreases |walk|
  {
    if walk == [] {
      var s' := s.(ready := true);
      assert forall k :: k in s.entries && KeyValid(k) && Matches(s, k) ==> Matches(s', k);
      assert BackedBut(s', lost);
    } else if walk[0].outcome != Abort {
      VisitKeepsBackedBut(s, walk[0], now, lost);
      ScanKeepsBackedBut(VisitFile(s, walk[0], now), walk[1..], now, lost);
    }
  }

  /** A key whose file only ever vanishes under the walk is not adopted. */
  lemma {:induction false} VanishedIsNotAdopted(s: StoreState, walk: seq<Visit>, now: int, key: string)
    requires KeyValid(key) && key !in s.entries
    requires forall i :: 0 <= i < |walk| && walk[i].path == PathOf(key) ==> walk[i].outcome == Vanished
    ensures key !in Scanned(s, walk, now).0.entries
    decreases |walk|
  {
    if walk != [] && walk[0].outcome != Abort {
      assert Name(PathOf(key)) == key;
      VanishedIsNotAdopted(VisitFile(s, walk[0], now), walk[1..], now, key);
    }
  }

  /** The walk meets no path twice. */
  predicate Once(walk: seq<Visit>) { forall i, j :: 0 <= i < j < |walk| ==> walk[i].path != walk[j].path }

  lemma {:induction false} LostVanished(walk: seq<Visit>, key: string) returns (i: nat)
    requires key in Lost(walk)
    ensures i < |walk| && key in LostAt(walk[i])
  {
    if key in LostAt(walk[0]) { return 0; }
    var j := LostVanished(walk[1..], key);
    i := j + 1;
  }

  /** A first scan that completes indexes exactly files that are there. */
  lemma FirstScanIsBacked(s: StoreState, walk: seq<Visit>, now: int)
    requires s.entries == map[] && Once(walk)
    ensures Backed(Scanned(s, walk, now).0)
  {
    var s' := Scanned(s, walk, now).0;
    ScanKeepsBackedBut(s, walk, now, Lost(walk));
    forall k | k in s'.entries ensures KeyValid(k) && Matches(s', k) {
      if k in Lost(walk) {
        var i := LostVanished(walk, k);
        forall j | 0 <= j < |walk| && walk[j].path == PathOf(k) ensures walk[j].outcome == Vanished {
          assert j == i;
        }
        VanishedIsNotAdopted(s, walk, now, k);
        assert false;
      }
    }
  }

  /** A failed scan and its retry together: the byte count comes out as the sum
      over exactly the files that are there, and those that vanished from under
      the walks after they were indexed. */
  lemma RetriedScanIsExact(s: StoreState, first: seq<Visit>, second: seq<Visit>, now: int, later: int)
    requires Valid(s) && Backed(s)
    requires Complete(Scanned(s, first, now).0, second)
    ensures var s1 := Scanned(s, first, now).0;
            var (s2, ok) := Scanned(s1, second, later);
            ok ==> Valid(s2) && BackedBut(s2, Lost(first) + Lost(second)) && Covered(s2)
  {
    var s1 := Scanned(s, first, now).0;
    var lost := Lost(first) + Lost(second);
    ScanIsRun(s, first, now);
    RunKeepsValid(s, ScanOps(first, now));
    assert BackedBut(s, lost);
    ScanKeepsBackedBut(s, first, now, lost);
    ScanKeepsBackedBut(s1, second, later, lost);
    ScanMakesIndexAuthoritative(s1, second, later);
  }

  /** What the scan has to go by is the file alone: it adopts whatever regular file
      stands at a key's position, at the size it finds, and lookups then serve it,
      also one that was cut short while the program was down. */
  lemma ScanAdoptsAnySize(s: StoreState, key: string, data: Bytes, now: int, later: int)
    requires s.entries == map[] && KeyValid(key) && s.disk == map[PathOf(key) := Regular(data)]
    ensures var (s', ok) := Scanned(s, [Visit(PathOf(key), Fine)], now);
            && ok && (forall k :: k in s'.entries ==> KeyValid(k))
            && Lookup(s', key, later, NoFault, false).1 == Some(data)
  {
    var walk := [Visit(PathOf(key), Fine)];
    assert Name(PathOf(key)) == key && walk[1..] == [];
    var s1 := VisitFile(s, walk[0], now);
    assert Scanned(s1, [], now) == (s1.(ready := true), true);
  }

  // ---------------------------------------------------------------- lookup

  /** An uninterrupted lookup serves the file of the recorded size and refreshes
      only that entry's clock; a miss, be it for an I/O error on a good file,
      leaves no entry behind unless the unlink failed, and never touches
      another key. */
  lemma LookupLaw(s: StoreState, key: string, now: int, fault: Fault, fails: bool)
    requires Valid(s)
    ensures var (s', r) := Lookup(s, key, now, fault, fails);
            && (r.Some? <==> key in s.entries && Matches(s, key) && fault == NoFault)
            && (r.Some? ==>
                  && r.value == s.disk[PathOf(key)].data && |r.value| == s.entries[key].size
                  && key in s'.entries && s'.entries[key].lastAccess == now
                  && s'.entries[key].size == s.entries[key].size && s'.entries[key].gen == s.entries[key].gen
                  && s'.bytes == s.bytes && s'.disk == s.disk && s'.tmp == s.tmp
                  && s'.ready == s.ready && s'.genSeq == s.genSeq)
            && (r.None? && !fails ==> key !in s'.entries)
            && (r.None? && (fails || key !in s.entries) ==> s' == s)
            && (forall k :: k != key ==> (k in s'.entries <==> k in s.entries)
                                         && (k in s.entries ==> s'.entries[k] == s.entries[k]))
  {
    if key in s.entries {
      DropGenLaw(s, key, s.entries[key].gen, fails);
    }
  }

  lemma FullListHas(entries: map<string, Entry>, max: int, vs: seq<Victim>, key: string) returns (i: nat)
    requires LeastRecent(entries, max, vs) && |vs| == |entries| && key in entries
    ensures i < |vs| && vs[i] == VictimOf(entries, key)
  {
    assert KeysOf(vs) <= entries.Keys;
    DistinctSize(vs);
    SubsetIsAll(KeysOf(vs), entries.Keys);
    i := IndexOfKey(vs, key);
  }

  lemma {:induction false} DistinctSize(vs: seq<Victim>)
    requires DistinctKeys(vs)
    ensures |KeysOf(vs)| == |vs|
  {
    if vs != [] {
      var n := |vs| - 1;
      DistinctSize(vs[..n]);
      assert vs == vs[..n] + [vs[n]];
      assert KeysOf(vs) == KeysOf(vs[..n]) + {vs[n].key};
    }
  }

  lemma SubsetIsAll(a: set<string>, b: set<string>)
    requires a <= b && |a| == |b|
    ensures a == b
  {
    assert |b - a| == |b| - |a|;
  }

  /** What was just served is the last to be evicted: after a hit later than every
      other access, the key comes last in every full list of victims. */
  lemma HitGoesLast(s: StoreState, key: string, now: int, max: int, vs: seq<Victim>)
    requires Valid(s) && Lookup(s, key, now, NoFault, false).1.Some?
    requires forall k :: k in s.entries && k != key ==> s.entries[k].lastAccess < now
    requires var after := Lookup(s, key, now, NoFault, false).0.entries;
             LeastRecent(after, max, vs) && |vs| == |after|
    ensures vs != [] && vs[|vs| - 1].key == key
  {
    LookupLaw(s, key, now, NoFault, false);
    var after := Lookup(s, key, now, NoFault, false).0.entries;
    hide Lookup, Valid, Matches;
    var i := FullListHas(after, max, vs, key);
    var last := vs[|vs| - 1];
    assert last.key in after && last == VictimOf(after, last.key);
    assert vs[i].lastAccess <= last.lastAccess;
  }

  // -------------------------------------------------------------- eviction

  function SizeSum(vs: seq<Victim>): nat {
    if vs == [] then 0 else vs[0].size + SizeSum(vs[1..])
  }

  /** The victims whose unlink does not fail. */
  function Movable(vs: seq<Victim>, stuck: set<string>): seq<Victim> {
    if vs == [] then [] else (if vs[0].key in stuck then [] else [vs[0]]) + Movable(vs[1..], stuck)
  }

  /** Where the files of valid keys are. */
  function Places(keys: set<string>): set<Path> { set k | k in keys && KeyValid(k) :: PathOf(k) }

  lemma EvictFirst(s: StoreState, vs: seq<Victim>, stuck: set<string>)
    requires Valid(s) && Describes(vs, s.entries) && DistinctKeys(vs) && vs != []
    ensures var v := vs[0]; var (s1, acted) := DropGen(s, v.key, v.gen, v.key in stuck);
            && (acted <==> v.key !in stuck)
            && Valid(s1) && Describes(vs[1..], s1.entries) && DistinctKeys(vs[1..])
            && (if acted then
                  && s1.bytes == s.bytes - v.size && s1.entries == s.entries - {v.key}
                  && s1.disk == s.disk - Places({v.key})
                else s1 == s)
  {
    DropGenKeepsValid(s, vs[0].key, vs[0].gen, vs[0].key in stuck);
    var s1 := DropGen(s, vs[0].key, vs[0].gen, vs[0].key in stuck).0;
    assert KeyValid(vs[0].key);
    assert Places({vs[0].key}) == {PathOf(vs[0].key)};
    forall i | 0 <= i < |vs[1..]|
      ensures vs[1..][i].key in s1.entries && vs[1..][i] == VictimOf(s1.entries, vs[1..][i].key)
    {
      assert vs[1..][i] == vs[i + 1];
    }
  }

  lemma PrefixStep(vs: seq<Victim>, m: nat, stuck: set<string>)
    requires m < |vs|
    ensures var was, now := Movable(vs[1..][..m], stuck), Movable(vs[..m + 1], stuck);
            if vs[0].key in stuck then now == was
            else
              && |now| == |was| + 1 && SizeSum(now) == vs[0].size + SizeSum(was)
              && KeysOf(now) == {vs[0].key} + KeysOf(was)
  {
    assert vs[..m + 1][1..] == vs[1..][..m];
    var was := Movable(vs[1..][..m], stuck);
    if vs[0].key in stuck {
      assert [] + was == was;
    } else {
      assert ([vs[0]] + was)[1..] == was;
    }
  }

  lemma EvictStep(s: StoreState, vs: seq<Victim>, target: int, stuck: set<string>)
    requires vs != [] && s.bytes > target
    ensures var (s1, acted) := DropGen(s, vs[0].key, vs[0].gen, vs[0].key in stuck);
            var r := EvictTo(s1, vs[1..], target, stuck);
            EvictTo(s, vs, target, stuck) == (r.0, r.1 + (if acted then 1 else 0), r.2 + if acted then vs[0].size else 0)
  {
    hide DropGen;
  }

  /** The batch that nobody interferes with: it works through a prefix of the
      snapshot, going on past every victim whose unlink fails, drops exactly the
      others, counts them and their bytes, and neither stops early nor goes one
      victim too far. */
  lemma {:induction false} EvictPrefix(s: StoreState, vs: seq<Victim>, target: int, stuck: set<string>) returns (n: nat)
    requires Valid(s) && Describes(vs, s.entries) && DistinctKeys(vs)
    ensures n <= |vs|
    ensures var (s', count, freed) := EvictTo(s, vs, target, stuck); var dropped := Movable(vs[..n], stuck);
            && count == |dropped| && freed == SizeSum(dropped)
            && s'.bytes == s.bytes - freed
            && s'.entries == s.entries - KeysOf(dropped)
            && s'.disk == s.disk - Places(KeysOf(dropped))
            && (s'.bytes <= target || n == |vs|)
    ensures n > 0 ==> s.bytes - SizeSum(Movable(vs[..n - 1], stuck)) > target
    decreases |vs|
  {
    if vs == [] || s.bytes <= target {
      n := 0;
      assert KeysOf(Movable(vs[..0], stuck)) == {} && Places({}) == {};
    } else {
      hide DropGen, EvictTo, KeysOf, Describes, DistinctKeys, Valid, Movable, Places;
      var s1 := DropGen(s, vs[0].key, vs[0].gen, vs[0].key in stuck).0;
      EvictFirst(s, vs, stuck);
      EvictStep(s, vs, target, stuck);
      var m := EvictPrefix(s1, vs[1..], target, stuck);
      n := m + 1;
      PrefixStep(vs, m, stuck);
      Without(s, vs[0].key, KeysOf(Movable(vs[1..][..m], stuck)));
      assert Movable(vs[..0], stuck) == [] by { NothingMovable(vs, stuck); }
      if m > 0 { PrefixStep(vs, m - 1, stuck); }
      hide SizeSum;
    }
  }

  lemma NothingMovable(vs: seq<Victim>, stuck: set<string>)
    ensures Movable(vs[..0], stuck) == []
  {
  }

  lemma Without(s: StoreState, key: string, keys: set<string>)
    ensures s.entries - {key} - keys == s.entries - ({key} + keys)
    ensures s.disk - Places({key}) - Places(keys) == s.disk - Places({key} + keys)
  {
    assert Places({key} + keys) == Places({key}) + Places(keys);
  }

  /** Eviction is least-recently-used: whatever survives a batch was accessed no
      earlier than anything the batch dropped. */
  lemma SurvivorsAreFresher(s: StoreState, max: int, vs: seq<Victim>, n: nat, gone: string, kept: string)
    requires LeastRecent(s.entries, max, vs) && n <= |vs|
    requires gone in KeysOf(vs[..n])
    requires kept in s.entries && kept !in KeysOf(vs[..n])
    ensures gone in s.entries && s.entries[gone].lastAccess <= s.entries[kept].lastAccess
  {
    var i := IndexOfKey(vs[..n], gone);
    assert vs[..n][i] == vs[i];
    forall a | 0 <= a < n ensures vs[a].key in KeysOf(vs[..n]) {
      KeyAt(vs[..n], a);
    }
    if kept in KeysOf(vs) {
      var j := IndexOfKey(vs, kept);
      assert j >= n;
    }
  }
}
