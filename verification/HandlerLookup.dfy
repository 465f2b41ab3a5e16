/** The step-wise lookup of a request, when nothing comes between its steps, is the
    store's own `Open`. */
module HandlerLookup {
  import opened Base
  import opened CacheStore
  import opened Handlers

  /** The steps a lookup still has to its end, at most. */
  function StepsLeft(pc: Pc): nat {
    match pc
    case ReadEntry(_) => 5
    case Lstat(_, _, _) => 4
    case OpenFile(_, _, _) => 3
    case Fstat(_, _, _, _) => 2
    case TouchEntry(_, _) => 1
    case Heal(_, _) => 1
    case _ => 0
  }

  /** Whether the step at `pc` fails, when the lookup meets this fault and `fails`
      is the fate of the unlink that heals. */
  predicate FailsAt(pc: Pc, fault: Fault, fails: bool) {
    match pc
    case Lstat(_, _, _) => fault == LstatFails
    case OpenFile(_, _, _) => fault == OpenFails
    case Fstat(_, _, _, _) => fault == FstatFails
    case Heal(_, _) => fails
    case _ => false
  }

  function Fate(pc: Pc, now: int, fault: Fault, fails: bool): Choice {
    Choice(FailsAt(pc, fault, fails), Signalled, 1, 0, 0, now)
  }

  /** The state after the next step of such a lookup. */
  function Next(env: Env, s: State, id: nat, now: int, fault: Fault, fails: bool): State
    requires id in s.reqs
  {
    Exec(env, s, id, Fate(s.reqs[id].pc, now, fault, fails))
  }

  /** The request's own steps to the end of its lookup, nothing between them. */
  function Alone(env: Env, s: State, id: nat, now: int, fault: Fault, fails: bool): State
    requires id in s.reqs
    decreases StepsLeft(s.reqs[id].pc)
  {
    var r := s.reqs[id];
    if !InLookup(r.pc) then s
    else
      LookupAdvances(s, r, Fate(r.pc, now, fault, fails));
      Alone(env, Next(env, s, id, now, fault, fails), id, now, fault, fails)
  }

  lemma LookupAdvances(s: State, r: Req, c: Choice)
    requires InLookup(r.pc)
    ensures StepsLeft(NextLookup(s.store, r, c).pc) < StepsLeft(r.pc)
  {
  }

  /** What a lookup step may change at all. */
  predicate OnlyLookedUp(s: State, s': State, id: nat) {
    && s'.rows == s.rows && s'.gone == s.gone && s'.used == s.used && s'.flight == s.flight && s'.gate == s.gate
    && s'.limit == s.limit && s'.peak == s.peak && s'.counts == s.counts && s'.bumped == s.bumped
    && s'.strays == s.strays && s'.leaked <= s.leaked
    && id in s.reqs && id in s'.reqs && s'.reqs == s.reqs[id := s'.reqs[id]]
  }

  lemma LookupExec(env: Env, s: State, id: nat, c: Choice)
    requires id in s.reqs && InLookup(s.reqs[id].pc)
    ensures var r, s' := s.reqs[id], Exec(env, s, id, c);
            && OnlyLookedUp(s, s', id)
            && s'.reqs[id] == NextLookup(s.store, r, c)
            && s'.store == (match r.pc
                            case TouchEntry(_, _) => Touch(s.store, r.cacheKey, c.now)
                            case Heal(_, gen) => DropGen(s.store, r.cacheKey, gen, c.fails).0
                            case _ => s.store)
  {
    hide CacheKeys, NextLookup;
  }

  /** The lookup came to its end: the store is `store` and the request goes on at `pc`. */
  predicate EndsAs(s: State, s': State, id: nat, store: StoreState, pc: Pc) {
    OnlyLookedUp(s, s', id) && s'.store == store && s'.reqs[id] == s.reqs[id].(pc := pc)
  }

  /** Where a hit goes on: it serves, after giving back its slot if it has one. */
  function Hit(at: Where, fd: Bytes): Pc { if at == InLoop then Serve(fd) else ReleaseForHit(fd) }

  lemma OneStep(env: Env, s: State, id: nat, now: int, fault: Fault, fails: bool)
    requires id in s.reqs && InLookup(s.reqs[id].pc)
    ensures var r, s1 := s.reqs[id], Next(env, s, id, now, fault, fails);
            && OnlyLookedUp(s, s1, id) && id in s1.reqs
            && s1.reqs[id] == NextLookup(s.store, r, Fate(r.pc, now, fault, fails))
            && Alone(env, s, id, now, fault, fails) == Alone(env, s1, id, now, fault, fails)
            && (!r.pc.TouchEntry? && !r.pc.Heal? ==> s1.store == s.store)
  {
    var r := s.reqs[id];
    LookupExec(env, s, id, Fate(r.pc, now, fault, fails));
    hide Exec, NextLookup, OnlyLookedUp;
  }

  lemma FromHeal(env: Env, s: State, id: nat, now: int, fault: Fault, fails: bool)
    requires id in s.reqs && s.reqs[id].pc.Heal?
    ensures var r := s.reqs[id];
            EndsAs(s, Alone(env, s, id, now, fault, fails), id,
                   DropGen(s.store, r.cacheKey, r.pc.gen, fails).0, Miss(r.pc.at))
  {
    var r := s.reqs[id];
    LookupExec(env, s, id, Fate(r.pc, now, fault, fails));
    OneStep(env, s, id, now, fault, fails);
    hide Exec, OnlyLookedUp, DropGen;
  }

  lemma FromTouch(env: Env, s: State, id: nat, now: int, fault: Fault, fails: bool)
    requires id in s.reqs && s.reqs[id].pc.TouchEntry?
    ensures var r := s.reqs[id];
            EndsAs(s, Alone(env, s, id, now, fault, fails), id,
                   Touch(s.store, r.cacheKey, now), Hit(r.pc.at, r.pc.fd))
  {
    var r := s.reqs[id];
    LookupExec(env, s, id, Fate(r.pc, now, fault, fails));
    OneStep(env, s, id, now, fault, fails);
    hide Exec, OnlyLookedUp, Touch;
  }

  /** The lookup of what was indexed with generation `gen` ends as a hit that serves
      `fd`, or heals the entry and ends as a miss. */
  predicate Resolves(env: Env, s: State, id: nat, now: int, fault: Fault, fails: bool,
                     hit: bool, at: Where, gen: nat, fd: Bytes)
    requires id in s.reqs
  {
    var key := s.reqs[id].cacheKey;
    EndsAs(s, Alone(env, s, id, now, fault, fails), id,
           if hit then Touch(s.store, key, now) else DropGen(s.store, key, gen, fails).0,
           if hit then Hit(at, fd) else Miss(at))
  }

  lemma OneStepEarlier(env: Env, s: State, id: nat, now: int, fault: Fault, fails: bool,
                       hit: bool, at: Where, gen: nat, fd: Bytes)
    requires id in s.reqs && InLookup(s.reqs[id].pc) && !s.reqs[id].pc.TouchEntry? && !s.reqs[id].pc.Heal?
    requires id in Next(env, s, id, now, fault, fails).reqs
    requires Resolves(env, Next(env, s, id, now, fault, fails), id, now, fault, fails, hit, at, gen, fd)
    ensures Resolves(env, s, id, now, fault, fails, hit, at, gen, fd)
  {
    var s1, r := Next(env, s, id, now, fault, fails), s.reqs[id];
    OneStep(env, s, id, now, fault, fails);
    KeepsRest(s, r, Fate(r.pc, now, fault, fails));
    hide Exec, Next, Alone, NextLookup, Touch, DropGen, OnlyLookedUp, EndsAs;
    EndsEarlier(s, s1, Alone(env, s, id, now, fault, fails), id,
                if hit then Touch(s.store, r.cacheKey, now) else DropGen(s.store, r.cacheKey, gen, fails).0,
                if hit then Hit(at, fd) else Miss(at));
  }

  lemma KeepsRest(s: State, r: Req, c: Choice)
    requires InLookup(r.pc)
    ensures NextLookup(s.store, r, c) == r.(pc := NextLookup(s.store, r, c).pc)
  {
  }

  lemma EndsEarlier(s: State, s1: State, s2: State, id: nat, store: StoreState, pc: Pc)
    requires OnlyLookedUp(s, s1, id) && EndsAs(s1, s2, id, store, pc)
    requires s1.reqs[id] == s.reqs[id].(pc := s1.reqs[id].pc)
    ensures EndsAs(s, s2, id, store, pc)
  {
  }

  lemma FromFstat(env: Env, s: State, id: nat, now: int, fault: Fault, fails: bool)
    requires id in s.reqs && s.reqs[id].pc.Fstat?
    ensures var pc := s.reqs[id].pc;
            Resolves(env, s, id, now, fault, fails, fault != FstatFails && IsRegular(Some(pc.file), pc.size),
                     pc.at, pc.gen, if pc.file.Regular? then pc.file.data else "")
  {
    var pc := s.reqs[id].pc;
    var s1 := Next(env, s, id, now, fault, fails);
    OneStep(env, s, id, now, fault, fails);
    if s1.reqs[id].pc.Heal? {
      FromHeal(env, s1, id, now, fault, fails);
    } else {
      FromTouch(env, s1, id, now, fault, fails);
    }
    hide Exec, OnlyLookedUp, DropGen, Touch, Alone, EndsAs;
    OneStepEarlier(env, s, id, now, fault, fails, fault != FstatFails && IsRegular(Some(pc.file), pc.size),
                   pc.at, pc.gen, if pc.file.Regular? then pc.file.data else "");
  }

  /** What is at the key's position on disk, as bytes. */
  function BytesAt(store: StoreState, key: string): Bytes {
    var file := FileAt(store.disk, key);
    if file.Some? && file.value.Regular? then file.value.data else ""
  }

  lemma FromOpen(env: Env, s: State, id: nat, now: int, fault: Fault, fails: bool)
    requires id in s.reqs && s.reqs[id].pc.OpenFile?
    ensures var r := s.reqs[id]; var file := FileAt(s.store.disk, r.cacheKey);
            Resolves(env, s, id, now, fault, fails, fault !in {OpenFails, FstatFails} && IsRegular(file, r.pc.size),
                     r.pc.at, r.pc.gen, BytesAt(s.store, r.cacheKey))
  {
    var r := s.reqs[id];
    var file := FileAt(s.store.disk, r.cacheKey);
    var s1 := Next(env, s, id, now, fault, fails);
    OneStep(env, s, id, now, fault, fails);
    if s1.reqs[id].pc.Heal? {
      FromHeal(env, s1, id, now, fault, fails);
    } else {
      FromFstat(env, s1, id, now, fault, fails);
    }
    hide Exec, OnlyLookedUp, DropGen, Touch, Alone, EndsAs, FileAt;
    OneStepEarlier(env, s, id, now, fault, fails, fault !in {OpenFails, FstatFails} && IsRegular(file, r.pc.size),
                   r.pc.at, r.pc.gen, BytesAt(s.store, r.cacheKey));
  }

  lemma FromLstat(env: Env, s: State, id: nat, now: int, fault: Fault, fails: bool)
    requires id in s.reqs && s.reqs[id].pc.Lstat?
    ensures var r := s.reqs[id]; var file := FileAt(s.store.disk, r.cacheKey);
            Resolves(env, s, id, now, fault, fails, fault == NoFault && IsRegular(file, r.pc.size),
                     r.pc.at, r.pc.gen, BytesAt(s.store, r.cacheKey))
  {
    var r := s.reqs[id];
    var file := FileAt(s.store.disk, r.cacheKey);
    var s1 := Next(env, s, id, now, fault, fails);
    OneStep(env, s, id, now, fault, fails);
    if s1.reqs[id].pc.Heal? {
      FromHeal(env, s1, id, now, fault, fails);
    } else {
      FromOpen(env, s1, id, now, fault, fails);
    }
    hide Exec, OnlyLookedUp, DropGen, Touch, Alone, EndsAs, FileAt;
    OneStepEarlier(env, s, id, now, fault, fails, fault == NoFault && IsRegular(file, r.pc.size),
                   r.pc.at, r.pc.gen, BytesAt(s.store, r.cacheKey));
  }

  lemma LookupIs(store: StoreState, key: string, now: int, fault: Fault, fails: bool)
    requires Valid(store) && key in store.entries
    ensures var hit := fault == NoFault && IsRegular(FileAt(store.disk, key), store.entries[key].size);
            Lookup(store, key, now, fault, fails) ==
            if hit then (Touch(store, key, now), Some(BytesAt(store, key)))
            else (DropGen(store, key, store.entries[key].gen, fails).0, None)
  {
    hide Touch, DropGen;
  }

  /** A request whose lookup nothing interrupts does to the store what `Open` does,
      goes on with the bytes `Open` returns or as after a miss, and changes nothing
      else. */
  lemma LookupIsOpen(env: Env, s: State, id: nat, now: int, fault: Fault, fails: bool)
    requires Valid(s.store) && id in s.reqs && s.reqs[id].pc.ReadEntry?
    ensures var r, (store, fd) := s.reqs[id], Lookup(s.store, s.reqs[id].cacheKey, now, fault, fails);
            EndsAs(s, Alone(env, s, id, now, fault, fails), id, store,
                   if fd.Some? then Hit(r.pc.at, fd.value) else Miss(r.pc.at))
  {
    var r := s.reqs[id];
    var s1 := Next(env, s, id, now, fault, fails);
    OneStep(env, s, id, now, fault, fails);
    hide Exec, Next, DropGen, Touch;
    if r.cacheKey in s.store.entries {
      var entry, file := s.store.entries[r.cacheKey], FileAt(s.store.disk, r.cacheKey);
      FromLstat(env, s1, id, now, fault, fails);
      LookupIs(s.store, r.cacheKey, now, fault, fails);
      hide OnlyLookedUp, Alone, EndsAs, Lookup, Valid, FileAt, BytesAt;
      OneStepEarlier(env, s, id, now, fault, fails, fault == NoFault && IsRegular(file, entry.size),
                     r.pc.at, entry.gen, BytesAt(s.store, r.cacheKey));
    }
  }
}
