/** The fixed-window rate limiter, over whole runs of requests and sweeps. */
module RateLimits {
  import opened Base

  datatype Window = Window(count: int, resetAt: int)

  datatype Verdict = Verdict(allowed: bool, limit: int, remaining: int, resetAt: int)

  type Table = map<string, Window>

  /** The limiter's configuration; it never changes. */
  datatype Config = Config(max: int, window: nat)

  // ------------------------------------------------------------- the limiter

  function Check(t: Table, cfg: Config, key: string, now: int): (Table, Verdict) {
    if key !in t || now > t[key].resetAt then
      (t[key := Window(1, now + cfg.window)], Verdict(true, cfg.max, cfg.max - 1, now + cfg.window))
    else
      var w := Window(t[key].count + 1, t[key].resetAt);
      (t[key := w], Verdict(w.count <= cfg.max, cfg.max, Max(cfg.max - w.count, 0), w.resetAt))
  }

  function Cleanup(t: Table, now: int): Table { map k | k in t && now <= t[k].resetAt :: t[k] }

  class RateLimiter {
    var entries: Table
    const cfg: Config

    constructor (cfg: Config)
      ensures entries == map[] && this.cfg == cfg
    {
      entries := map[];
      this.cfg := cfg;
    }

    method CheckKey(key: string, now: int) returns (v: Verdict)
      modifies this
      ensures (entries, v) == Check(old(entries), cfg, key, now)
    {
      if key !in entries || now > entries[key].resetAt {
        entries := entries[key := Window(1, now + cfg.window)];
        return Verdict(true, cfg.max, cfg.max - 1, now + cfg.window);
      }
      var count := entries[key].count + 1;
      entries := entries[key := entries[key].(count := count)];
      var remaining := cfg.max - count;
      if remaining < 0 {
        remaining := 0;
      }
      return Verdict(count <= cfg.max, cfg.max, remaining, entries[key].resetAt);
    }

    method Sweep(now: int)
      modifies this
      ensures entries == Cleanup(old(entries), now)
    {
      var todo := entries.Keys;
      while todo != {}
        invariant todo <= old(entries).Keys
        invariant forall k :: k in entries <==> k in old(entries) && (k in todo || now <= old(entries)[k].resetAt)
        invariant forall k :: k in entries ==> entries[k] == old(entries)[k]
        decreases |todo|
      {
        var k :| k in todo;
        if k in entries && now > entries[k].resetAt {
          entries := entries - {k};
        }
        todo := todo - {k};
      }
    }
  }

  // -------------------------------------------------------------------- runs

  datatype Event = Request(key: string, at: int) | Sweeping(at: int)

  datatype Answer = Answer(key: string, at: int, verdict: Verdict)

  predicate Ordered(es: seq<Event>) { forall i, j :: 0 <= i < j < |es| ==> es[i].at <= es[j].at }

  /** What each request of the run is told, in order. */
  function Answers(t: Table, cfg: Config, es: seq<Event>): seq<Answer>
    decreases |es|
  {
    if es == [] then []
    else match es[0]
      case Request(key, at) =>
        var (t', v) := Check(t, cfg, key, at);
        [Answer(key, at, v)] + Answers(t', cfg, es[1..])
      case Sweeping(at) => Answers(Cleanup(t, at), cfg, es[1..])
  }

  function Requests(es: seq<Event>): seq<Event> {
    if es == [] then []
    else (if es[0].Request? then [es[0]] else []) + Requests(es[1..])
  }

  // ------------------------------------------------------------------ sweeps

  function Live(t: Table, key: string, now: int): Option<Window> {
    if key in t && now <= t[key].resetAt then Some(t[key]) else None
  }

  /** The tables cannot be told apart at or after `now`. */
  ghost predicate Alike(t: Table, u: Table, now: int) {
    forall k {:trigger Live(t, k, now)} {:trigger Live(u, k, now)} :: Live(t, k, now) == Live(u, k, now)
  }

  lemma AlikeLater(t: Table, u: Table, now: int, later: int)
    requires Alike(t, u, now) && now <= later
    ensures Alike(t, u, later)
  {
    forall k ensures Live(t, k, later) == Live(u, k, later) {
      assert Live(t, k, now) == Live(u, k, now);
    }
  }

  lemma CheckAlike(t: Table, u: Table, cfg: Config, key: string, now: int)
    requires Alike(t, u, now)
    ensures Check(t, cfg, key, now).1 == Check(u, cfg, key, now).1
    ensures Alike(Check(t, cfg, key, now).0, Check(u, cfg, key, now).0, now)
  {
    assert Live(t, key, now) == Live(u, key, now);
    var t', u' := Check(t, cfg, key, now).0, Check(u, cfg, key, now).0;
    forall k ensures Live(t', k, now) == Live(u', k, now) {
      assert Live(t, k, now) == Live(u, k, now);
    }
  }

  lemma CleanupAlike(t: Table, u: Table, now: int)
    requires Alike(t, u, now)
    ensures Alike(Cleanup(t, now), u, now)
  {
    forall k ensures Live(Cleanup(t, now), k, now) == Live(u, k, now) {
      assert Live(t, k, now) == Live(u, k, now);
    }
  }

  lemma {:induction false} SweepsAreInvisible(t: Table, u: Table, cfg: Config, es: seq<Event>)
    requires Ordered(es)
    requires es != [] ==> Alike(t, u, es[0].at)
    ensures Answers(t, cfg, es) == Answers(u, cfg, Requests(es))
    decreases |es|
  {
    if es != [] {
      var now := es[0].at;
      hide Check, Cleanup, Live, Alike;
      match es[0]
      case Request(key, _) =>
        CheckAlike(t, u, cfg, key, now);
        if |es| > 1 { AlikeLater(Check(t, cfg, key, now).0, Check(u, cfg, key, now).0, now, es[1].at); }
        SweepsAreInvisible(Check(t, cfg, key, now).0, Check(u, cfg, key, now).0, cfg, es[1..]);
        assert Requests(es)[1..] == Requests(es[1..]);
      case Sweeping(_) =>
        CleanupAlike(t, u, now);
        if |es| > 1 { AlikeLater(Cleanup(t, now), u, now, es[1].at); }
        SweepsAreInvisible(Cleanup(t, now), u, cfg, es[1..]);
        assert Requests(es) == Requests(es[1..]);
    }
  }

  /** Sweeping expired windows anywhere in a run changes no answer. */
  lemma CleanupChangesNothing(cfg: Config, es: seq<Event>)
    requires Ordered(es)
    ensures Answers(map[], cfg, es) == Answers(map[], cfg, Requests(es))
  {
    SweepsAreInvisible(map[], map[], cfg, es);
  }

  // ------------------------------------------------------------------ bounds

  /** How many of the key's requests in the closed interval were admitted. */
  function Admitted(answers: seq<Answer>, key: string, lo: int, hi: int): nat {
    if answers == [] then 0
    else
      var a := answers[0];
      (if a.key == key && lo <= a.at <= hi && a.verdict.allowed then 1 else 0) + Admitted(answers[1..], key, lo, hi)
  }

  /** A limit below one still admits the request that opens a window. */
  function PerWindow(cfg: Config): int { Max(cfg.max, 1) }

  /** What a closed interval as long as the window can admit: the end of one
      window and the start of the next, except that windows of no length cannot
      meet in one instant. */
  function SlidingLimit(cfg: Config): int {
    if cfg.window == 0 then PerWindow(cfg) else 2 * PerWindow(cfg) - 1
  }

  /** The most the key can still be granted between `lo` and `hi`: a window still
      open gives what is left of it, and at most one more full one can open. */
  function Left(w: Option<Window>, cfg: Config, lo: int, hi: int): int {
    var m := PerWindow(cfg);
    if w.None? || w.value.resetAt < lo then SlidingLimit(cfg)
    else Max(m - w.value.count, 0) + (if w.value.resetAt < hi then m else 0)
  }

  function Entry(t: Table, key: string): Option<Window> { if key in t then Some(t[key]) else None }

  lemma CheckSpends(t: Table, cfg: Config, key: string, now: int, lo: int, hi: int)
    requires hi <= lo + cfg.window && now <= hi
    requires key in t ==> t[key].count >= 1
    ensures var (t', v) := Check(t, cfg, key, now);
            Left(Entry(t', key), cfg, lo, hi) + (if lo <= now && v.allowed then 1 else 0)
            <= Left(Entry(t, key), cfg, lo, hi)
  {
  }

  lemma CheckOther(t: Table, cfg: Config, key: string, other: string, now: int)
    requires key != other
    ensures Entry(Check(t, cfg, other, now).0, key) == Entry(t, key)
  {
  }

  lemma {:induction false} NothingAfter(t: Table, cfg: Config, es: seq<Event>, key: string, lo: int, hi: int)
    requires forall i :: 0 <= i < |es| ==> es[i].Request? && es[i].at > hi
    ensures Admitted(Answers(t, cfg, es), key, lo, hi) == 0
    decreases |es|
  {
    if es != [] {
      var (t', v) := Check(t, cfg, es[0].key, es[0].at);
      NothingAfter(t', cfg, es[1..], key, lo, hi);
      assert Answers(t, cfg, es)[1..] == Answers(t', cfg, es[1..]);
    }
  }

  lemma {:induction false} AdmittedWithinLeft(t: Table, cfg: Config, es: seq<Event>, key: string, lo: int, hi: int)
    requires Ordered(es) && forall i :: 0 <= i < |es| ==> es[i].Request?
    requires hi <= lo + cfg.window && (key in t ==> t[key].count >= 1)
    ensures Admitted(Answers(t, cfg, es), key, lo, hi) <= Left(Entry(t, key), cfg, lo, hi)
    decreases |es|
  {
    if es != [] {
      var e := es[0];
      var (t', v) := Check(t, cfg, e.key, e.at);
      assert Answers(t, cfg, es)[1..] == Answers(t', cfg, es[1..]);
      if e.at > hi {
        NothingAfter(t, cfg, es, key, lo, hi);
      } else {
        if e.key == key { CheckSpends(t, cfg, key, e.at, lo, hi); } else { CheckOther(t, cfg, key, e.key, e.at); }
        hide Check, Left, Entry;
        AdmittedWithinLeft(t', cfg, es[1..], key, lo, hi);
      }
    }
  }

  lemma {:induction false} RequestsOrdered(es: seq<Event>, from: int)
    requires Ordered(es) && (es != [] ==> from <= es[0].at)
    ensures Ordered(Requests(es))
    ensures forall i :: 0 <= i < |Requests(es)| ==> Requests(es)[i].Request? && from <= Requests(es)[i].at
  {
    if es != [] {
      if |es| > 1 { assert es[0].at <= es[1].at; }
      RequestsOrdered(es[1..], es[0].at);
    }
  }

  /** The sliding bound: however the windows fall, any closed interval as long as
      the window admits a key at most that often. */
  lemma SlidingBound(cfg: Config, es: seq<Event>, key: string, lo: int, hi: int)
    requires Ordered(es) && hi <= lo + cfg.window
    ensures Admitted(Answers(map[], cfg, es), key, lo, hi) <= SlidingLimit(cfg)
  {
    CleanupChangesNothing(cfg, es);
    RequestsOrdered(es, if es == [] then 0 else es[0].at);
    AdmittedWithinLeft(map[], cfg, Requests(es), key, lo, hi);
  }

  function RequestsOf(es: seq<Event>, key: string): nat {
    if es == [] then 0
    else (if es[0].Request? && es[0].key == key then 1 else 0) + RequestsOf(es[1..], key)
  }

  function Min(a: int, b: int): int { if a <= b then a else b }

  lemma {:induction false} OpenWindow(t: Table, cfg: Config, es: seq<Event>, key: string, lo: int, hi: int)
    requires key in t && t[key].count >= 1 && hi <= t[key].resetAt
    requires forall i :: 0 <= i < |es| ==> es[i].Request? && lo <= es[i].at <= hi
    ensures var m, c := PerWindow(cfg), t[key].count;
            Admitted(Answers(t, cfg, es), key, lo, hi) == Min(c + RequestsOf(es, key), m) - Min(c, m)
    decreases |es|
  {
    if es != [] {
      var (t', v) := Check(t, cfg, es[0].key, es[0].at);
      assert Answers(t, cfg, es)[1..] == Answers(t', cfg, es[1..]);
      OpenWindow(t', cfg, es[1..], key, lo, hi);
    }
  }

  /** A window opened by a request admits exactly its requests up to the limit:
      no more, and no fewer. */
  lemma FixedWindow(t: Table, cfg: Config, es: seq<Event>, key: string)
    requires es != [] && es[0].Request? && es[0].key == key
    requires Live(t, key, es[0].at).None?
    requires forall i :: 0 <= i < |es| ==> es[i].Request? && es[0].at <= es[i].at <= es[0].at + cfg.window
    ensures Admitted(Answers(t, cfg, es), key, es[0].at, es[0].at + cfg.window)
            == Min(RequestsOf(es, key), PerWindow(cfg))
  {
    var lo, hi := es[0].at, es[0].at + cfg.window;
    var (t', v) := Check(t, cfg, key, lo);
    assert Answers(t, cfg, es)[1..] == Answers(t', cfg, es[1..]);
    OpenWindow(t', cfg, es[1..], key, lo, hi);
  }

  lemma {:induction false} OpenWindowAnswers(t: Table, cfg: Config, es: seq<Event>, key: string, j: nat)
    requires key in t && t[key].count >= 1 && j < |es| && es[j].Request? && es[j].key == key
    requires forall i :: 0 <= i < |es| ==> es[i].Request? && es[i].at <= t[key].resetAt
    ensures |Answers(t, cfg, es)| == |es|
    ensures var n := t[key].count + RequestsOf(es[..j + 1], key);
            Answers(t, cfg, es)[j].verdict == Verdict(n <= cfg.max, cfg.max, Max(cfg.max - n, 0), t[key].resetAt)
    decreases |es|
  {
    var (t', v) := Check(t, cfg, es[0].key, es[0].at);
    assert Answers(t, cfg, es) == [Answer(es[0].key, es[0].at, v)] + Answers(t', cfg, es[1..]);
    assert es[..j + 1][1..] == es[1..][..j];
    if j == 0 {
      assert es[1..][..0] == [];
      AllAnswered(t', cfg, es[1..]);
    } else {
      OpenWindowAnswers(t', cfg, es[1..], key, j - 1);
    }
  }

  lemma {:induction false} AllAnswered(t: Table, cfg: Config, es: seq<Event>)
    requires forall i :: 0 <= i < |es| ==> es[i].Request?
    ensures |Answers(t, cfg, es)| == |es|
    decreases |es|
  {
    if es != [] { AllAnswered(Check(t, cfg, es[0].key, es[0].at).0, cfg, es[1..]); }
  }

  /** The headers of a window's n-th request: the limit, the requests left of it,
      and the end of the window, the same for all.  What is left is never
      negative, except that a limit below one leaves less than nothing to the
      request that opens the window. */
  lemma WindowHeaders(t: Table, cfg: Config, es: seq<Event>, key: string, j: nat)
    requires es != [] && es[0].Request? && es[0].key == key
    requires Live(t, key, es[0].at).None?
    requires forall i :: 0 <= i < |es| ==> es[i].Request? && es[0].at <= es[i].at <= es[0].at + cfg.window
    requires j < |es| && es[j].key == key
    ensures |Answers(t, cfg, es)| == |es|
    ensures var v, n := Answers(t, cfg, es)[j].verdict, RequestsOf(es[..j + 1], key);
            && v.limit == cfg.max && v.resetAt == es[0].at + cfg.window
            && (v.allowed <==> n <= PerWindow(cfg))
            && v.remaining == (if j == 0 then cfg.max - 1 else Max(cfg.max - n, 0))
            && (cfg.max >= 1 ==> v.remaining == Max(cfg.max - n, 0))
  {
    var (t', v) := Check(t, cfg, key, es[0].at);
    assert Answers(t, cfg, es) == [Answer(key, es[0].at, v)] + Answers(t', cfg, es[1..]);
    assert es[..j + 1][1..] == es[1..][..j];
    AllAnswered(t', cfg, es[1..]);
    if j > 0 {
      OpenWindowAnswers(t', cfg, es[1..], key, j - 1);
      RequestsInclude(es[1..][..j], key, j - 1);
    }
  }

  lemma {:induction false} RequestsInclude(es: seq<Event>, key: string, j: nat)
    requires j < |es| && es[j].Request? && es[j].key == key
    ensures RequestsOf(es, key) >= 1
  {
    if j > 0 { RequestsInclude(es[1..], key, j - 1); }
  }

  /** The reset time is the one from whose passing on, and not before, the next
      request opens a window. */
  lemma ResetOpensNext(t: Table, cfg: Config, key: string, now: int, later: int)
    ensures var (t', v) := Check(t, cfg, key, now); var (t'', w) := Check(t', cfg, key, later);
            && key in t' && key in t''
            && (later > v.resetAt ==> w.allowed && w.resetAt == later + cfg.window && t''[key].count == 1)
            && (later <= v.resetAt ==> w.resetAt == v.resetAt && t''[key].count == t'[key].count + 1)
  {
  }

  function Burst(key: string, at: int, n: nat): seq<Event> {
    if n == 0 then [] else [Request(key, at)] + Burst(key, at, n - 1)
  }

  lemma {:induction false} BurstShape(key: string, at: int, n: nat)
    ensures |Burst(key, at, n)| == n && RequestsOf(Burst(key, at, n), key) == n
    ensures forall i :: 0 <= i < n ==> Burst(key, at, n)[i] == Request(key, at)
  {
    if n > 0 {
      BurstShape(key, at, n - 1);
      assert Burst(key, at, n)[1..] == Burst(key, at, n - 1);
    }
  }

  function TableAfter(t: Table, cfg: Config, es: seq<Event>): Table
    decreases |es|
  {
    if es == [] then t
    else match es[0]
      case Request(key, at) => TableAfter(Check(t, cfg, key, at).0, cfg, es[1..])
      case Sweeping(at) => TableAfter(Cleanup(t, at), cfg, es[1..])
  }

  lemma {:induction false} AdmittedConcat(t: Table, cfg: Config, a: seq<Event>, b: seq<Event>, key: string, lo: int, hi: int)
    ensures Admitted(Answers(t, cfg, a + b), key, lo, hi)
            == Admitted(Answers(t, cfg, a), key, lo, hi) + Admitted(Answers(TableAfter(t, cfg, a), cfg, b), key, lo, hi)
    decreases |a|
  {
    if a == [] {
      assert a + b == b;
    } else {
      assert (a + b)[0] == a[0] && (a + b)[1..] == a[1..] + b;
      match a[0]
      case Request(k, at) =>
        var (t', v) := Check(t, cfg, k, at);
        AdmittedConcat(t', cfg, a[1..], b, key, lo, hi);
        assert Answers(t, cfg, a)[1..] == Answers(t', cfg, a[1..]);
        assert Answers(t, cfg, a + b)[1..] == Answers(t', cfg, a[1..] + b);
      case Sweeping(at) =>
        AdmittedConcat(Cleanup(t, at), cfg, a[1..], b, key, lo, hi);
    }
  }

  /** A burst within an open window only raises its count. */
  lemma {:induction false} BurstStaysInWindow(t: Table, cfg: Config, key: string, at: int, n: nat)
    requires key in t && at <= t[key].resetAt
    ensures TableAfter(t, cfg, Burst(key, at, n)) == t[key := Window(t[key].count + n, t[key].resetAt)]
    decreases n
  {
    if n == 0 {
      assert t[key := t[key]] == t;
    } else {
      var t' := Check(t, cfg, key, at).0;
      assert Burst(key, at, n)[1..] == Burst(key, at, n - 1);
      BurstStaysInWindow(t', cfg, key, at, n - 1);
    }
  }

  /** The worst run: one request opens a window, the rest of its limit arrives in
      its last instant, and a full limit right after it. */
  function WorstRun(key: string, cfg: Config): seq<Event> {
    var m := PerWindow(cfg);
    if cfg.window == 0 then Burst(key, 0, m)
    else Burst(key, 0, 1) + (Burst(key, cfg.window, m - 1) + Burst(key, cfg.window + 1, m))
  }

  lemma WorstRunOrdered(key: string, cfg: Config)
    ensures Ordered(WorstRun(key, cfg))
  {
    BurstShape(key, 0, 1);
    BurstShape(key, 0, PerWindow(cfg));
    BurstShape(key, cfg.window, PerWindow(cfg) - 1);
    BurstShape(key, cfg.window + 1, PerWindow(cfg));
    hide Burst;
  }

  /** The sliding bound is attained, for every limit and every window. */
  lemma SlidingBoundIsTight(cfg: Config, key: string)
    ensures Ordered(WorstRun(key, cfg))
    ensures Admitted(Answers(map[], cfg, WorstRun(key, cfg)), key, cfg.window, 2 * cfg.window) == SlidingLimit(cfg)
  {
    WorstRunOrdered(key, cfg);
    var m, w := PerWindow(cfg), cfg.window;
    if w == 0 {
      BurstShape(key, 0, m);
      FixedWindow(map[], cfg, Burst(key, 0, m), key);
    } else {
      TightAtPositiveWindow(cfg, key);
    }
  }

  lemma TightAtPositiveWindow(cfg: Config, key: string)
    requires cfg.window > 0
    ensures Admitted(Answers(map[], cfg, WorstRun(key, cfg)), key, cfg.window, 2 * cfg.window) == SlidingLimit(cfg)
  {
    var m, w := PerWindow(cfg), cfg.window;
    var first, second, third := Burst(key, 0, 1), Burst(key, w, m - 1), Burst(key, w + 1, m);
    var t1 := TableAfter(map[], cfg, first);
    OpenerIsOutside(cfg, key);
    var t2 := TableAfter(t1, cfg, second);
    BurstStaysInWindow(t1, cfg, key, w, m - 1);
    BurstShape(key, w, m - 1);
    BurstShape(key, w + 1, m);
    hide Burst, TableAfter;
    AdmittedConcat(map[], cfg, first, second + third, key, w, 2 * w);
    AdmittedConcat(t1, cfg, second, third, key, w, 2 * w);
    OpenWindow(t1, cfg, second, key, w, w);
    SameInterval(t1, cfg, second, key, w, w, 2 * w);
    FixedWindow(t2, cfg, third, key);
    SameStart(t2, cfg, third, key, w, w + 1, 2 * w, 2 * w + 1);
  }

  lemma OpenerIsOutside(cfg: Config, key: string)
    requires cfg.window > 0
    ensures TableAfter(map[], cfg, Burst(key, 0, 1)) == map[key := Window(1, cfg.window)]
    ensures Admitted(Answers(map[], cfg, Burst(key, 0, 1)), key, cfg.window, 2 * cfg.window) == 0
  {
    var first := Burst(key, 0, 1);
    assert first == [Request(key, 0)] && first[1..] == [];
    assert Check(map[], cfg, key, 0).0 == map[key := Window(1, cfg.window)];
    var v := Check(map[], cfg, key, 0).1;
    assert Answers(map[], cfg, first) == [Answer(key, 0, v)];
    assert [Answer(key, 0, v)][1..] == [];
  }

  /** Requests of one instant fall into every interval around it. */
  lemma {:induction false} SameInterval(t: Table, cfg: Config, es: seq<Event>, key: string, at: int, lo: int, hi: int)
    requires forall i :: 0 <= i < |es| ==> es[i].Request? && es[i].at == at
    requires lo <= at <= hi
    ensures Admitted(Answers(t, cfg, es), key, lo, hi) == Admitted(Answers(t, cfg, es), key, at, at)
    decreases |es|
  {
    if es != [] {
      var (t', v) := Check(t, cfg, es[0].key, es[0].at);
      assert Answers(t, cfg, es)[1..] == Answers(t', cfg, es[1..]);
      SameInterval(t', cfg, es[1..], key, at, lo, hi);
    }
  }

  lemma SameStart(t: Table, cfg: Config, es: seq<Event>, key: string, lo: int, at: int, hi: int, until: int)
    requires forall i :: 0 <= i < |es| ==> es[i].Request? && es[i].at == at
    requires lo <= at <= hi && at <= until
    ensures Admitted(Answers(t, cfg, es), key, lo, hi) == Admitted(Answers(t, cfg, es), key, at, until)
  {
    SameInterval(t, cfg, es, key, at, lo, hi);
    SameInterval(t, cfg, es, key, at, at, until);
  }
}
