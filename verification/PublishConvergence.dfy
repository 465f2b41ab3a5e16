/** Which candidates repeated publish runs reach: those behind fewer hopeless
    candidates than the limit, and no others. */
module PublishConvergence {
  import opened Base
  import opened Publishing

  predicate Malformed(u: Row) { u.dataMap.None? || Hex(u.dataMap.value).None? }

  /** No run for this UUID publishes the candidate, yet it takes up the limit. */
  predicate Barren(u: Row, uuid: string) { Malformed(u) || (uuid != "" && u.uuid != uuid) }

  function BarrenIn(us: seq<Row>, uuid: string): nat {
    if us == [] then 0 else BarrenIn(us[..|us| - 1], uuid) + if Barren(us[|us| - 1], uuid) then 1 else 0
  }

  /** The barren candidates before row `j`. */
  function BarrenBefore(rows: seq<Row>, j: nat, uuid: string): nat
    requires j <= |rows|
  {
    BarrenIn(Candidates(rows[..j]), uuid)
  }

  lemma BarrenAppend(us: seq<Row>, u: Row, uuid: string)
    ensures BarrenIn(us + [u], uuid) == BarrenIn(us, uuid) + if Barren(u, uuid) then 1 else 0
  {
    assert (us + [u])[..|us|] == us;
  }

  lemma {:induction false} BarrenAtMost(us: seq<Row>, uuid: string, n: nat)
    requires n <= |us|
    ensures BarrenIn(us[..n], uuid) <= BarrenIn(us, uuid) <= |us|
  {
    if n < |us| {
      var before := us[..|us| - 1];
      assert before[..n] == us[..n];
      BarrenAtMost(before, uuid, n);
    } else if us != [] {
      assert us[..n] == us;
      BarrenAtMost(us[..|us| - 1], uuid, |us| - 1);
    }
  }

  lemma {:induction false} SomeFertile(us: seq<Row>, uuid: string) returns (t: nat)
    requires BarrenIn(us, uuid) < |us|
    ensures t < |us| && !Barren(us[t], uuid)
  {
    if Barren(us[|us| - 1], uuid) {
      t := SomeFertile(us[..|us| - 1], uuid);
    } else {
      t := |us| - 1;
    }
  }

  // -------------------------------------------------------------- a quiet run

  /** No row is deleted while the run is at candidates from `i` to `n`. */
  ghost predicate Quiet(days: nat -> Weather, i: nat, n: nat) {
    forall k {:trigger days(k)} :: i <= k < n ==> days(k).gone == {} && days(k).late == {}
  }

  lemma NothingRemoved(w: World)
    ensures WithoutRows(w, {}) == w
  {
    assert Removed(w.rows, {}) == w.rows;
  }

  lemma StepLeaves(addr: Bytes -> string, w: World, u: Row, opts: Options, day: Weather, j: nat)
    requires j < |w.rows| && (w.rows[j].id != u.id || Malformed(u)) && day.late == {}
    ensures var w' := Step(addr, w, u, opts, day).0; |w'.rows| == |w.rows| && w'.rows[j] == w.rows[j]
  {
    hide Chunk;
    if !Malformed(u) {
      ChunkLaw(addr, w, Hex(u.dataMap.value).value, opts.verify, day);
    }
  }

  /** A row changes only if it is selected and decodes. */
  lemma {:induction false} RestLeaves(addr: Bytes -> string, w: World, run: Run, us: seq<Row>, i: nat, opts: Options,
                                      days: nat -> Weather, j: nat)
    requires i <= |us| && j < |w.rows| && Quiet(days, i, |us|)
    requires forall k :: i <= k < |us| ==> us[k].id != w.rows[j].id || Malformed(us[k])
    ensures var w' := Rest(addr, w, run, us, i, opts, days).0; |w'.rows| == |w.rows| && w'.rows[j] == w.rows[j]
    decreases |us| - i
  {
    if i < |us| {
      assert days(i).gone == {} && days(i).late == {};
      NothingRemoved(w);
      hide Step, WithoutRows;
      if !days(i).cancelled {
        StepLeaves(addr, w, us[i], opts, days(i), j);
        var (w1, row) := Step(addr, w, us[i], opts, days(i));
        RestLeaves(addr, w1, Account(run, row), us, i + 1, opts, days, j);
      }
    }
  }

  lemma {:induction false} RestLength(addr: Bytes -> string, w: World, run: Run, us: seq<Row>, i: nat, opts: Options,
                                      days: nat -> Weather)
    requires i <= |us|
    ensures |Rest(addr, w, run, us, i, opts, days).0.rows| == |w.rows|
    decreases |us| - i
  {
    if i < |us| && !days(i).cancelled {
      var w0 := WithoutRows(w, days(i).gone);
      StepLength(addr, w0, us[i], opts, days(i));
      hide Step;
      var (w1, row) := Step(addr, w0, us[i], opts, days(i));
      RestLength(addr, w1, Account(run, row), us, i + 1, opts, days);
    }
  }

  lemma StepLength(addr: Bytes -> string, w: World, u: Row, opts: Options, day: Weather)
    ensures |Step(addr, w, u, opts, day).0.rows| == |w.rows|
  {
    hide Chunk;
    if !Malformed(u) {
      ChunkLaw(addr, w, Hex(u.dataMap.value).value, opts.verify, day);
    }
  }

  /** Row `j` is not among those a run with these options may change. */
  lemma RunLeaves(addr: Bytes -> string, w: World, opts: Options, days: nat -> Weather, j: nat)
    requires DistinctIds(w.rows) && j < |w.rows| && Quiet(days, 0, |Selected(w.rows, opts)|)
    requires w.rows[j] !in Selected(w.rows, opts) || Malformed(w.rows[j])
    ensures var w' := RunOnce(addr, w, opts, days).0; |w'.rows| == |w.rows| && w'.rows[j] == w.rows[j]
  {
    var us := Selected(w.rows, opts);
    forall k | 0 <= k < |us| ensures us[k].id != w.rows[j].id || Malformed(us[k]) {
      SelectedFrom(w.rows, opts, k);
      assert us[k] in us;
    }
    hide Selected, Rest;
    RestLeaves(addr, w, Started(us, opts), us, 0, opts, days, j);
  }

  lemma SelectedFrom(rows: seq<Row>, opts: Options, k: nat)
    requires k < |Selected(rows, opts)|
    ensures var u := Selected(rows, opts)[k];
            u in rows && Candidate(u) && (opts.uuid == "" || u.uuid == opts.uuid)
  {
    var u := Selected(rows, opts)[k];
    WithUuidAre(Listed(rows, opts.limit), opts.uuid, u);
    assert u in Selected(rows, opts);
    assert u in Listed(rows, opts.limit);
    CandidatesAre(rows, u);
  }

  /** What a run may do to the table: candidates only drop out, and barren ones
      stay as they are. */
  ghost predicate Thinned(rows: seq<Row>, rows': seq<Row>, uuid: string) {
    && |rows'| == |rows|
    && forall i :: 0 <= i < |rows| ==>
         && (Candidate(rows'[i]) ==> rows'[i] == rows[i])
         && (Candidate(rows[i]) && Barren(rows[i], uuid) ==> rows'[i] == rows[i])
  }

  lemma RunThins(addr: Bytes -> string, w: World, opts: Options, days: nat -> Weather)
    requires DistinctIds(w.rows) && Quiet(days, 0, |Selected(w.rows, opts)|)
    ensures Thinned(w.rows, RunOnce(addr, w, opts, days).0.rows, opts.uuid)
  {
    var w' := RunOnce(addr, w, opts, days).0;
    ApplyProgress(addr, w, Migrate(opts, days));
    RestLength(addr, w, Started(Selected(w.rows, opts), opts), Selected(w.rows, opts), 0, opts, days);
    hide RunOnce, Selected, Malformed;
    forall i | 0 <= i < |w.rows|
      ensures Candidate(w'.rows[i]) ==> w'.rows[i] == w.rows[i]
      ensures Candidate(w.rows[i]) && Barren(w.rows[i], opts.uuid) ==> w'.rows[i] == w.rows[i]
    {
      assert RowEvolved(addr, w.rows[i], w'.rows[i], w'.net);
      if Candidate(w.rows[i]) && Barren(w.rows[i], opts.uuid) {
        SelectedIff(w.rows, opts, i);
        RunLeaves(addr, w, opts, days, i);
      }
    }
  }

  lemma {:induction false} ThinnedCounts(rows: seq<Row>, rows': seq<Row>, uuid: string)
    requires Thinned(rows, rows', uuid)
    ensures BarrenIn(Candidates(rows'), uuid) == BarrenIn(Candidates(rows), uuid)
    ensures |Candidates(rows')| <= |Candidates(rows)|
  {
    if rows != [] {
      var n := |rows| - 1;
      LastCounts(rows, uuid);
      LastCounts(rows', uuid);
      hide BarrenIn, Barren, Candidate, Candidates;
      assert Thinned(rows[..n], rows'[..n], uuid);
      ThinnedCounts(rows[..n], rows'[..n], uuid);
    }
  }

  /** A candidate that drops out makes the list shorter. */
  lemma {:induction false} ThinnedShrinks(rows: seq<Row>, rows': seq<Row>, uuid: string, k: nat)
    requires Thinned(rows, rows', uuid) && k < |rows| && Candidate(rows[k]) && !Candidate(rows'[k])
    ensures |Candidates(rows')| < |Candidates(rows)|
  {
    var n := |rows| - 1;
    LastIsThinned(rows, rows', uuid);
    hide BarrenIn, Barren, Candidate, Candidates, Thinned;
    LastCounts(rows, uuid);
    LastCounts(rows', uuid);
    if k < n {
      assert rows[..n][k] == rows[k] && rows'[..n][k] == rows'[k];
      ThinnedShrinks(rows[..n], rows'[..n], uuid, k);
    } else {
      ThinnedCounts(rows[..n], rows'[..n], uuid);
    }
  }

  lemma LastIsThinned(rows: seq<Row>, rows': seq<Row>, uuid: string)
    requires Thinned(rows, rows', uuid) && rows != []
    ensures var n := |rows| - 1;
            && |rows'| == |rows| && Thinned(rows[..n], rows'[..n], uuid)
            && (Candidate(rows'[n]) ==> rows'[n] == rows[n])
  {
    hide Candidate, Barren;
  }

  lemma LastCounts(rows: seq<Row>, uuid: string)
    requires rows != []
    ensures var n := |rows| - 1;
            && BarrenIn(Candidates(rows), uuid) ==
               BarrenIn(Candidates(rows[..n]), uuid) + (if Candidate(rows[n]) && Barren(rows[n], uuid) then 1 else 0)
            && |Candidates(rows)| == |Candidates(rows[..n])| + (if Candidate(rows[n]) then 1 else 0)
  {
    var n := |rows| - 1;
    BarrenAppend(Candidates(rows[..n]), rows[n], uuid);
    assert Candidates(rows[..n]) + [] == Candidates(rows[..n]);
    hide BarrenIn, Barren, Candidate;
  }

  lemma ThinnedPrefix(rows: seq<Row>, rows': seq<Row>, uuid: string, j: nat)
    requires Thinned(rows, rows', uuid) && j <= |rows|
    ensures Thinned(rows[..j], rows'[..j], uuid)
  {
  }

  // ------------------------------------------------------------- out of reach

  /** Behind as many barren candidates as the limit, or barren itself. */
  predicate OutOfReach(rows: seq<Row>, j: nat, limit: int, uuid: string)
    requires j < |rows|
  {
    Barren(rows[j], uuid) || 0 < limit <= BarrenBefore(rows, j, uuid)
  }

  ghost predicate RunsWith(e: Event, limit: int, uuid: string) {
    e.Migrate? && e.opts.limit == limit && e.opts.uuid == uuid && forall n: nat :: Quiet(e.days, 0, n)
  }

  lemma RunMisses(addr: Bytes -> string, w: World, e: Event, j: nat)
    requires DistinctIds(w.rows) && e.Migrate? && Quiet(e.days, 0, |Selected(w.rows, e.opts)|)
    requires j < |w.rows| && Candidate(w.rows[j]) && OutOfReach(w.rows, j, e.opts.limit, e.opts.uuid)
    ensures var w' := Apply(addr, w, e);
            && |w'.rows| == |w.rows| && w'.rows[j] == w.rows[j]
            && OutOfReach(w'.rows, j, e.opts.limit, e.opts.uuid)
  {
    hide RunOnce, Selected, Barren, Malformed, Thinned;
    var us := Selected(w.rows, e.opts);
    var w' := Apply(addr, w, e);
    SelectedIff(w.rows, e.opts, j);
    BarrenAtMost(Candidates(w.rows[..j]), e.opts.uuid, 0);
    assert w.rows[j] !in us || Malformed(w.rows[j]) by { BarrenMeans(w.rows[j], e.opts.uuid); }
    RunLeaves(addr, w, e.opts, e.days, j);
    RunThins(addr, w, e.opts, e.days);
    ThinnedPrefix(w.rows, w'.rows, e.opts.uuid, j);
    ThinnedCounts(w.rows[..j], w'.rows[..j], e.opts.uuid);
  }

  lemma BarrenMeans(u: Row, uuid: string)
    ensures Barren(u, uuid) <==> Malformed(u) || (uuid != "" && u.uuid != uuid)
  {
  }

  /** Such a candidate is never touched, however often and in whatever weather runs
      with that limit and UUID are repeated, as long as no row is deleted. */
  lemma {:induction false} NeverReached(addr: Bytes -> string, w: World, es: seq<Event>, limit: int, uuid: string, j: nat)
    requires DistinctIds(w.rows) && j < |w.rows| && Candidate(w.rows[j]) && OutOfReach(w.rows, j, limit, uuid)
    requires forall i :: 0 <= i < |es| ==> RunsWith(es[i], limit, uuid)
    ensures var w' := After(addr, w, es);
            && |w'.rows| == |w.rows| && w'.rows[j] == w.rows[j]
            && OutOfReach(w'.rows, j, limit, uuid) && DistinctIds(w'.rows)
  {
    if es != [] {
      hide Apply, OutOfReach, Candidate;
      var before := After(addr, w, es[..|es| - 1]);
      var e := es[|es| - 1];
      NeverReached(addr, w, es[..|es| - 1], limit, uuid, j);
      assert Quiet(e.days, 0, |Selected(before.rows, e.opts)|);
      RunMisses(addr, before, e, j);
      ApplyProgress(addr, before, e);
    }
  }

  // ---------------------------------------------------------------- in reach

  /** A run with this limit and UUID in which nothing fails. */
  ghost predicate CalmRun(w: World, e: Event, limit: int, uuid: string) {
    && e.Migrate? && e.opts.limit == limit && e.opts.uuid == uuid && !e.opts.dryRun
    && var us := Selected(w.rows, e.opts);
       forall t {:trigger e.days(t)} :: 0 <= t < |us| ==> Calm(e.days(t), us[t], e.opts.verify)
  }

  ghost predicate CalmHistory(addr: Bytes -> string, w: World, es: seq<Event>, limit: int, uuid: string) {
    es == []
    || (CalmHistory(addr, w, es[..|es| - 1], limit, uuid)
        && CalmRun(After(addr, w, es[..|es| - 1]), es[|es| - 1], limit, uuid))
  }

  lemma CalmIsQuiet(w: World, e: Event, limit: int, uuid: string)
    requires CalmRun(w, e, limit, uuid)
    ensures Quiet(e.days, 0, |Selected(w.rows, e.opts)|)
  {
    hide Selected;
  }

  lemma CalmReaches(addr: Bytes -> string, w: World, e: Event, limit: int, uuid: string, k: nat)
    requires DistinctIds(w.rows) && CalmRun(w, e, limit, uuid)
    requires k < |w.rows| && Candidate(w.rows[k]) && !Barren(w.rows[k], uuid)
    requires limit <= 0 || |Candidates(w.rows[..k])| < limit
    ensures PublishedAs(addr, Apply(addr, w, e), k, w.rows[k])
  {
    assert forall t {:trigger e.days(t)} :: 0 <= t < |Selected(w.rows, e.opts)| ==>
             Calm(e.days(t), Selected(w.rows, e.opts)[t], e.opts.verify);
    hide Selected, Calm, Candidates, Candidate, Hex, RunOnce, PublishedAs, Progress;
    CalmRunCompletes(addr, w, e.opts, e.days, k);
  }

  /** While a fertile candidate stands before `j` at the head of the list, a calm
      run takes one away; then `j` itself. */
  lemma CalmAdvances(addr: Bytes -> string, w: World, e: Event, limit: int, uuid: string, j: nat)
    requires DistinctIds(w.rows) && CalmRun(w, e, limit, uuid)
    requires j < |w.rows| && Candidate(w.rows[j]) && !OutOfReach(w.rows, j, limit, uuid)
    ensures var w' := Apply(addr, w, e);
            || PublishedAs(addr, w', j, w.rows[j])
            || (&& |w'.rows| == |w.rows| && w'.rows[j] == w.rows[j]
                && !OutOfReach(w'.rows, j, limit, uuid)
                && |Candidates(w'.rows[..j])| < |Candidates(w.rows[..j])|)
  {
    var w' := Apply(addr, w, e);
    if limit <= 0 || |Candidates(w.rows[..j])| < limit {
      CalmReaches(addr, w, e, limit, uuid, j);
    } else {
      hide RunOnce, Selected, Barren, Malformed, Thinned, CalmRun, Hex;
      assert e.Migrate? && e.opts.limit == limit && e.opts.uuid == uuid by { CalmMeans(w, e, limit, uuid); }
      CalmIsQuiet(w, e, limit, uuid);
      SelectedIff(w.rows, e.opts, j);
      RunLeaves(addr, w, e.opts, e.days, j);
      RunThins(addr, w, e.opts, e.days);
      ThinnedPrefix(w.rows, w'.rows, uuid, j);
      ThinnedCounts(w.rows[..j], w'.rows[..j], uuid);
      var k := FertileInReach(w.rows, j, limit, uuid);
      CalmReaches(addr, w, e, limit, uuid, k);
      ThinnedShrinks(w.rows[..j], w'.rows[..j], uuid, k);
    }
  }

  lemma CalmMeans(w: World, e: Event, limit: int, uuid: string)
    requires CalmRun(w, e, limit, uuid)
    ensures e.Migrate? && e.opts.limit == limit && e.opts.uuid == uuid
  {
  }

  lemma FertileInReach(rows: seq<Row>, j: nat, limit: int, uuid: string) returns (k: nat)
    requires DistinctIds(rows) && j < |rows| && 0 < limit <= |Candidates(rows[..j])|
    requires BarrenBefore(rows, j, uuid) < limit
    ensures k < j && Candidate(rows[k]) && !Barren(rows[k], uuid) && |Candidates(rows[..k])| < limit
  {
    hide Barren, Candidate;
    var us := Candidates(rows[..j]);
    BarrenAtMost(us, uuid, limit);
    var t := SomeFertile(us[..limit], uuid);
    assert us[..limit][t] == us[t];
    CandidatesAre(rows[..j], us[t]);
    k :| 0 <= k < j && rows[..j][k] == us[t];
    CandidatesInOrder(rows[..j], k);
    CandidatesDistinct(rows[..j]);
    assert rows[..j][..k] == rows[..k];
    assert us[|Candidates(rows[..k])|] == us[t];
  }

  /** After that many calm runs the candidate is published, or so many fertile
      ones before it are. */
  lemma {:induction false} CalmHistoryAdvances(addr: Bytes -> string, w: World, es: seq<Event>, limit: int, uuid: string,
                                               j: nat)
    requires DistinctIds(w.rows) && CalmHistory(addr, w, es, limit, uuid)
    requires j < |w.rows| && Candidate(w.rows[j]) && !OutOfReach(w.rows, j, limit, uuid)
    ensures var w' := After(addr, w, es);
            && DistinctIds(w'.rows)
            && (|| PublishedAs(addr, w', j, w.rows[j])
                || (&& |w'.rows| == |w.rows| && w'.rows[j] == w.rows[j]
                    && !OutOfReach(w'.rows, j, limit, uuid)
                    && |Candidates(w'.rows[..j])| + |es| <= |Candidates(w.rows[..j])|))
  {
    if es != [] {
      hide Apply, OutOfReach, Candidate, CalmRun, PublishedAs, Progress, Candidates;
      var before := After(addr, w, es[..|es| - 1]);
      var e := es[|es| - 1];
      CalmHistoryAdvances(addr, w, es[..|es| - 1], limit, uuid, j);
      ApplyProgress(addr, before, e);
      assert DistinctIds(Apply(addr, before, e).rows) by { ProgressSays(addr, before, Apply(addr, before, e)); }
      if PublishedAs(addr, before, j, w.rows[j]) {
        PublishedStays(addr, before, Apply(addr, before, e), j, w.rows[j]);
      } else {
        CalmAdvances(addr, before, e, limit, uuid, j);
      }
    }
  }

  lemma {:induction false} CalmHistoryMisses(addr: Bytes -> string, w: World, es: seq<Event>, limit: int, uuid: string,
                                             j: nat)
    requires DistinctIds(w.rows) && CalmHistory(addr, w, es, limit, uuid)
    requires j < |w.rows| && Candidate(w.rows[j]) && OutOfReach(w.rows, j, limit, uuid)
    ensures var w' := After(addr, w, es);
            && |w'.rows| == |w.rows| && w'.rows[j] == w.rows[j]
            && OutOfReach(w'.rows, j, limit, uuid) && DistinctIds(w'.rows)
  {
    if es != [] {
      hide Apply, OutOfReach, Candidate, Progress;
      var before := After(addr, w, es[..|es| - 1]);
      var e := es[|es| - 1];
      CalmHistoryMisses(addr, w, es[..|es| - 1], limit, uuid, j);
      CalmIsQuiet(before, e, limit, uuid);
      RunMisses(addr, before, e, j);
      ApplyProgress(addr, before, e);
      ProgressSays(addr, before, Apply(addr, before, e));
    }
  }

  /** The exact reach of the migration: repeated until they have had time for
      every candidate before it, calm runs with a limit and a UUID publish a
      candidate if and only if it decodes, has the UUID, and stands behind fewer
      barren candidates than the limit, wherever those are. */
  lemma PublishedIff(addr: Bytes -> string, w: World, es: seq<Event>, limit: int, uuid: string, j: nat)
    requires DistinctIds(w.rows) && CalmHistory(addr, w, es, limit, uuid)
    requires j < |w.rows| && Candidate(w.rows[j]) && |es| > |Candidates(w.rows[..j])|
    ensures PublishedAs(addr, After(addr, w, es), j, w.rows[j]) <==>
            && !Barren(w.rows[j], uuid)
            && (limit <= 0 || BarrenBefore(w.rows, j, uuid) < limit)
  {
    hide After, CalmHistory, Candidates, Barren, BarrenBefore;
    if OutOfReach(w.rows, j, limit, uuid) {
      CalmHistoryMisses(addr, w, es, limit, uuid, j);
    } else {
      CalmHistoryAdvances(addr, w, es, limit, uuid, j);
    }
  }
}
