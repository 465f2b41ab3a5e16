/** Publishing stored DataMaps as network chunks: prepare, pay, finalize and
    record, over repeated and interrupted runs. */
module Publishing {
  import opened Base

  datatype Payment = Payment(chunk: Bytes, amount: nat)

  datatype Session = Session(chunk: Bytes, due: seq<Payment>)

  /** A row of the uploads table; a deleted row stays as a dead one. */
  datatype Row = Row(id: int, uuid: string, live: bool, completed: bool, private: bool,
                     dataMap: Option<string>, address: Option<string>)

  /** The table in id order, the chunks on the network, the upload sessions the
      daemon holds, and every payment the wallet ever made. */
  datatype World = World(rows: seq<Row>, net: set<Bytes>, sessions: map<string, Session>, paid: seq<Payment>)

  /** What happens around one candidate: cancellation, rows deleted before it and
      between its publication and its row update, chunks stored by others, and
      how each of the five outside calls ends. */
  datatype Weather = Weather(
    cancelled: bool, gone: set<int>, late: set<int>, before: set<Bytes>, during: set<Bytes>,
    prepares: bool, uploadId: string, quotes: seq<nat>,
    pays: bool, moved: nat,
    stores: bool, replies: bool, misnames: Option<string>,
    got: Option<Bytes>,
    lands: bool, reports: bool)

  datatype Options = Options(dryRun: bool, limit: int, uuid: string, verify: bool)

  datatype Outcome = Published | Verified | AlreadyStored | Failed | Skipped | DryRun

  datatype RowResult = RowResult(uuid: string, id: int, outcome: Outcome, address: Option<string>)

  datatype Run = Run(candidates: nat, published: nat, verified: nat, alreadyStored: nat, failed: nat,
                     dryRun: bool, rows: seq<RowResult>)

  /** The result of `PublishChunk`: an error has no outcome but may have an address. */
  datatype Attempt = Attempt(address: Option<string>, outcome: Option<Outcome>)

  // -------------------------------------------------------- the outside calls

  datatype Prepared = Prepared(alreadyStored: bool, address: string, uploadId: string, payments: seq<Payment>)

  /** Content already on the network is reported as stored. */
  function Prepare(addr: Bytes -> string, w: World, raw: Bytes, day: Weather): (World, Option<Prepared>) {
    var w1 := w.(net := w.net + day.before);
    if !day.prepares then (w1, None)
    else if raw in w1.net then (w1, Some(Prepared(true, addr(raw), "", [])))
    else
      var due := seq(|day.quotes|, i requires 0 <= i < |day.quotes| => Payment(raw, day.quotes[i]));
      (w1.(sessions := w1.sessions[day.uploadId := Session(raw, due)]),
       Some(Prepared(false, addr(raw), day.uploadId, due)))
  }

  /** A failing payment may still have moved part of the money. */
  function Pay(w: World, payments: seq<Payment>, day: Weather): (World, Option<seq<Payment>>) {
    if day.pays then (w.(paid := w.paid + payments), Some(payments))
    else (w.(paid := w.paid + payments[..if day.moved < |payments| then day.moved else |payments|]), None)
  }

  /** The session's chunk is stored against proof of its payments; the reply may
      be lost or name another address. */
  function Finalize(addr: Bytes -> string, w: World, uploadId: string, proof: seq<Payment>, day: Weather)
    : (World, Option<string>)
  {
    var w1 := w.(net := w.net + day.during);
    if uploadId !in w.sessions || !day.stores || proof != w.sessions[uploadId].due then (w1, None)
    else
      var chunk := w.sessions[uploadId].chunk;
      (w1.(net := w1.net + {chunk}),
       if !day.replies then None else if day.misnames.Some? then day.misnames else Some(addr(chunk)))
  }

  function Marked(rows: seq<Row>, id: int, address: string): seq<Row> {
    seq(|rows|, i requires 0 <= i < |rows| =>
      if rows[i].id == id && rows[i].live then rows[i].(private := false, address := Some(address)) else rows[i])
  }

  function Removed(rows: seq<Row>, gone: set<int>): seq<Row> {
    seq(|rows|, i requires 0 <= i < |rows| => if rows[i].id in gone then rows[i].(live := false) else rows[i])
  }

  function WithoutRows(w: World, gone: set<int>): World { w.(rows := Removed(w.rows, gone)) }

  /** The update may land and still be reported as failed. */
  function MarkPublished(w: World, id: int, address: string, day: Weather): (World, bool) {
    (if day.lands then w.(rows := Marked(w.rows, id, address)) else w, day.lands && day.reports)
  }

  // ------------------------------------------------------------- hex decoding

  function Nibble(c: char): (r: Option<nat>)
    ensures r.Some? ==> r.value < 16
  {
    if '0' <= c <= '9' then Some(c as nat - '0' as nat)
    else if 'a' <= c <= 'f' then Some(c as nat - 'a' as nat + 10)
    else if 'A' <= c <= 'F' then Some(c as nat - 'A' as nat + 10)
    else None
  }

  function Hex(s: string): Option<Bytes> {
    if s == "" then Some("")
    else if |s| == 1 || Nibble(s[0]).None? || Nibble(s[1]).None? then None
    else
      var rest := Hex(s[2..]);
      if rest.None? then None
      else Some([(16 * Nibble(s[0]).value + Nibble(s[1]).value) as char] + rest.value)
  }

  // ------------------------------------------------------------ the candidates

  predicate Candidate(r: Row) {
    r.live && r.completed && r.private && r.address.None? && r.dataMap.Some? && r.dataMap.value != ""
  }

  function Candidates(rows: seq<Row>): seq<Row> {
    if rows == [] then []
    else
      var last := rows[|rows| - 1];
      Candidates(rows[..|rows| - 1]) + if Candidate(last) then [last] else []
  }

  /** `ListPrivatePublishCandidates`: the query with its limit. */
  function Listed(rows: seq<Row>, limit: int): seq<Row> {
    var all := Candidates(rows);
    if 0 < limit < |all| then all[..limit] else all
  }

  function WithUuid(us: seq<Row>, uuid: string): seq<Row> {
    if us == [] then []
    else
      var last := us[|us| - 1];
      WithUuid(us[..|us| - 1], uuid) + if last.uuid == uuid then [last] else []
  }

  /** The rows a run attempts: the limit is applied before the UUID filter. */
  function Selected(rows: seq<Row>, opts: Options): seq<Row> {
    var listed := Listed(rows, opts.limit);
    if opts.uuid == "" then listed else WithUuid(listed, opts.uuid)
  }

  // ------------------------------------------------------------ the migration

  /** `PublishChunk`. */
  function Chunk(addr: Bytes -> string, w: World, raw: Bytes, verify: bool, day: Weather): (World, Attempt) {
    var (w1, prep) := Prepare(addr, w, raw, day);
    if prep.None? then (w1, Attempt(None, None))
    else if prep.value.alreadyStored then (w1, Attempt(Some(prep.value.address), Some(AlreadyStored)))
    else if prep.value.uploadId == "" || prep.value.payments == [] then (w1, Attempt(None, None))
    else
      var (w2, proof) := Pay(w1, prep.value.payments, day);
      if proof.None? then (w2, Attempt(None, None))
      else
        var (w3, name) := Finalize(addr, w2, prep.value.uploadId, proof.value, day);
        if name != Some(prep.value.address) then (w3, Attempt(None, None))
        else if !verify then (w3, Attempt(name, Some(Published)))
        else if day.got == Some(raw) then (w3, Attempt(name, Some(Verified)))
        else (w3, Attempt(name, None))
  }

  /** The loop's body for one candidate. */
  function Step(addr: Bytes -> string, w: World, u: Row, opts: Options, day: Weather): (World, RowResult) {
    var result := RowResult(u.uuid, u.id, Failed, None);
    if opts.dryRun then (w, result.(outcome := DryRun))
    else if u.dataMap.None? || u.dataMap.value == "" then (w, result.(outcome := Skipped))
    else if Hex(u.dataMap.value).None? then (w, result)
    else
      var (w1, a) := Chunk(addr, w, Hex(u.dataMap.value).value, opts.verify, day);
      if a.outcome.None? || a.address.None? then (w1, result.(address := a.address))
      else
        var (w2, ok) := MarkPublished(WithoutRows(w1, day.late), u.id, a.address.value, day);
        (w2, result.(address := a.address, outcome := if ok then a.outcome.value else Failed))
  }

  function Account(run: Run, row: RowResult): Run {
    var r := run.(rows := run.rows + [row]);
    match row.outcome
    case Published => r.(published := r.published + 1)
    case Verified => r.(published := r.published + 1, verified := r.verified + 1)
    case AlreadyStored => r.(published := r.published + 1, alreadyStored := r.alreadyStored + 1)
    case Failed => r.(failed := r.failed + 1)
    case Skipped => r
    case DryRun => r
  }

  /** The rest of a run from candidate `i`, and whether it reached the end. */
  function Rest(addr: Bytes -> string, w: World, run: Run, us: seq<Row>, i: nat, opts: Options, days: nat -> Weather)
    : (World, Run, bool)
    requires i <= |us|
    decreases |us| - i
  {
    if i == |us| then (w, run, true)
    else
      var w0 := WithoutRows(w, days(i).gone);
      if days(i).cancelled then (w0, run, false)
      else
        var (w1, row) := Step(addr, w0, us[i], opts, days(i));
        Rest(addr, w1, Account(run, row), us, i + 1, opts, days)
  }

  function Started(us: seq<Row>, opts: Options): Run { Run(|us|, 0, 0, 0, 0, opts.dryRun, []) }

  function RunOnce(addr: Bytes -> string, w: World, opts: Options, days: nat -> Weather): (World, Run, bool) {
    var us := Selected(w.rows, opts);
    Rest(addr, w, Started(us, opts), us, 0, opts, days)
  }

  class Migration {
    var w: World
    const addr: Bytes -> string

    constructor (w: World, addr: Bytes -> string)
      ensures this.w == w && this.addr == addr
    {
      this.w := w;
      this.addr := addr;
    }

    method PublishChunk(raw: Bytes, verify: bool, day: Weather) returns (a: Attempt)
      modifies this
      ensures (w, a) == Chunk(addr, old(w), raw, verify, day)
    {
      var (w1, prep) := Prepare(addr, w, raw, day);
      w := w1;
      if prep.None? {
        return Attempt(None, None);
      }
      if prep.value.alreadyStored {
        return Attempt(Some(prep.value.address), Some(AlreadyStored));
      }
      if prep.value.uploadId == "" || |prep.value.payments| == 0 {
        return Attempt(None, None);
      }
      var (w2, proof) := Pay(w, prep.value.payments, day);
      w := w2;
      if proof.None? {
        return Attempt(None, None);
      }
      var (w3, name) := Finalize(addr, w, prep.value.uploadId, proof.value, day);
      w := w3;
      if name.None? || name.value != prep.value.address {
        return Attempt(None, None);
      }
      if verify {
        if day.got.None? || day.got.value != raw {
          return Attempt(name, None);
        }
        return Attempt(name, Some(Verified));
      }
      return Attempt(name, Some(Published));
    }

    method FilterByUuid(us: seq<Row>, uuid: string) returns (filtered: seq<Row>)
      ensures filtered == WithUuid(us, uuid)
    {
      filtered := [];
      for k := 0 to |us|
        invariant filtered == WithUuid(us[..k], uuid)
      {
        assert us[..k + 1][..k] == us[..k];
        if us[k].uuid == uuid {
          filtered := filtered + [us[k]];
        }
      }
      assert us[..|us|] == us;
    }

    method PublishRow(u: Row, opts: Options, day: Weather) returns (row: RowResult)
      modifies this
      ensures (w, row) == Step(addr, old(w), u, opts, day)
    {
      hide Chunk;
      row := RowResult(u.uuid, u.id, Failed, None);
      if opts.dryRun {
        return row.(outcome := DryRun);
      }
      if u.dataMap.None? || u.dataMap.value == "" {
        return row.(outcome := Skipped);
      }
      var raw := Hex(u.dataMap.value);
      if raw.None? {
        return;
      }
      var a := PublishChunk(raw.value, opts.verify, day);
      row := row.(address := a.address);
      if a.outcome.None? || a.address.None? {
        return;
      }
      var (w1, ok) := MarkPublished(WithoutRows(w, day.late), u.id, a.address.value, day);
      w := w1;
      if ok {
        row := row.(outcome := a.outcome.value);
      }
    }

    method PublishDataMaps(opts: Options, days: nat -> Weather) returns (run: Run, completed: bool)
      modifies this
      ensures (w, run, completed) == RunOnce(addr, old(w), opts, days)
    {
      hide Step, WithoutRows, Listed, WithUuid;
      var us := Listed(w.rows, opts.limit);
      if opts.uuid != "" {
        us := FilterByUuid(us, opts.uuid);
      }
      run := Run(|us|, 0, 0, 0, 0, opts.dryRun, []);
      var i := 0;
      while i < |us|
        invariant i <= |us|
        invariant Rest(addr, w, run, us, i, opts, days) == RunOnce(addr, old(w), opts, days)
      {
        w := WithoutRows(w, days(i).gone);
        if days(i).cancelled {
          return run, false;
        }
        var row := PublishRow(us[i], opts, days(i));
        run := run.(rows := run.rows + [row]);
        match row.outcome {
          case AlreadyStored =>
            run := run.(alreadyStored := run.alreadyStored + 1, published := run.published + 1);
          case Verified =>
            run := run.(verified := run.verified + 1, published := run.published + 1);
          case Published =>
            run := run.(published := run.published + 1);
          case Failed =>
            run := run.(failed := run.failed + 1);
          case Skipped =>
          case DryRun =>
        }
        i := i + 1;
      }
      completed := true;
    }
  }

  // ------------------------------------------------------------- one attempt

  /** Money moves only for a chunk that is not on the network; whenever an address
      comes back, even beside an error, it is the chunk's own and the chunk is on
      the network; and what this attempt itself stored was paid for in full. */
  lemma ChunkLaw(addr: Bytes -> string, w: World, raw: Bytes, verify: bool, day: Weather)
    ensures var (w', a) := Chunk(addr, w, raw, verify, day);
            && w'.rows == w.rows && w.net <= w'.net <= w.net + day.before + day.during + {raw}
            && w.paid <= w'.paid
            && (forall k :: |w.paid| <= k < |w'.paid| ==> w'.paid[k].chunk == raw && raw !in w.net + day.before)
            && (a.address.Some? ==> a.address == Some(addr(raw)) && raw in w'.net)
            && (a.outcome.Some? ==> a.address.Some? && a.outcome.value in {Published, Verified, AlreadyStored})
            && (a.outcome == Some(AlreadyStored) <==> day.prepares && raw in w.net + day.before)
            && (a.outcome.Some? && a.outcome != Some(AlreadyStored) ==>
                  && raw !in w.net + day.before && w.paid < w'.paid
                  && (a.outcome == Some(Verified) <==> verify)
                  && (verify ==> day.got == Some(raw)))
            && (raw in w'.net && raw !in w.net + day.before + day.during ==>
                  |w'.paid| == |w.paid| + |day.quotes| && day.quotes != []
                  && forall k :: 0 <= k < |day.quotes| ==> w'.paid[|w.paid| + k] == Payment(raw, day.quotes[k]))
  {
  }

  // --------------------------------------------------------- rows and ledgers

  predicate DistinctIds(rows: seq<Row>) { forall i, j :: 0 <= i < j < |rows| ==> rows[i].id != rows[j].id }

  /** A candidate whose DataMap decodes, after it was published under its own address. */
  function Flipped(addr: Bytes -> string, r: Row): Row
    requires r.dataMap.Some? && Hex(r.dataMap.value).Some?
  {
    r.(private := false, address := Some(addr(Hex(r.dataMap.value).value)))
  }

  /** A row is as it was, or was a candidate and is now public under the address
      of its own DataMap, which is on the network; deletion aside. */
  predicate RowEvolved(addr: Bytes -> string, r: Row, r': Row, net: set<Bytes>) {
    && (r'.live ==> r.live)
    && (r' == r.(live := r'.live)
        || (Candidate(r) && Hex(r.dataMap.value).Some? && Hex(r.dataMap.value).value in net
            && r' == Flipped(addr, r).(live := r'.live)))
  }

  /** What any stretch of runs may change. */
  predicate Progress(addr: Bytes -> string, w: World, w': World) {
    && w.net <= w'.net
    && w.paid <= w'.paid
    && (forall k :: |w.paid| <= k < |w'.paid| ==> w'.paid[k].chunk !in w.net)
    && |w.rows| <= |w'.rows|
    && (forall i :: 0 <= i < |w.rows| ==> RowEvolved(addr, w.rows[i], w'.rows[i], w'.net))
    && (DistinctIds(w.rows) ==> DistinctIds(w'.rows))
  }

  lemma ProgressChains(addr: Bytes -> string, a: World, b: World, c: World)
    requires Progress(addr, a, b) && Progress(addr, b, c)
    ensures Progress(addr, a, c)
  {
    forall k | |a.paid| <= k < |c.paid| ensures c.paid[k].chunk !in a.net {
      if k < |b.paid| { assert c.paid[k] == b.paid[k]; }
    }
    forall i | 0 <= i < |a.rows| ensures RowEvolved(addr, a.rows[i], c.rows[i], c.net) {
      assert RowEvolved(addr, a.rows[i], b.rows[i], b.net) && RowEvolved(addr, b.rows[i], c.rows[i], c.net);
    }
  }

  lemma RemovalProgress(addr: Bytes -> string, w: World, gone: set<int>)
    ensures Progress(addr, w, WithoutRows(w, gone))
  {
  }

  /** `u` is the row at `j` as the run's query saw it. */
  predicate Snapshot(addr: Bytes -> string, w: World, u: Row, j: nat) {
    j < |w.rows| && Candidate(u) && w.rows[j].id == u.id && RowEvolved(addr, u, w.rows[j], w.net)
  }

  ghost predicate Known(addr: Bytes -> string, w: World, u: Row) { exists j: nat :: Snapshot(addr, w, u, j) }

  lemma KnownStays(addr: Bytes -> string, w: World, w': World, u: Row)
    requires Progress(addr, w, w') && Known(addr, w, u)
    ensures Known(addr, w', u)
  {
    var j: nat :| Snapshot(addr, w, u, j);
    assert RowEvolved(addr, w.rows[j], w'.rows[j], w'.net);
    assert Snapshot(addr, w', u, j);
  }

  lemma MarkProgress(addr: Bytes -> string, w: World, u: Row)
    requires DistinctIds(w.rows) && Known(addr, w, u)
    requires Hex(u.dataMap.value).Some? && Hex(u.dataMap.value).value in w.net
    ensures Progress(addr, w, w.(rows := Marked(w.rows, u.id, addr(Hex(u.dataMap.value).value))))
  {
    var rows := Marked(w.rows, u.id, addr(Hex(u.dataMap.value).value));
    var j: nat :| Snapshot(addr, w, u, j);
    forall i | 0 <= i < |w.rows| ensures RowEvolved(addr, w.rows[i], rows[i], w.net) {
      if i != j { assert rows[i] == w.rows[i]; }
    }
  }

  lemma StepProgress(addr: Bytes -> string, w: World, u: Row, opts: Options, day: Weather)
    requires DistinctIds(w.rows) && Known(addr, w, u)
    ensures Progress(addr, w, Step(addr, w, u, opts, day).0)
  {
    hide Chunk;
    if !opts.dryRun && Hex(u.dataMap.value).Some? {
      var raw := Hex(u.dataMap.value).value;
      ChunkLaw(addr, w, raw, opts.verify, day);
      var (w1, a) := Chunk(addr, w, raw, opts.verify, day);
      assert Progress(addr, w, w1);
      if a.outcome.Some? {
        var w2 := WithoutRows(w1, day.late);
        RemovalProgress(addr, w1, day.late);
        ProgressChains(addr, w, w1, w2);
        KnownStays(addr, w, w2, u);
        if day.lands {
          MarkProgress(addr, w2, u);
          ProgressChains(addr, w, w2, Step(addr, w, u, opts, day).0);
        }
      }
    }
  }

  lemma {:induction false} RestProgress(addr: Bytes -> string, w: World, run: Run, us: seq<Row>, i: nat,
                                        opts: Options, days: nat -> Weather)
    requires i <= |us| && DistinctIds(w.rows)
    requires forall k :: i <= k < |us| ==> Known(addr, w, us[k])
    ensures Progress(addr, w, Rest(addr, w, run, us, i, opts, days).0)
    decreases |us| - i
  {
    hide Step;
    if i < |us| {
      var w0 := WithoutRows(w, days(i).gone);
      RemovalProgress(addr, w, days(i).gone);
      if !days(i).cancelled {
        KnownStays(addr, w, w0, us[i]);
        StepProgress(addr, w0, us[i], opts, days(i));
        var (w1, row) := Step(addr, w0, us[i], opts, days(i));
        ProgressChains(addr, w, w0, w1);
        forall k | i + 1 <= k < |us| ensures Known(addr, w1, us[k]) { KnownStays(addr, w, w1, us[k]); }
        RestProgress(addr, w1, Account(run, row), us, i + 1, opts, days);
        ProgressChains(addr, w, w1, Rest(addr, w1, Account(run, row), us, i + 1, opts, days).0);
      }
    }
  }

  // ------------------------------------------------------ what a run selects

  lemma {:induction false} CandidatesAre(rows: seq<Row>, r: Row)
    ensures r in Candidates(rows) <==> r in rows && Candidate(r)
  {
    if rows != [] {
      CandidatesAre(rows[..|rows| - 1], r);
      assert rows == rows[..|rows| - 1] + [rows[|rows| - 1]];
    }
  }

  lemma {:induction false} WithUuidAre(us: seq<Row>, uuid: string, r: Row)
    ensures r in WithUuid(us, uuid) <==> r in us && r.uuid == uuid
  {
    if us != [] {
      WithUuidAre(us[..|us| - 1], uuid, r);
      assert us == us[..|us| - 1] + [us[|us| - 1]];
    }
  }

  lemma {:induction false} CandidatesInOrder(rows: seq<Row>, j: nat)
    requires j < |rows| && Candidate(rows[j])
    ensures |Candidates(rows[..j])| < |Candidates(rows)|
    ensures Candidates(rows)[|Candidates(rows[..j])|] == rows[j]
    ensures Candidates(rows[..j]) <= Candidates(rows)
  {
    if j == |rows| - 1 {
    } else {
      CandidatesInOrder(rows[..|rows| - 1], j);
      assert rows[..|rows| - 1][..j] == rows[..j];
    }
  }

  lemma {:induction false} CandidatesDistinct(rows: seq<Row>)
    requires DistinctIds(rows)
    ensures DistinctIds(Candidates(rows))
  {
    if rows != [] {
      var before := rows[..|rows| - 1];
      CandidatesDistinct(before);
      forall i | 0 <= i < |Candidates(before)|
        ensures Candidates(before)[i].id != rows[|rows| - 1].id
      {
        CandidatesAre(before, Candidates(before)[i]);
        var k :| 0 <= k < |before| && before[k] == Candidates(before)[i];
        assert rows[k] == before[k];
      }
    }
  }

  lemma NotBefore(us: seq<Row>, n: nat, at: nat)
    requires DistinctIds(us) && n <= at < |us|
    ensures us[at] !in us[..n]
  {
  }

  /** A row is attempted exactly when it is there, completed, private and has a
      DataMap but no address, has the wanted UUID if one is given, and fewer than
      `limit` candidates come before it, whatever their UUID. */
  lemma SelectedIff(rows: seq<Row>, opts: Options, j: nat)
    requires DistinctIds(rows) && j < |rows|
    ensures rows[j] in Selected(rows, opts) <==>
            && rows[j].live && rows[j].completed && rows[j].private
            && rows[j].address.None? && rows[j].dataMap.Some? && rows[j].dataMap.value != ""
            && (opts.uuid == "" || rows[j].uuid == opts.uuid)
            && (opts.limit <= 0 || |Candidates(rows[..j])| < opts.limit)
  {
    var listed := Listed(rows, opts.limit);
    var all := Candidates(rows);
    CandidatesAre(rows, rows[j]);
    WithUuidAre(listed, opts.uuid, rows[j]);
    if Candidate(rows[j]) {
      CandidatesInOrder(rows, j);
      var at := |Candidates(rows[..j])|;
      if 0 < opts.limit < |all| {
        if at < opts.limit {
          assert listed[at] == rows[j];
        } else {
          CandidatesDistinct(rows);
          NotBefore(all, opts.limit, at);
        }
      }
    }
  }

  lemma SelectedKnown(addr: Bytes -> string, w: World, opts: Options)
    ensures var us := Selected(w.rows, opts); forall k :: 0 <= k < |us| ==> Candidate(us[k]) && Known(addr, w, us[k])
  {
    var us := Selected(w.rows, opts);
    forall k | 0 <= k < |us| ensures Candidate(us[k]) && Known(addr, w, us[k]) {
      WithUuidAre(Listed(w.rows, opts.limit), opts.uuid, us[k]);
      assert us[k] in us;
      assert us[k] in Listed(w.rows, opts.limit);
      assert us[k] in Candidates(w.rows);
      CandidatesAre(w.rows, us[k]);
      var j :| 0 <= j < |w.rows| && w.rows[j] == us[k];
      assert Snapshot(addr, w, us[k], j);
    }
  }

  /** A row reported as published, verified or already stored really is: its chunk
      is on the network, and the table has it public under its own address unless
      it was deleted while it was being published, when no row is left to update
      and none is. */
  lemma SuccessIsRecorded(addr: Bytes -> string, w: World, u: Row, opts: Options, day: Weather, j: nat)
    requires j < |w.rows| && w.rows[j].id == u.id && w.rows[j].live
    requires Step(addr, w, u, opts, day).1.outcome in {Published, Verified, AlreadyStored}
    ensures var (w', row) := Step(addr, w, u, opts, day);
            && u.dataMap.Some? && Hex(u.dataMap.value).Some?
            && Hex(u.dataMap.value).value in w'.net
            && row.address == Some(addr(Hex(u.dataMap.value).value))
            && (w'.rows[j].live <==> u.id !in day.late)
            && (u.id !in day.late ==> PublishedAs(addr, w', j, u))
            && (u.id in day.late ==> w'.rows[j] == w.rows[j].(live := false))
            && (row.outcome == Verified ==> opts.verify)
  {
    hide Chunk;
    ChunkLaw(addr, w, Hex(u.dataMap.value).value, opts.verify, day);
  }

  // --------------------------------------------------------------- histories

  /** Migrations, and what happens between them. */
  datatype Event =
    | Migrate(opts: Options, days: nat -> Weather)
    | Uploaded(row: Row)
    | Deleted(id: int)
    | StoredByOthers(chunks: set<Bytes>)

  function Apply(addr: Bytes -> string, w: World, e: Event): World {
    match e
    case Migrate(opts, days) => RunOnce(addr, w, opts, days).0
    case Uploaded(row) =>
      if exists i :: 0 <= i < |w.rows| && w.rows[i].id == row.id then w else w.(rows := w.rows + [row])
    case Deleted(id) => WithoutRows(w, {id})
    case StoredByOthers(chunks) => w.(net := w.net + chunks)
  }

  function After(addr: Bytes -> string, w: World, es: seq<Event>): World {
    if es == [] then w else Apply(addr, After(addr, w, es[..|es| - 1]), es[|es| - 1])
  }

  lemma ApplyProgress(addr: Bytes -> string, w: World, e: Event)
    requires DistinctIds(w.rows)
    ensures Progress(addr, w, Apply(addr, w, e))
  {
    match e
    case Migrate(opts, days) =>
      var us := Selected(w.rows, opts);
      SelectedKnown(addr, w, opts);
      RestProgress(addr, w, Started(us, opts), us, 0, opts, days);
    case Uploaded(row) =>
    case Deleted(id) => RemovalProgress(addr, w, {id});
    case StoredByOthers(chunks) =>
  }

  /** Over any history of runs, failing and interrupted as they may be: no payment
      is ever made for a chunk that was on the network when the history began, and
      every row is as it was or public under the address of its own DataMap. */
  lemma {:induction false} HistoryProgress(addr: Bytes -> string, w: World, es: seq<Event>)
    requires DistinctIds(w.rows)
    ensures Progress(addr, w, After(addr, w, es))
  {
    if es != [] {
      var before := After(addr, w, es[..|es| - 1]);
      HistoryProgress(addr, w, es[..|es| - 1]);
      ApplyProgress(addr, before, es[|es| - 1]);
      ProgressChains(addr, w, before, After(addr, w, es));
    } else {
      assert Progress(addr, w, w);
    }
  }

  /** Spelled out for one row: all that a history changes of it, deletion aside, is
      that a private completed row with a decodable DataMap and no address becomes
      public under that DataMap's address. */
  lemma OnlyCandidatesChange(addr: Bytes -> string, w: World, es: seq<Event>, i: nat)
    requires DistinctIds(w.rows) && i < |w.rows|
    ensures var r, rows := w.rows[i], After(addr, w, es).rows;
            && i < |rows|
            && (rows[i] != r.(live := rows[i].live) ==>
                  && r.live && r.completed && r.private && r.address.None?
                  && r.dataMap.Some? && r.dataMap.value != "" && Hex(r.dataMap.value).Some?
                  && rows[i] == r.(live := rows[i].live, private := false,
                                   address := Some(addr(Hex(r.dataMap.value).value))))
  {
    HistoryProgress(addr, w, es);
    var w' := After(addr, w, es);
    hide After, Hex;
    assert RowEvolved(addr, w.rows[i], w'.rows[i], w'.net);
  }

  /** A candidate that came back with an address is never paid for again, neither
      in the rest of its own run, where another row may hold the same DataMap,
      nor in any later history, even when verification failed or its row update
      was lost. */
  lemma LostUpdateCostsNothing(addr: Bytes -> string, w: World, run: Run, us: seq<Row>, i: nat, opts: Options,
                               days: nat -> Weather, es: seq<Event>)
    requires i < |us| && DistinctIds(w.rows) && us[i].dataMap.Some? && Hex(us[i].dataMap.value).Some?
    requires forall k :: i <= k < |us| ==> Known(addr, w, us[k])
    requires Step(addr, w, us[i], opts, days(i)).1.address.Some?
    ensures var raw := Hex(us[i].dataMap.value).value;
            var (w1, row) := Step(addr, w, us[i], opts, days(i));
            var w2 := Rest(addr, w1, Account(run, row), us, i + 1, opts, days).0;
            var w3 := After(addr, w2, es);
            && raw in w1.net && w1.paid <= w2.paid <= w3.paid
            && forall k :: |w1.paid| <= k < |w3.paid| ==> w3.paid[k].chunk != raw
  {
    hide Chunk, After, Progress, Rest, Known;
    var (w1, row) := Step(addr, w, us[i], opts, days(i));
    var w2 := Rest(addr, w1, Account(run, row), us, i + 1, opts, days).0;
    StepProgress(addr, w, us[i], opts, days(i));
    StepStays(addr, w, us[i], opts, days(i));
    AddressIsStored(addr, w, us[i], opts, days(i));
    forall k | i + 1 <= k < |us| ensures Known(addr, w1, us[k]) { KnownStays(addr, w, w1, us[k]); }
    hide Step;
    RestProgress(addr, w1, Account(run, row), us, i + 1, opts, days);
    ProgressSays(addr, w1, w2);
    HistoryProgress(addr, w2, es);
    ProgressChains(addr, w1, w2, After(addr, w2, es));
    ProgressSays(addr, w2, After(addr, w2, es));
    ProgressSays(addr, w1, After(addr, w2, es));
  }

  lemma AddressIsStored(addr: Bytes -> string, w: World, u: Row, opts: Options, day: Weather)
    requires u.dataMap.Some? && Hex(u.dataMap.value).Some? && Step(addr, w, u, opts, day).1.address.Some?
    ensures Hex(u.dataMap.value).value in Step(addr, w, u, opts, day).0.net
  {
    hide Chunk;
    ChunkLaw(addr, w, Hex(u.dataMap.value).value, opts.verify, day);
  }

  lemma StepStays(addr: Bytes -> string, w: World, u: Row, opts: Options, day: Weather)
    requires DistinctIds(w.rows) && Known(addr, w, u)
    ensures DistinctIds(Step(addr, w, u, opts, day).0.rows)
  {
    StepProgress(addr, w, u, opts, day);
  }

  lemma ProgressSays(addr: Bytes -> string, w: World, w': World)
    requires Progress(addr, w, w')
    ensures DistinctIds(w.rows) ==> DistinctIds(w'.rows)
    ensures w.paid <= w'.paid && forall k :: |w.paid| <= k < |w'.paid| ==> w'.paid[k].chunk !in w.net
  {
  }

  // ------------------------------------------------------------ the accounts

  function Count(rows: seq<RowResult>, o: Outcome): nat {
    if rows == [] then 0 else Count(rows[..|rows| - 1], o) + if rows[|rows| - 1].outcome == o then 1 else 0
  }

  predicate Tally(run: Run) {
    && run.verified == Count(run.rows, Verified)
    && run.alreadyStored == Count(run.rows, AlreadyStored)
    && run.published == Count(run.rows, Published) + run.verified + run.alreadyStored
    && run.failed == Count(run.rows, Failed)
    && |run.rows| == run.published + run.failed + Count(run.rows, Skipped) + Count(run.rows, DryRun)
  }

  lemma CountAppend(rows: seq<RowResult>, row: RowResult, o: Outcome)
    ensures Count(rows + [row], o) == Count(rows, o) + if row.outcome == o then 1 else 0
  {
    var all := rows + [row];
    assert all[..|all| - 1] == rows;
  }

  lemma AccountTally(run: Run, row: RowResult)
    requires Tally(run)
    ensures Tally(Account(run, row))
  {
    hide Count;
    CountAppend(run.rows, row, Published);
    CountAppend(run.rows, row, Verified);
    CountAppend(run.rows, row, AlreadyStored);
    CountAppend(run.rows, row, Failed);
    CountAppend(run.rows, row, Skipped);
    CountAppend(run.rows, row, DryRun);
  }

  /** Result `t` of a run is about candidate `t`. */
  predicate Reports(run: Run, us: seq<Row>, dry: bool) {
    |run.rows| <= |us| && forall t :: 0 <= t < |run.rows| ==>
      && run.rows[t].id == us[t].id && run.rows[t].uuid == us[t].uuid
      && run.rows[t].outcome != Skipped && (run.rows[t].outcome == DryRun <==> dry)
  }

  lemma StepReports(addr: Bytes -> string, w: World, u: Row, opts: Options, day: Weather)
    requires Candidate(u)
    ensures var row := Step(addr, w, u, opts, day).1;
            && row.id == u.id && row.uuid == u.uuid && row.outcome != Skipped
            && (row.outcome == DryRun <==> opts.dryRun)
  {
    hide Chunk;
    if Hex(u.dataMap.value).Some? { ChunkLaw(addr, w, Hex(u.dataMap.value).value, opts.verify, day); }
  }

  lemma {:induction false} RestTally(addr: Bytes -> string, w: World, run: Run, us: seq<Row>, i: nat,
                                     opts: Options, days: nat -> Weather)
    requires |run.rows| == i <= |us| && Tally(run) && Reports(run, us, opts.dryRun)
    requires forall k :: 0 <= k < |us| ==> Candidate(us[k])
    ensures var (_, run', completed) := Rest(addr, w, run, us, i, opts, days);
            && Tally(run') && Reports(run', us, opts.dryRun) && run.rows <= run'.rows
            && run'.candidates == run.candidates && run'.dryRun == run.dryRun
            && (completed <==> |run'.rows| == |us|)
    decreases |us| - i
  {
    hide Step, Tally;
    if i < |us| && !days(i).cancelled {
      var w0 := WithoutRows(w, days(i).gone);
      var (w1, row) := Step(addr, w0, us[i], opts, days(i));
      StepReports(addr, w0, us[i], opts, days(i));
      AccountTally(run, row);
      RestTally(addr, w1, Account(run, row), us, i + 1, opts, days);
    }
  }

  lemma {:induction false} CountNone(rows: seq<RowResult>, o: Outcome)
    requires forall t :: 0 <= t < |rows| ==> rows[t].outcome != o
    ensures Count(rows, o) == 0
  {
    if rows != [] { CountNone(rows[..|rows| - 1], o); }
  }

  lemma {:induction false} CountAll(rows: seq<RowResult>, o: Outcome)
    requires forall t :: 0 <= t < |rows| ==> rows[t].outcome == o
    ensures Count(rows, o) == |rows|
  {
    if rows != [] { CountAll(rows[..|rows| - 1], o); }
  }

  /** The summary of any run: one result per attempted candidate in order, complete
      exactly when the run was not cut short, every result counted once, and none
      ever "skipped" because the query already excludes a missing DataMap. */
  lemma RunCounts(addr: Bytes -> string, w: World, opts: Options, days: nat -> Weather)
    ensures var us := Selected(w.rows, opts); var (_, run, completed) := RunOnce(addr, w, opts, days);
            && run.candidates == |us| && Tally(run) && Reports(run, us, opts.dryRun)
            && (completed <==> |run.rows| == run.candidates)
            && Count(run.rows, Skipped) == 0
            && (if opts.dryRun then run.published == run.failed == 0
                else |run.rows| == run.published + run.failed)
  {
    hide Rest, Selected;
    var us := Selected(w.rows, opts);
    SelectedKnown(addr, w, opts);
    RestTally(addr, w, Started(us, opts), us, 0, opts, days);
    var (w', run, completed) := RunOnce(addr, w, opts, days);
    CountNone(run.rows, Skipped);
    if opts.dryRun { CountAll(run.rows, DryRun); } else { CountNone(run.rows, DryRun); }
  }

  /** A dry run asks the daemon and the wallet nothing and writes to no row: all
      that changes meanwhile is what others delete. */
  lemma {:induction false} DryRestTouchesNothing(addr: Bytes -> string, w: World, run: Run, us: seq<Row>, i: nat,
                                                 opts: Options, days: nat -> Weather)
    requires i <= |us| && opts.dryRun
    ensures var w' := Rest(addr, w, run, us, i, opts, days).0;
            && w'.net == w.net && w'.sessions == w.sessions && w'.paid == w.paid && |w'.rows| == |w.rows|
            && forall j :: 0 <= j < |w.rows| ==>
                 w'.rows[j] == w.rows[j].(live := w'.rows[j].live) && (w'.rows[j].live ==> w.rows[j].live)
    decreases |us| - i
  {
    if i < |us| && !days(i).cancelled {
      var w0 := WithoutRows(w, days(i).gone);
      DryRestTouchesNothing(addr, w0, Account(run, Step(addr, w0, us[i], opts, days(i)).1), us, i + 1, opts, days);
    }
  }

  lemma DryRunTouchesNothing(addr: Bytes -> string, w: World, opts: Options, days: nat -> Weather)
    requires opts.dryRun
    ensures var w' := RunOnce(addr, w, opts, days).0;
            && w'.net == w.net && w'.sessions == w.sessions && w'.paid == w.paid && |w'.rows| == |w.rows|
            && forall j :: 0 <= j < |w.rows| ==>
                 w'.rows[j] == w.rows[j].(live := w'.rows[j].live) && (w'.rows[j].live ==> w.rows[j].live)
  {
    var us := Selected(w.rows, opts);
    DryRestTouchesNothing(addr, w, Started(us, opts), us, 0, opts, days);
  }

  lemma {:induction false} RestStops(addr: Bytes -> string, w: World, run: Run, us: seq<Row>, i: nat, n: nat,
                                     opts: Options, days: nat -> Weather)
    requires i <= n <= |us| && forall k :: i <= k < n ==> !days(k).cancelled
    requires n < |us| ==> days(n).cancelled
    ensures var (_, run', completed) := Rest(addr, w, run, us, i, opts, days);
            (completed <==> n == |us|) && |run'.rows| == |run.rows| + n - i
    decreases |us| - i
  {
    hide Step;
    if i < n {
      var w0 := WithoutRows(w, days(i).gone);
      var (w1, row) := Step(addr, w0, us[i], opts, days(i));
      RestStops(addr, w1, Account(run, row), us, i + 1, n, opts, days);
    }
  }

  /** A run attempts exactly the candidates before the one at which it finds itself
      cancelled, and completes if and only if that never happens. */
  lemma CancellationStops(addr: Bytes -> string, w: World, opts: Options, days: nat -> Weather, n: nat)
    requires n <= |Selected(w.rows, opts)| && forall k :: 0 <= k < n ==> !days(k).cancelled
    requires n < |Selected(w.rows, opts)| ==> days(n).cancelled
    ensures var (_, run, completed) := RunOnce(addr, w, opts, days);
            (completed <==> n == |Selected(w.rows, opts)|) && |run.rows| == n
  {
    var us := Selected(w.rows, opts);
    hide Selected, Rest;
    RestStops(addr, w, Started(us, opts), us, 0, n, opts, days);
  }

  // ------------------------------------------------------------ hex both ways

  function HexDigit(n: nat): char
    requires n < 16
  {
    "0123456789abcdef"[n]
  }

  /** Lower-case hex, two digits a byte. */
  function HexText(b: Bytes): string
    requires forall i :: 0 <= i < |b| ==> b[i] as int < 256
  {
    if b == "" then "" else [HexDigit(b[0] as int / 16), HexDigit(b[0] as int % 16)] + HexText(b[1..])
  }

  function LowerChar(c: char): char { if 'A' <= c <= 'F' then (c as int - 'A' as int + 'a' as int) as char else c }

  function Lower(s: string): string { seq(|s|, i requires 0 <= i < |s| => LowerChar(s[i])) }

  lemma NibbleOfDigit(n: nat)
    requires n < 16
    ensures Nibble(HexDigit(n)) == Some(n)
  {
  }

  lemma DigitOfNibble(c: char)
    requires Nibble(c).Some?
    ensures HexDigit(Nibble(c).value) == LowerChar(c)
  {
  }

  lemma JoinByte(n: nat)
    requires n < 256
    ensures n / 16 < 16 && n % 16 < 16 && 16 * (n / 16) + n % 16 == n
  {
  }

  /** One byte's two digits in front of a text are read as that byte. */
  lemma HexFront(n: nat, s: string)
    requires n < 256
    ensures var t := [HexDigit(n / 16), HexDigit(n % 16)] + s;
            Hex(t) == if Hex(s).None? then None else Some([n as char] + Hex(s).value)
  {
    JoinByte(n);
    var x, y := n / 16, n % 16;
    NibbleOfDigit(x);
    NibbleOfDigit(y);
    var t := [HexDigit(x), HexDigit(y)] + s;
    assert t[2..] == s && t[0] == HexDigit(x) && t[1] == HexDigit(y);
    hide HexDigit, Nibble;
  }

  lemma {:induction false} HexReadsBack(b: Bytes)
    requires forall i :: 0 <= i < |b| ==> b[i] as int < 256
    ensures Hex(HexText(b)) == Some(b)
  {
    if b != "" {
      HexReadsBack(b[1..]);
      HexFront(b[0] as int, HexText(b[1..]));
      assert [b[0]] + b[1..] == b;
      hide Hex, HexDigit;
    }
  }

  lemma SplitByte(x: nat, y: nat)
    requires x < 16 && y < 16
    ensures 16 * x + y < 256 && (16 * x + y) / 16 == x && (16 * x + y) % 16 == y
  {
  }

  lemma HexByteFront(n: nat, b: Bytes)
    requires n < 256 && forall i :: 0 <= i < |b| ==> b[i] as int < 256
    ensures HexText([n as char] + b) == [HexDigit(n / 16), HexDigit(n % 16)] + HexText(b)
  {
    var c := n as char;
    assert c as int == n;
    assert ([c] + b)[1..] == b && ([c] + b)[0] == c;
    hide HexDigit;
  }

  lemma HexTextFront(x: nat, y: nat, b: Bytes)
    requires x < 16 && y < 16 && forall i :: 0 <= i < |b| ==> b[i] as int < 256
    ensures 16 * x + y < 256
    ensures HexText([(16 * x + y) as char] + b) == [HexDigit(x), HexDigit(y)] + HexText(b)
  {
    hide HexDigit, HexText;
    var n := 16 * x + y;
    SplitByte(x, y);
    HexByteFront(n, b);
  }

  lemma HexUnfolds(s: string) returns (x: nat, y: nat, rest: Bytes)
    requires s != "" && Hex(s).Some?
    ensures |s| >= 2 && Nibble(s[0]) == Some(x) && Nibble(s[1]) == Some(y) && Hex(s[2..]) == Some(rest)
    ensures x < 16 && y < 16 && Hex(s).value == [(16 * x + y) as char] + rest
  {
    x, y, rest := Nibble(s[0]).value, Nibble(s[1]).value, Hex(s[2..]).value;
    hide Nibble;
  }

  lemma {:induction false} HexWasText(s: string)
    requires Hex(s).Some?
    ensures forall i :: 0 <= i < |Hex(s).value| ==> Hex(s).value[i] as int < 256
    ensures HexText(Hex(s).value) == Lower(s)
  {
    if s != "" {
      var x, y, rest := HexUnfolds(s);
      HexWasText(s[2..]);
      HexTextFront(x, y, rest);
      DigitOfNibble(s[0]);
      DigitOfNibble(s[1]);
      assert Lower(s) == [LowerChar(s[0]), LowerChar(s[1])] + Lower(s[2..]);
      hide Hex, HexText, Nibble, HexDigit, Lower, LowerChar;
    }
  }

  lemma NibbleIgnoresCase(c: char)
    ensures Nibble(LowerChar(c)) == Nibble(c)
  {
  }

  lemma {:induction false} HexIgnoresCase(s: string)
    ensures Hex(Lower(s)) == Hex(s)
  {
    if |s| == 1 {
      assert |Lower(s)| == 1;
    } else if |s| > 1 {
      HexIgnoresCase(s[2..]);
      NibbleIgnoresCase(s[0]);
      NibbleIgnoresCase(s[1]);
      assert Lower(s)[2..] == Lower(s[2..]);
      assert Lower(s)[0] == LowerChar(s[0]) && Lower(s)[1] == LowerChar(s[1]);
      hide Nibble, Lower, LowerChar;
    }
  }

  /** A text decodes to some bytes if and only if it is their hex text, in either
      letter case. */
  lemma HexIff(s: string, b: Bytes)
    requires forall i :: 0 <= i < |b| ==> b[i] as int < 256
    ensures Hex(s) == Some(b) <==> Lower(s) == HexText(b)
  {
    HexIgnoresCase(s);
    HexReadsBack(b);
    if Hex(s).Some? {
      HexWasText(s);
    }
    hide Hex, HexText, Lower;
  }

  // ------------------------------------------------------------- convergence

  /** No call fails, nothing is deleted, and the daemon answers properly. */
  predicate Calm(day: Weather, u: Row, verify: bool) {
    && !day.cancelled && day.gone == {} && day.late == {} && day.prepares && day.uploadId != "" && day.quotes != []
    && day.pays && day.stores && day.replies && day.misnames.None? && day.lands && day.reports
    && (verify && u.dataMap.Some? ==> day.got == Hex(u.dataMap.value))
  }

  lemma CalmChunk(addr: Bytes -> string, w: World, u: Row, verify: bool, day: Weather)
    requires Candidate(u) && Hex(u.dataMap.value).Some? && Calm(day, u, verify)
    ensures var (w', a) := Chunk(addr, w, Hex(u.dataMap.value).value, verify, day);
            a.outcome.Some? && a.address == Some(addr(Hex(u.dataMap.value).value)) && w'.rows == w.rows
  {
  }

  lemma CalmKeepsLive(addr: Bytes -> string, w: World, u: Row, opts: Options, day: Weather)
    requires Calm(day, u, opts.verify)
    ensures WithoutRows(w, day.gone) == w
    ensures var w' := Step(addr, w, u, opts, day).0;
            |w'.rows| == |w.rows| && forall j :: 0 <= j < |w.rows| ==>
              w'.rows[j].live == w.rows[j].live && w'.rows[j].id == w.rows[j].id
  {
    hide Chunk;
    if u.dataMap.Some? && Hex(u.dataMap.value).Some? {
      ChunkLaw(addr, w, Hex(u.dataMap.value).value, opts.verify, day);
    }
  }

  /** Row `j` is public under the address of `u`'s DataMap. */
  predicate PublishedAs(addr: Bytes -> string, w: World, j: nat, u: Row) {
    && u.dataMap.Some? && Hex(u.dataMap.value).Some?
    && j < |w.rows| && !w.rows[j].private && w.rows[j].address == Some(addr(Hex(u.dataMap.value).value))
  }

  lemma PublishedStays(addr: Bytes -> string, w: World, w': World, j: nat, u: Row)
    requires Progress(addr, w, w') && PublishedAs(addr, w, j, u)
    ensures PublishedAs(addr, w', j, u)
  {
    assert RowEvolved(addr, w.rows[j], w'.rows[j], w'.net);
  }

  lemma CalmStep(addr: Bytes -> string, w: World, u: Row, opts: Options, day: Weather, j: nat)
    requires Candidate(u) && Hex(u.dataMap.value).Some? && Calm(day, u, opts.verify) && !opts.dryRun
    requires j < |w.rows| && w.rows[j].id == u.id && w.rows[j].live
    ensures PublishedAs(addr, Step(addr, w, u, opts, day).0, j, u)
  {
    hide Chunk;
    CalmChunk(addr, w, u, opts.verify, day);
  }

  lemma {:induction false} CalmRest(addr: Bytes -> string, w: World, run: Run, us: seq<Row>, i: nat, opts: Options,
                                    days: nat -> Weather, j: nat, k: nat)
    requires i <= k < |us| && j < |w.rows| && w.rows[j].id == us[k].id && w.rows[j].live
    requires us[k].dataMap.Some? && Hex(us[k].dataMap.value).Some? && DistinctIds(w.rows) && !opts.dryRun
    requires forall t :: i <= t < |us| ==> Candidate(us[t]) && Known(addr, w, us[t]) && Calm(days(t), us[t], opts.verify)
    ensures var (w', _, completed) := Rest(addr, w, run, us, i, opts, days); completed && PublishedAs(addr, w', j, us[k])
    decreases |us| - i
  {
    hide Step, Calm, Candidate, Known, RowEvolved, PublishedAs, Hex;
    assert Calm(days(i), us[i], opts.verify);
    assert !days(i).cancelled by { CalmGoes(days(i), us[i], opts.verify); }
    CalmKeepsLive(addr, w, us[i], opts, days(i));
    var w0 := WithoutRows(w, days(i).gone);
    assert w0 == w;
    var (w1, row) := Step(addr, w, us[i], opts, days(i));
    StepProgress(addr, w, us[i], opts, days(i));
    forall t | i + 1 <= t < |us| ensures Known(addr, w1, us[t]) { KnownStays(addr, w, w1, us[t]); }
    if i < k {
      CalmRest(addr, w1, Account(run, row), us, i + 1, opts, days, j, k);
    } else {
      CalmStep(addr, w, us[k], opts, days(k), j);
      RestProgress(addr, w1, Account(run, row), us, i + 1, opts, days);
      CalmFinishes(addr, w1, Account(run, row), us, i + 1, opts, days);
      PublishedStays(addr, w1, Rest(addr, w1, Account(run, row), us, i + 1, opts, days).0, j, us[k]);
    }
  }

  lemma CalmGoes(day: Weather, u: Row, verify: bool)
    requires Calm(day, u, verify)
    ensures !day.cancelled
  {
  }

  lemma {:induction false} CalmFinishes(addr: Bytes -> string, w: World, run: Run, us: seq<Row>, i: nat,
                                        opts: Options, days: nat -> Weather)
    requires i <= |us| && forall t :: i <= t < |us| ==> Calm(days(t), us[t], opts.verify)
    ensures Rest(addr, w, run, us, i, opts, days).2
    decreases |us| - i
  {
    hide Step, Calm;
    if i < |us| {
      CalmGoes(days(i), us[i], opts.verify);
      var w0 := WithoutRows(w, days(i).gone);
      var (w1, row) := Step(addr, w0, us[i], opts, days(i));
      CalmFinishes(addr, w1, Account(run, row), us, i + 1, opts, days);
    }
  }

  /** After any history, one run in which nothing fails publishes every selected
      candidate whose DataMap decodes, under its own address, whatever earlier
      runs left behind; and it pays only for chunks not yet on the network. */
  lemma CalmRunCompletes(addr: Bytes -> string, w: World, opts: Options, days: nat -> Weather, j: nat)
    requires DistinctIds(w.rows) && !opts.dryRun
    requires var us := Selected(w.rows, opts); forall t :: 0 <= t < |us| ==> Calm(days(t), us[t], opts.verify)
    requires j < |w.rows| && Candidate(w.rows[j]) && Hex(w.rows[j].dataMap.value).Some?
    requires opts.uuid == "" || w.rows[j].uuid == opts.uuid
    requires opts.limit <= 0 || |Candidates(w.rows[..j])| < opts.limit
    ensures var (w', run, completed) := RunOnce(addr, w, opts, days);
            completed && PublishedAs(addr, w', j, w.rows[j]) && Progress(addr, w, w')
  {
    hide Calm, Known, Rest, Selected, PublishedAs, Progress, Hex;
    var us := Selected(w.rows, opts);
    SelectedIff(w.rows, opts, j);
    SelectedKnown(addr, w, opts);
    var k :| 0 <= k < |us| && us[k] == w.rows[j];
    CalmRest(addr, w, Started(us, opts), us, 0, opts, days, j, k);
    RestProgress(addr, w, Started(us, opts), us, 0, opts, days);
  }
}
