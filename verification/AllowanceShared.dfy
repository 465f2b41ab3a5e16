/** One signer, many uploads: what the allowance protocol keeps when the payments
    of any number of plans interleave on one wallet, and exactly when a plan gets
    by with the approval it sent ahead. */
module SharedAllowance {
  import opened Base
  import opened Medians
  import opened Merkle
  import opened Allowance

  /** One call on the signer, by whichever upload.  The signer is locked for the
      whole call, and for no longer. */
  datatype Call =
    | ApprovePlan(batches: seq<Batch>, readable: bool, tx: Tx)
    | PayBatch(batch: Batch, weather: Weather)
    | PayUpload(quotes: seq<Amount>, weather: Weather)

  function Do(c: Chain, call: Call): (Chain, bool) {
    match call
    case ApprovePlan(batches, readable, tx) => EnsurePlan(c, batches, readable, tx)
    case PayBatch(batch, weather) => Pay(c, batch, weather)
    case PayUpload(quotes, weather) => PayQuotes(c, quotes, weather)
  }

  /** The chain after the calls, and which of them were seen to succeed. */
  function DoAll(c: Chain, calls: seq<Call>): (r: (Chain, seq<bool>))
    ensures |r.1| == |calls|
  {
    if calls == [] then (c, [])
    else
      var before := DoAll(c, calls[..|calls| - 1]);
      var last := Do(before.0, calls[|calls| - 1]);
      (last.0, before.1 + [last.1])
  }

  /** Batches reach the signer validated. */
  predicate Proper(call: Call) {
    match call
    case ApprovePlan(batches, _, _) => forall i :: 0 <= i < |batches| ==> Validated(batches[i])
    case PayBatch(batch, _) => Validated(batch)
    case PayUpload(_, _) => true
  }

  /** The allowance a call asks for. */
  function Asked(call: Call): nat {
    match call
    case ApprovePlan(batches, _, _) => PlanCharge(batches)
    case PayBatch(batch, _) => Charge(batch.depth, PoolAmounts(batch.pools))
    case PayUpload(quotes, _) => var t := Total(quotes); if t.None? then 0 else Max(t.value, 0)
  }

  /** The most a call can pull. */
  function Spendable(call: Call): nat { if call.ApprovePlan? then 0 else Asked(call) }

  /** One call, whatever state the others left: it sends at most one approval, and
      only when it finds less than it asks for; it pulls at most what it may
      spend; an approval never lowers the allowance, and never raises it beyond
      what the call asks for. */
  lemma CallLaw(c: Chain, call: Call)
    requires Proper(call)
    ensures var (c', ok) := Do(c, call);
            && c.sent <= c'.sent <= c.sent + (if c.allowance < Asked(call) then 1 else 0)
            && c.pulled <= c'.pulled <= c.pulled + Spendable(call)
            && c.allowance - Spendable(call) <= c'.allowance
            && c'.allowance + c'.pulled <= Max(c.allowance, Asked(call)) + c.pulled
  {
    match call
    case ApprovePlan(batches, readable, tx) =>
    case PayBatch(batch, weather) =>
      PayLaw(c, batch, weather);
    case PayUpload(quotes, weather) =>
      hide Total, Payable;
  }

  // ------------------------------------------------- what survives interleaving

  /** Nothing outside fails this call. */
  predicate FairCall(call: Call) {
    match call
    case ApprovePlan(_, readable, tx) => readable && tx == Confirmed
    case PayBatch(batch, weather) => Fair(batch, weather)
    case PayUpload(_, weather) => weather.readable && weather.approve == Confirmed && weather.pay == Confirmed
  }

  /** What the call pays can be encoded. */
  predicate Sendable(call: Call) {
    match call
    case ApprovePlan(_, _, _) => true
    case PayBatch(batch, _) => NonNegative(batch)
    case PayUpload(quotes, _) => Payable(quotes)
  }

  lemma FairCallSucceeds(c: Chain, call: Call)
    requires Proper(call) && FairCall(call)
    ensures Do(c, call).1 <==> Sendable(call)
  {
    match call
    case ApprovePlan(batches, _, _) => FairApproval(c, batches);
    case PayBatch(batch, weather) => FairPay(c, batch, weather);
    case PayUpload(quotes, _) =>
      if Payable(quotes) { PayableTotal(quotes); }
      hide Payable, Total;
  }

  /** However the calls of any uploads interleave and whichever of them fail, a call
      that nothing outside fails is turned down only if it cannot be encoded:
      whatever the others spent, each ensures its own bound and pulls in the same
      critical section. */
  lemma {:induction false} FairCallsSucceedAmidOthers(c: Chain, calls: seq<Call>, i: nat)
    requires i < |calls| && Proper(calls[i]) && FairCall(calls[i])
    ensures DoAll(c, calls).1[i] <==> Sendable(calls[i])
  {
    hide Do, Proper, FairCall, Sendable;
    if i == |calls| - 1 {
      FairCallSucceeds(DoAll(c, calls[..|calls| - 1]).0, calls[i]);
    } else {
      FairCallsSucceedAmidOthers(c, calls[..|calls| - 1], i);
    }
  }

  function SpendableSum(calls: seq<Call>): nat {
    if calls == [] then 0 else SpendableSum(calls[..|calls| - 1]) + Spendable(calls[|calls| - 1])
  }

  function MostAsked(calls: seq<Call>): nat {
    if calls == [] then 0 else Max(MostAsked(calls[..|calls| - 1]), Asked(calls[|calls| - 1]))
  }

  /** How many calls found less than they asked for. */
  function Short(c: Chain, calls: seq<Call>): nat {
    if calls == [] then 0
    else
      var before := calls[..|calls| - 1];
      Short(c, before) + if DoAll(c, before).0.allowance < Asked(calls[|calls| - 1]) then 1 else 0
  }

  /** Over any interleaving: no more approvals than calls that found too little, no
      more pulled than the payments may spend, and never more left approved than
      was found or the largest amount a single call asked for. */
  lemma {:induction false} InterleavedBounds(c: Chain, calls: seq<Call>)
    requires forall i :: 0 <= i < |calls| ==> Proper(calls[i])
    ensures var c' := DoAll(c, calls).0;
            && c.sent <= c'.sent <= c.sent + Short(c, calls)
            && c.pulled <= c'.pulled <= c.pulled + SpendableSum(calls)
            && c'.allowance <= Max(c.allowance, MostAsked(calls))
  {
    if calls != [] {
      hide Do, Proper, Asked, Spendable;
      var before := calls[..|calls| - 1];
      InterleavedBounds(c, before);
      CallLaw(DoAll(c, before).0, calls[|calls| - 1]);
    }
  }

  // -------------------------------------------------- one plan among the others

  /** A turn on the signer: the plan's next payment, or somebody else's call. */
  datatype Turn = Mine(weather: Weather) | Other(call: Call)

  /** The chain, the plan's batches still to pay (none once one failed), and the
      approvals its payments sent. */
  datatype Course = Course(chain: Chain, left: seq<Batch>, approvals: nat)

  function TakeTurn(s: Course, t: Turn): Course {
    match t
    case Other(call) => s.(chain := Do(s.chain, call).0)
    case Mine(w) =>
      if s.left == [] then s
      else
        var (c, ok) := Pay(s.chain, s.left[0], w);
        Course(c, if ok then s.left[1..] else [], s.approvals + if c.sent > s.chain.sent then 1 else 0)
  }

  function Turns(s: Course, ts: seq<Turn>): Course
    decreases |ts|
  {
    if ts == [] then s else Turns(TakeTurn(s, ts[0]), ts[1..])
  }

  /** Whoever else is served leaves what the plan may still be charged. */
  predicate OthersLeaveEnough(s: Course, ts: seq<Turn>)
    decreases |ts|
  {
    ts == [] ||
    (var s' := TakeTurn(s, ts[0]);
     && (ts[0].Other? ==> s'.chain.allowance >= PlanCharge(s'.left))
     && OthersLeaveEnough(s', ts[1..]))
  }

  lemma TurnKeepsCover(s: Course, t: Turn)
    requires forall i :: 0 <= i < |s.left| ==> Validated(s.left[i])
    requires s.chain.allowance >= PlanCharge(s.left)
    ensures var s' := TakeTurn(s, t);
            && (forall i :: 0 <= i < |s'.left| ==> Validated(s'.left[i]))
            && (t.Mine? ==> s'.approvals == s.approvals && s'.chain.allowance >= PlanCharge(s'.left))
  {
    if t.Mine? && s.left != [] {
      hide Pay, PlanCharge, Charge, PoolAmounts, Validated;
      assert s.left == [s.left[0]] + s.left[1..];
      PlanChargeSplit(s.left[0], s.left[1..]);
      PayLaw(s.chain, s.left[0], t.weather);
      assert PlanCharge([]) == 0 by { EmptyPlan(); }
    }
  }

  lemma EmptyPlan()
    ensures PlanCharge([]) == 0
  {
  }

  /** A plan whose approval is in place sends no other, among any calls of others,
      as long as every one of those leaves the sum of its remaining bounds. */
  lemma {:induction false} OneApprovalAmidOthers(s: Course, ts: seq<Turn>)
    requires forall i :: 0 <= i < |s.left| ==> Validated(s.left[i])
    requires s.chain.allowance >= PlanCharge(s.left)
    ensures OthersLeaveEnough(s, ts) ==> Turns(s, ts).approvals == s.approvals
    decreases |ts|
  {
    if ts != [] && OthersLeaveEnough(s, ts) {
      hide TakeTurn, PlanCharge, Validated;
      TurnKeepsCover(s, ts[0]);
      assert ts[0].Other? ==> TakeTurn(s, ts[0]).approvals == s.approvals by { OthersSendTheirOwn(s, ts[0]); }
      OneApprovalAmidOthers(TakeTurn(s, ts[0]), ts[1..]);
    }
  }

  lemma OthersSendTheirOwn(s: Course, t: Turn)
    ensures t.Other? ==> TakeTurn(s, t).approvals == s.approvals && TakeTurn(s, t).left == s.left
  {
  }

  // ------------------------------------------------------- the exact condition

  predicate FairPlan(batches: seq<Batch>, weather: seq<Weather>) {
    |weather| == |batches| && forall i :: 0 <= i < |batches| ==> Fair(batches[i], weather[i])
  }

  /** Some draw charges a batch its whole bound. */
  lemma WorstDraw(b: Batch) returns (w: Weather)
    requires Validated(b) && NonNegative(b)
    ensures Fair(b, w) && WinnerCharge(b.depth, PoolAmounts(b.pools), w.winner) == Charge(b.depth, PoolAmounts(b.pools))
  {
    var pools := PoolAmounts(b.pools);
    hide Median, Validated, NonNegative;
    assert b.pools != [] && 1 <= b.depth <= MAX_DEPTH by { NotEmpty(b); }
    var j := MaxMedianAttained(pools);
    if MaxMedian(pools) == 0 {
      j := 0;
      MaxMedianBounds(pools, 0);
    }
    MediansNonNegative(b, j);
    w := Weather(true, Confirmed, Confirmed, j);
  }

  lemma NotEmpty(b: Batch)
    requires Validated(b)
    ensures b.pools != [] && 1 <= b.depth <= MAX_DEPTH
  {
  }

  /** Under its worst draw a batch sends an approval exactly when the allowance is
      below its bound, and otherwise uses the bound up. */
  lemma WorstPay(c: Chain, b: Batch, w: Weather)
    requires Validated(b) && NonNegative(b) && Fair(b, w)
    requires WinnerCharge(b.depth, PoolAmounts(b.pools), w.winner) == Charge(b.depth, PoolAmounts(b.pools))
    ensures var (c', ok) := Pay(c, b, w); var bound := Charge(b.depth, PoolAmounts(b.pools));
            && ok
            && (if c.allowance < bound then c'.sent == c.sent + 1
                else c'.sent == c.sent && c'.allowance == c.allowance - bound)
  {
    FairPay(c, b, w);
    ValidatedPools(b);
    hide Charge, Validated, Commitments, PoolAmounts, WinnerCharge, Median, Encodable;
  }

  lemma {:induction false} SentGrows(c: Chain, batches: seq<Batch>, weather: seq<Weather>)
    requires |weather| == |batches|
    requires forall i :: 0 <= i < |batches| ==> Validated(batches[i])
    ensures PayAll(c, batches, weather).0.sent >= c.sent
    decreases |batches|
  {
    if batches != [] {
      hide Pay, Validated, Charge;
      PayLaw(c, batches[0], weather[0]);
      SentGrows(Pay(c, batches[0], weather[0]).0, batches[1..], weather[1..]);
    }
  }

  /** With less than the sum of the remaining bounds, some draw of the winners
      makes the rest of the plan send another approval. */
  lemma {:induction false} ShortOfRemainder(c: Chain, rest: seq<Batch>) returns (weather: seq<Weather>)
    requires forall i :: 0 <= i < |rest| ==> Validated(rest[i]) && NonNegative(rest[i])
    requires c.allowance < PlanCharge(rest)
    ensures FairPlan(rest, weather) && PayAll(c, rest, weather).0.sent > c.sent
    decreases |rest|
  {
    hide Pay, PlanCharge, Validated, NonNegative, Fair, Charge, PoolAmounts, WinnerCharge;
    assert rest != [] by { EmptyPlan(); }
    var b := rest[0];
    var w := WorstDraw(b);
    assert rest == [b] + rest[1..];
    PlanChargeSplit(b, rest[1..]);
    WorstPay(c, b, w);
    var c1 := Pay(c, b, w).0;
    var others;
    if c.allowance < Charge(b.depth, PoolAmounts(b.pools)) {
      others := WorstDraws(rest[1..]);
      SentGrows(c1, rest[1..], others);
    } else {
      others := ShortOfRemainder(c1, rest[1..]);
    }
    weather := [w] + others;
    assert weather[1..] == others;
    PayAllStep(c, rest, weather);
  }

  lemma {:induction false} WorstDraws(rest: seq<Batch>) returns (weather: seq<Weather>)
    requires forall i :: 0 <= i < |rest| ==> Validated(rest[i]) && NonNegative(rest[i])
    ensures FairPlan(rest, weather)
  {
    hide Validated, NonNegative, Fair, Charge, PoolAmounts, WinnerCharge;
    if rest == [] {
      weather := [];
    } else {
      var w := WorstDraw(rest[0]);
      var others := WorstDraws(rest[1..]);
      weather := [w] + others;
    }
  }

  /** The exact condition, to be checked after whatever the others did: what is
      left of a plan is sure to need no further approval, however the contract
      draws, if and only if the allowance is at least the sum of the remaining
      bounds. */
  lemma OneApprovalIff(c: Chain, rest: seq<Batch>)
    requires forall i :: 0 <= i < |rest| ==> Validated(rest[i]) && NonNegative(rest[i])
    ensures (forall weather :: FairPlan(rest, weather) ==> PayAll(c, rest, weather).0.sent == c.sent)
            <==> c.allowance >= PlanCharge(rest)
  {
    hide PlanCharge, Validated, NonNegative, Fair, PayAll;
    if c.allowance >= PlanCharge(rest) {
      forall weather | FairPlan(rest, weather) ensures PayAll(c, rest, weather).0.sent == c.sent {
        CoveredPlanNeedsNoApproval(c, rest, weather);
      }
    } else {
      var weather := ShortOfRemainder(c, rest);
    }
  }

  // ---------------------------------------------------------------- a witness

  /** One tree of depth one whose candidates all ask for one. */
  function Unit(): Batch { Batch(1, [Pool(seq(CANDIDATE_COUNT, _ => "1"))]) }

  lemma UnitCharges()
    ensures Validated(Unit()) && NonNegative(Unit())
    ensures Charge(1, PoolAmounts(Unit().pools)) == 2
    ensures WinnerCharge(1, PoolAmounts(Unit().pools), 0) == 2
  {
    assert DecimalValue("1") == 1 by { assert "1"[..0] == ""; }
    assert Parse("1") == Some(1);
    var pools := PoolAmounts(Unit().pools);
    var s := pools[0];
    assert forall k :: 0 <= k < |s| ==> s[k] == 1;
    assert Committed(Unit().pools[0]).Some?;
    MedianIsUpper(s);
    assert Median(s) == 1;
    hide Median;
    assert pools[..0] == [];
    assert MaxMedian(pools) == 1;
    assert Pow2(1) == 2;
  }

  /** Two uploads at once, nothing failing: a plan of two batches approves its
      whole bound ahead, another upload's payment draws on that approval between
      the two, and the plan sends a second one. */
  lemma SecondApproval()
    ensures var smooth := Weather(true, Confirmed, Confirmed, 0);
            var (c, ok) := EnsurePlan(Chain(0, 0, 0), [Unit(), Unit()], true, Confirmed);
            var s := Turns(Course(c, [Unit(), Unit()], 0),
                           [Mine(smooth), Other(PayBatch(Unit(), smooth)), Mine(smooth)]);
            && ok && c.sent == 1 && c.allowance == 4
            && s.left == [] && s.approvals == 1 && s.chain.sent == 2 && s.chain.pulled == 6
  {
    var u, w := Unit(), Weather(true, Confirmed, Confirmed, 0);
    var c0 := Chain(4, 1, 0);
    UnitPlan();
    hide Charge, WinnerCharge, Validated, NonNegative, Unit, PoolAmounts, PlanCharge, EnsurePlan;
    UnitPay(c0);
    UnitPay(Chain(2, 1, 2));
    UnitPay(Chain(0, 1, 4));
    hide Pay;
    var s0 := Course(c0, [u, u], 0);
    var ts := [Mine(w), Other(PayBatch(u, w)), Mine(w)];
    assert [u, u][1..] == [u] && [u][1..] == [];
    assert TakeTurn(s0, ts[0]) == Course(Chain(2, 1, 2), [u], 0);
    assert TakeTurn(Course(Chain(2, 1, 2), [u], 0), ts[1]) == Course(Chain(0, 1, 4), [u], 0);
    assert TakeTurn(Course(Chain(0, 1, 4), [u], 0), ts[2]) == Course(Chain(0, 2, 6), [], 1);
    ThreeTurns(s0, ts[0], ts[1], ts[2]);
  }

  lemma UnitPlan()
    ensures EnsurePlan(Chain(0, 0, 0), [Unit(), Unit()], true, Confirmed) == (Chain(4, 1, 0), true)
  {
    var u := Unit();
    UnitCharges();
    UnitShape();
    hide Charge, PoolAmounts, Unit;
    PlanChargeSplit(u, [u]);
    PlanChargeSplit(u, []);
    assert [u] + [u] == [u, u] && [u] + [] == [u];
    EmptyPlan();
    hide PlanCharge;
  }

  lemma UnitShape()
    ensures Unit().depth == 1 && |Unit().pools| == 1
  {
  }

  lemma UnitPay(c: Chain)
    ensures Pay(c, Unit(), Weather(true, Confirmed, Confirmed, 0)) ==
            (if c.allowance >= 2 then Chain(c.allowance - 2, c.sent, c.pulled + 2)
             else Chain(0, c.sent + 1, c.pulled + 2), true)
  {
    UnitCharges();
    UnitShape();
    ValidatedPools(Unit());
    hide Charge, WinnerCharge, Validated, NonNegative, Unit, PoolAmounts, Commitments;
  }

  lemma ThreeTurns(s: Course, t0: Turn, t1: Turn, t2: Turn)
    ensures Turns(s, [t0, t1, t2]) == TakeTurn(TakeTurn(TakeTurn(s, t0), t1), t2)
  {
    hide TakeTurn;
    var ts := [t0, t1, t2];
    var s1 := TakeTurn(s, t0);
    var s2 := TakeTurn(s1, t1);
    assert ts[1..] == [t1, t2] && [t1, t2][1..] == [t2] && [t2][1..] == [];
    assert Turns(s, ts) == Turns(s1, [t1, t2]) == Turns(s2, [t2]) == Turns(TakeTurn(s2, t2), []);
  }

  /** A tree like the other, but one candidate asks for minus one. */
  function Negative(): Batch { Batch(1, [Pool(["-1"] + seq(CANDIDATE_COUNT - 1, _ => "1"))]) }

  lemma NegativePasses()
    ensures Validated(Negative()) && !NonNegative(Negative())
  {
    assert DecimalValue("1") == 1 by { assert "1"[..0] == ""; }
    assert "-1"[1..] == "1";
    assert Parse("1") == Some(1) && Parse("-1") == Some(-1);
    assert Committed(Negative().pools[0]).Some?;
    assert PoolAmounts(Negative().pools)[0][0] == -1;
  }

  /** Nothing failing: a plan whose second batch has one negative amount passes
      validation, is approved whole, has its first batch paid, and stops. */
  lemma NegativeQuoteStopsPlan()
    ensures var smooth := Weather(true, Confirmed, Confirmed, 0);
            var plan := [Unit(), Negative()];
            var (c, n) := PayPlan(Chain(0, 0, 0), plan, true, Confirmed, [smooth, smooth]);
            && Validated(plan[0]) && Validated(plan[1])
            && n == 1 && c.sent == 1 && c.pulled == 2
  {
    var u, v, w := Unit(), Negative(), Weather(true, Confirmed, Confirmed, 0);
    UnitCharges();
    NegativePasses();
    UnitShape();
    assert v.depth == 1 && |v.pools| == 1;
    hide Charge, WinnerCharge, Validated, NonNegative, Unit, Negative, PoolAmounts;
    PlanChargeSplit(u, [v]);
    PlanChargeSplit(v, []);
    EmptyPlan();
    assert [u] + [v] == [u, v] && [v] + [] == [v];
    var bound := Charge(1, PoolAmounts(v.pools));
    assert PlanCharge([u, v]) == 2 + bound;
    hide PlanCharge;
    var c0, c1 := Chain(2 + bound, 1, 0), Chain(bound, 1, 2);
    assert EnsurePlan(Chain(0, 0, 0), [u, v], true, Confirmed) == (c0, true);
    hide EnsurePlan, Pay, PayAll;
    UnitPay(c0);
    SecondIsRefused(c1, v, w);
    StopsAtSecond(c0, u, v, w);
  }

  lemma SecondIsRefused(c: Chain, b: Batch, w: Weather)
    requires Validated(b) && !NonNegative(b) && Fair(b, w)
    requires c.allowance >= Charge(b.depth, PoolAmounts(b.pools))
    ensures Pay(c, b, w) == (c, false)
  {
    FairPay(c, b, w);
    ValidatedPools(b);
    hide Charge, Encodable, Commitments, Validated;
  }

  lemma StopsAtSecond(c: Chain, u: Batch, v: Batch, w: Weather)
    requires Pay(c, u, w).1 && !Pay(Pay(c, u, w).0, v, w).1
    ensures PayAll(c, [u, v], [w, w]) == (Pay(Pay(c, u, w).0, v, w).0, 1)
  {
    hide Pay, PayAll;
    assert [u, v][1..] == [v] && [w, w][1..] == [w];
    PayAllStep(c, [u, v], [w, w]);
    PayAllStep(Pay(c, u, w).0, [v], [w]);
  }
}
