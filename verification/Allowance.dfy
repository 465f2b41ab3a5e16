/** Paying a merkle plan: one approval for the whole plan, then one payment per
    batch, each drawing from the allowance whatever the contract decides. */
module Allowance {
  import opened Base
  import opened Medians
  import opened Merkle

  /** The part of the chain the payer relies on: the allowance granted to the
      payment contract, the approvals sent and the tokens pulled so far. */
  datatype Chain = Chain(allowance: nat, sent: nat, pulled: nat)

  /** What becomes of a transaction: it takes effect and is seen to, it never
      takes effect, or nobody sees whether it does. */
  datatype Tx = Confirmed | Failed | Unconfirmed(mined: bool)

  predicate TakesEffect(tx: Tx) { tx == Confirmed || (tx.Unconfirmed? && tx.mined) }

  /** `approve` overwrites the allowance (the `approve` method of EIP-20). */
  function Approve(c: Chain, amount: nat, tx: Tx): Chain {
    Chain(if TakesEffect(tx) then amount else c.allowance, c.sent + 1, c.pulled)
  }

  /** `ensureAllowance`: the chain afterwards and whether to go on. */
  function Ensure(c: Chain, required: nat, readable: bool, tx: Tx): (Chain, bool) {
    if !readable then (c, false)
    else if c.allowance >= required then (c, true)
    else (Approve(c, required, tx), tx == Confirmed)
  }

  /** The payment contract: it draws a pool and pulls its median times two to
      the depth, or reverts when the depth is not one of its own, the amount is
      not one it can encode, or the allowance does not cover it. */
  function Pull(c: Chain, depth: int, pools: seq<seq<int>>, winner: nat): (r: Option<int>)
    ensures r.Some? ==> 0 <= r.value <= c.allowance
  {
    if 0 <= depth <= MAX_DEPTH && winner < |pools| && 0 <= WinnerCharge(depth, pools, winner) <= c.allowance
    then Some(WinnerCharge(depth, pools, winner))
    else None
  }

  /** What happens around one payment call besides the program itself. */
  datatype Weather = Weather(readable: bool, approve: Tx, pay: Tx, winner: nat)

  /** `PayForMerkleTree`: the chain afterwards and whether the batch is paid.  The
      batch is encoded only once its bound is approved. */
  function Pay(c: Chain, b: Batch, w: Weather): (Chain, bool) {
    var commitments := Commitments(b.pools);
    if commitments.None? then (c, false)
    else
      var (c1, ok) := Ensure(c, Charge(b.depth, commitments.value), w.readable, w.approve);
      if !ok || !Encodable(commitments.value) then (c1, false)
      else
        var amount := Pull(c1, b.depth % 256, commitments.value, w.winner);
        if amount.Some? && TakesEffect(w.pay) then
          (Chain(c1.allowance - amount.value, c1.sent, c1.pulled + amount.value), w.pay == Confirmed)
        else (c1, false)
  }

  /** The sum of the quotes, or none when one does not parse. */
  function Total(quotes: seq<Amount>): Option<int> {
    if quotes == [] then Some(0)
    else
      var before, last := Total(quotes[..|quotes| - 1]), Parse(quotes[|quotes| - 1]);
      if before.None? || last.None? then None else Some(before.value + last.value)
  }

  /** No quote is negative; the contract cannot be given one that is. */
  predicate Payable(quotes: seq<Amount>) { forall i :: 0 <= i < |quotes| ==> Parse(quotes[i]).Some? && Parse(quotes[i]).value >= 0 }

  /** `PayForQuotes`, the payment of an upload that needs no merkle tree: it
      draws exactly the quotes' total from the same allowance. */
  function PayQuotes(c: Chain, quotes: seq<Amount>, w: Weather): (Chain, bool) {
    var total := Total(quotes);
    if total.None? then (c, false)
    else
      var (c1, ok) := Ensure(c, Max(total.value, 0), w.readable, w.approve);
      if !ok then (c1, false)
      else if Payable(quotes) && 0 <= total.value <= c1.allowance && TakesEffect(w.pay) then
        (Chain(c1.allowance - total.value, c1.sent, c1.pulled + total.value), w.pay == Confirmed)
      else (c1, false)
  }

  /** The batches in order, up to the first that is not seen to be paid; the
      result counts those that were. */
  function PayAll(c: Chain, batches: seq<Batch>, weather: seq<Weather>): (Chain, nat)
    requires |weather| == |batches|
    decreases |batches|
  {
    if batches == [] then (c, 0)
    else
      var (c1, ok) := Pay(c, batches[0], weather[0]);
      if !ok then (c1, 0)
      else
        var (c2, n) := PayAll(c1, batches[1..], weather[1..]);
        (c2, n + 1)
  }

  /** `EnsureMerkleAllowance`. */
  function EnsurePlan(c: Chain, batches: seq<Batch>, readable: bool, tx: Tx): (Chain, bool) {
    if PlanCharge(batches) == 0 then (c, true) else Ensure(c, PlanCharge(batches), readable, tx)
  }

  /** The worker's payment of a plan: approve ahead when there is more than one
      batch, then pay. */
  function PayPlan(c: Chain, batches: seq<Batch>, readable: bool, tx: Tx, weather: seq<Weather>): (Chain, nat)
    requires |weather| == |batches|
  {
    if |batches| <= 1 then PayAll(c, batches, weather)
    else
      var (c1, ok) := EnsurePlan(c, batches, readable, tx);
      if !ok then (c1, 0) else PayAll(c1, batches, weather)
  }

  // ---------------------------------------------------------------- the signer

  class Signer {
    var allowance: nat
    var sent: nat
    var pulled: nat

    function State(): Chain
      reads this
    {
      Chain(allowance, sent, pulled)
    }

    constructor (allowance: nat)
      ensures State() == Chain(allowance, 0, 0)
    {
      this.allowance, sent, pulled := allowance, 0, 0;
    }

    method EnsureAllowance(required: nat, readable: bool, tx: Tx) returns (ok: bool)
      modifies this
      ensures (State(), ok) == Ensure(old(State()), required, readable, tx)
    {
      if !readable {
        return false;
      }
      if allowance >= required {
        return true;
      }
      sent := sent + 1;
      if TakesEffect(tx) {
        allowance := required;
      }
      ok := tx == Confirmed;
    }

    method EnsureMerkleAllowance(batches: seq<Batch>, readable: bool, tx: Tx) returns (ok: bool)
      modifies this
      ensures (State(), ok) == EnsurePlan(old(State()), batches, readable, tx)
    {
      var required := MaxMerkleBatchesPayout(batches);
      if required == 0 {
        return true;
      }
      ok := EnsureAllowance(required, readable, tx);
    }

    /** The commitments of a batch as fresh slices, pool by pool, in order; any
        amount that does not parse refuses the batch. */
    static method Convert(pools: seq<Pool>) returns (ok: bool, commitments: seq<array<int>>)
      ensures ok <==> Commitments(pools).Some?
      ensures forall i :: 0 <= i < |commitments| ==> fresh(commitments[i])
      ensures ok ==> Contents(commitments) == Commitments(pools).value
    {
      commitments := [];
      for i := 0 to |pools|
        invariant |commitments| == i
        invariant forall j :: 0 <= j < i ==> Committed(pools[j]).Some?
        invariant forall j :: 0 <= j < i ==>
                    fresh(commitments[j]) && commitments[j][..] == Committed(pools[j]).value
      {
        var converted, c := ConvertPool(pools[i]);
        if !converted {
          return false, [];
        }
        commitments := commitments + [c];
      }
      ok := true;
      assert Contents(commitments) == Commitments(pools).value;
    }

    static method ConvertPool(pool: Pool) returns (ok: bool, c: array<int>)
      ensures ok <==> Committed(pool).Some?
      ensures fresh(c)
      ensures ok ==> c[..] == Committed(pool).value
    {
      c := new int[|pool.candidates|];
      if |pool.candidates| != CANDIDATE_COUNT {
        return false, c;
      }
      for j := 0 to c.Length
        modifies c
        invariant forall k :: 0 <= k < j ==> Parse(pool.candidates[k]) == Some(c[k])
      {
        var amount := Parse(pool.candidates[j]);
        if amount.None? {
          return false, c;
        }
        c[j] := amount.value;
      }
      ok := true;
    }

    method PayForMerkleTree(b: Batch, w: Weather) returns (paid: bool)
      modifies this
      ensures (State(), paid) == Pay(old(State()), b, w)
    {
      hide Charge, Contents, Committed, PoolAmounts, WinnerCharge, Pull, Encodable;
      var converted, commitments := Convert(b.pools);
      if !converted {
        return false;
      }
      ghost var pools := Commitments(b.pools).value;
      var required := MaxMerklePayout(b.depth, commitments);
      var ok := EnsureAllowance(required, w.readable, w.approve);
      if !ok {
        return false;
      }
      // sorting for the bound did not reorder what is encoded
      assert Contents(commitments) == pools;
      if !Encodable(Contents(commitments)) {
        return false;
      }
      var amount := Pull(State(), b.depth % 256, Contents(commitments), w.winner);
      if amount.Some? && TakesEffect(w.pay) {
        allowance := allowance - amount.value;
        pulled := pulled + amount.value;
        return w.pay == Confirmed;
      }
      paid := false;
    }

    method PayForQuotes(quotes: seq<Amount>, w: Weather) returns (paid: bool)
      modifies this
      ensures (State(), paid) == PayQuotes(old(State()), quotes, w)
    {
      var total := 0;
      for i := 0 to |quotes|
        invariant Total(quotes[..i]) == Some(total)
        invariant State() == old(State())
      {
        assert quotes[..i + 1][..i] == quotes[..i];
        var amount := Parse(quotes[i]);
        if amount.None? {
          TotalStopsAtError(quotes, i + 1);
          return false;
        }
        total := total + amount.value;
      }
      assert quotes[..|quotes|] == quotes;
      var ok := EnsureAllowance(Max(total, 0), w.readable, w.approve);
      if !ok {
        return false;
      }
      if Payable(quotes) && 0 <= total <= allowance && TakesEffect(w.pay) {
        allowance := allowance - total;
        pulled := pulled + total;
        return w.pay == Confirmed;
      }
      paid := false;
    }

    method PayMerkleBatches(batches: seq<Batch>, weather: seq<Weather>) returns (paid: nat)
      requires |weather| == |batches|
      modifies this
      ensures (State(), paid) == PayAll(old(State()), batches, weather)
    {
      hide Pay;
      paid := 0;
      var i := 0;
      assert batches[0..] == batches && weather[0..] == weather;
      while i < |batches|
        invariant 0 <= i == paid <= |batches|
        invariant var (c, n) := PayAll(State(), batches[i..], weather[i..]);
                  PayAll(old(State()), batches, weather) == (c, n + paid)
      {
        assert batches[i..][1..] == batches[i + 1..] && weather[i..][1..] == weather[i + 1..];
        var ok := PayForMerkleTree(batches[i], weather[i]);
        if !ok {
          return;
        }
        paid := paid + 1;
        i := i + 1;
      }
    }
  }

  // --------------------------------------------------------------------- laws

  lemma {:induction false} TotalStopsAtError(quotes: seq<Amount>, n: nat)
    requires n <= |quotes| && Total(quotes[..n]).None?
    ensures Total(quotes).None?
    decreases |quotes|
  {
    if n < |quotes| {
      assert quotes[..|quotes| - 1][..n] == quotes[..n];
      TotalStopsAtError(quotes[..|quotes| - 1], n);
    } else {
      assert quotes[..n] == quotes;
    }
  }

  /** The total of one quote is its amount, and totals add up: the total is the sum. */
  lemma {:induction false} TotalIsSum(a: seq<Amount>, b: seq<Amount>)
    requires Total(a).Some? && Total(b).Some?
    ensures |a| == 1 ==> Total(a) == Parse(a[0])
    ensures Total(a + b) == Some(Total(a).value + Total(b).value)
    decreases |b|
  {
    if |a| == 1 {
      assert a[..0] == [];
    }
    if b == [] {
      assert a + b == a;
    } else {
      var n := |b| - 1;
      TotalIsSum(a, b[..n]);
      assert (a + b)[..|a + b| - 1] == a + b[..n];
    }
  }

  /** When nothing outside fails, quotes are paid if and only if all of them are
      amounts and none is negative; what is pulled is exactly their total then, and
      nothing otherwise. */
  lemma QuotesLaw(c: Chain, quotes: seq<Amount>, w: Weather)
    requires w.readable && w.approve == Confirmed && w.pay == Confirmed
    ensures var (c', ok) := PayQuotes(c, quotes, w);
            && (ok <==> forall i :: 0 <= i < |quotes| ==> Parse(quotes[i]).Some? && Parse(quotes[i]).value >= 0)
            && (!ok ==> c'.pulled == c.pulled)
            && (ok ==>
                  && Total(quotes).Some?
                  && c'.pulled == c.pulled + Total(quotes).value
                  && c'.sent == c.sent + (if c.allowance < Total(quotes).value then 1 else 0)
                  && c'.allowance == Max(c.allowance, Total(quotes).value) - Total(quotes).value)
  {
    if Payable(quotes) {
      PayableTotal(quotes);
    }
    hide Total, Parse;
  }

  /** Two payments together pull what one payment of all their quotes pulls. */
  lemma QuotesAddUp(c: Chain, a: seq<Amount>, b: seq<Amount>, w: Weather)
    requires Payable(a) && Payable(b) && w.readable && w.approve == Confirmed && w.pay == Confirmed
    ensures PayQuotes(PayQuotes(c, a, w).0, b, w).0.pulled == PayQuotes(c, a + b, w).0.pulled
  {
    assert Payable(a + b);
    QuotesLaw(c, a, w);
    QuotesLaw(PayQuotes(c, a, w).0, b, w);
    QuotesLaw(c, a + b, w);
    TotalIsSum(a, b);
    hide PayQuotes, Total, Parse;
  }

  lemma {:induction false} PayableTotal(quotes: seq<Amount>)
    requires Payable(quotes)
    ensures Total(quotes).Some? && Total(quotes).value >= 0
  {
    if quotes != [] { PayableTotal(quotes[..|quotes| - 1]); }
  }

  lemma {:induction false} PlanChargeSplit(b: Batch, rest: seq<Batch>)
    ensures PlanCharge([b] + rest) == Charge(b.depth, PoolAmounts(b.pools)) + PlanCharge(rest)
  {
    hide Charge, PoolAmounts;
    var all := [b] + rest;
    if rest == [] {
      assert all[..0] == [];
    } else {
      assert all[..|all| - 1] == [b] + rest[..|rest| - 1];
      PlanChargeSplit(b, rest[..|rest| - 1]);
    }
  }

  /** One payment of a valid batch pulls at most the batch's own bound; with an
      allowance that covers the bound it sends no approval and gives up exactly
      what is pulled, and without one it approves no more than the bound. */
  lemma PayLaw(c: Chain, b: Batch, w: Weather)
    requires Validated(b)
    ensures var bound := Charge(b.depth, PoolAmounts(b.pools));
            var (c', ok) := Pay(c, b, w);
            && c.pulled <= c'.pulled <= c.pulled + bound
            && c.sent <= c'.sent <= c.sent + (if c.allowance < bound then 1 else 0)
            && c'.allowance >= c.allowance - bound
            && (c.allowance >= bound ==> c'.allowance + c'.pulled == c.allowance + c.pulled)
            && c'.allowance + c'.pulled <= Max(c.allowance, bound) + c.pulled
  {
    ValidatedPools(b);
    hide Charge, Validated, Commitments, Pull, PoolAmounts;
    PullWithinBound(Ensure(c, Charge(b.depth, PoolAmounts(b.pools)), w.readable, w.approve).0, b, w.winner);
  }

  /** Whatever pool the contract draws, it pulls no more than the batch's bound. */
  lemma PullWithinBound(c: Chain, b: Batch, winner: nat)
    requires Validated(b)
    ensures b.depth % 256 == b.depth
    ensures Pull(c, b.depth, PoolAmounts(b.pools), winner).Some? ==>
              Pull(c, b.depth, PoolAmounts(b.pools), winner).value <= Charge(b.depth, PoolAmounts(b.pools))
  {
    ValidatedPools(b);
    hide Charge, WinnerCharge, Validated;
    if winner < |b.pools| {
      ChargeIsSound(b.depth, PoolAmounts(b.pools), winner);
    }
  }

  lemma ValidatedPools(b: Batch)
    requires Validated(b)
    ensures Commitments(b.pools) == Some(PoolAmounts(b.pools))
    ensures 1 <= b.depth <= MAX_DEPTH
  {
    BoundsAgree(b);
  }

  /** With the whole plan covered and the signer to itself, every batch finds its bound covered: no batch
      sends an approval, whatever the earlier ones were charged. */
  lemma {:induction false} CoveredPlanNeedsNoApproval(c: Chain, batches: seq<Batch>, weather: seq<Weather>)
    requires |weather| == |batches|
    requires forall i :: 0 <= i < |batches| ==> Validated(batches[i])
    requires c.allowance >= PlanCharge(batches)
    ensures var (c', n) := PayAll(c, batches, weather);
            && c'.sent == c.sent
            && c.pulled <= c'.pulled <= c.pulled + PlanCharge(batches)
            && c'.allowance + c'.pulled == c.allowance + c.pulled
            && n <= |batches|
    decreases |batches|
  {
    if batches != [] {
      var b, rest := batches[0], batches[1..];
      assert batches == [b] + rest;
      PlanChargeSplit(b, rest);
      PayLaw(c, b, weather[0]);
      hide Pay, PlanCharge, Validated, Charge, PoolAmounts;
      var (c1, ok) := Pay(c, b, weather[0]);
      if ok {
        CoveredPlanNeedsNoApproval(c1, rest, weather[1..]);
      }
    }
  }

  lemma PayAllStep(c: Chain, batches: seq<Batch>, weather: seq<Weather>)
    requires |weather| == |batches| && batches != []
    ensures var (c1, ok) := Pay(c, batches[0], weather[0]);
            var rest := PayAll(c1, batches[1..], weather[1..]);
            PayAll(c, batches, weather) == if ok then (rest.0, rest.1 + 1) else (c1, 0)
  {
  }

  /** While the batches are being paid without calls of others between, the allowance before batch `i` covers the
      bounds of all batches from `i` on. */
  lemma {:induction false} AllowanceCoversRemainder(c: Chain, batches: seq<Batch>, weather: seq<Weather>, i: nat)
    requires |weather| == |batches| && i <= |batches|
    requires forall j :: 0 <= j < |batches| ==> Validated(batches[j])
    requires c.allowance >= PlanCharge(batches)
    ensures PayAll(c, batches[..i], weather[..i]).1 == i ==>
              PayAll(c, batches[..i], weather[..i]).0.allowance >= PlanCharge(batches[i..])
    decreases i
  {
    if i == 0 {
      assert batches[0..] == batches;
    } else {
      hide Pay, PlanCharge, Validated, Charge, PoolAmounts, PayAll;
      var b, rest := batches[0], batches[1..];
      assert batches == [b] + rest;
      PlanChargeSplit(b, rest);
      PayLaw(c, b, weather[0]);
      PayPrefixStep(c, batches, weather, i);
      var (c1, ok) := Pay(c, b, weather[0]);
      if ok {
        AllowanceCoversRemainder(c1, rest, weather[1..], i - 1);
      }
    }
  }

  lemma PayPrefixStep(c: Chain, batches: seq<Batch>, weather: seq<Weather>, i: nat)
    requires |weather| == |batches| && 0 < i <= |batches|
    ensures var (c1, ok) := Pay(c, batches[0], weather[0]);
            var rest := PayAll(c1, batches[1..][..i - 1], weather[1..][..i - 1]);
            PayAll(c, batches[..i], weather[..i]) == if ok then (rest.0, rest.1 + 1) else (c1, 0)
    ensures batches[i..] == batches[1..][i - 1..]
  {
    hide Pay, PayAll;
    PayAllStep(c, batches[..i], weather[..i]);
    assert batches[..i][1..] == batches[1..][..i - 1] && weather[..i][1..] == weather[1..][..i - 1];
  }

  lemma EnsurePlanLaw(c: Chain, batches: seq<Batch>, readable: bool, tx: Tx)
    ensures var (c1, ok) := EnsurePlan(c, batches, readable, tx);
            && (ok ==> c1.allowance >= PlanCharge(batches))
            && c1.pulled == c.pulled && c1.sent <= c.sent + 1
            && c1.allowance <= Max(c.allowance, PlanCharge(batches))
            && (c.allowance >= PlanCharge(batches) ==> c1.sent == c.sent)
  {
  }

  lemma SingleBatch(c: Chain, b: Batch, w: Weather)
    requires Validated(b)
    ensures PlanCharge([b]) == Charge(b.depth, PoolAmounts(b.pools))
    ensures PayAll(c, [b], [w]).0 == Pay(c, b, w).0
  {
    PlanChargeSplit(b, []);
    assert [b] + [] == [b];
    PayAllStep(c, [b], [w]);
    assert [b][1..] == [] && [w][1..] == [];
  }

  /** With the signer to itself, paying a validated plan sends at most one approval, none when the allowance
      already covered the plan, and never pulls more than the plan's bound nor
      leaves more approved than that bound or the allowance found there, whatever
      the contract draws and whatever becomes of the transactions. */
  lemma PlanUnderOneApproval(c: Chain, batches: seq<Batch>, readable: bool, tx: Tx, weather: seq<Weather>)
    requires |weather| == |batches|
    requires forall i :: 0 <= i < |batches| ==> Validated(batches[i])
    ensures var (c', n) := PayPlan(c, batches, readable, tx, weather);
            && c'.sent <= c.sent + 1
            && (c.allowance >= PlanCharge(batches) ==> c'.sent == c.sent)
            && c.pulled <= c'.pulled <= c.pulled + PlanCharge(batches)
            && c'.allowance + c'.pulled <= Max(c.allowance, PlanCharge(batches)) + c.pulled
  {
    hide Pay, Charge, PoolAmounts, Validated, EnsurePlan, PlanCharge;
    if |batches| == 1 {
      assert batches == [batches[0]] && weather == [weather[0]];
      SingleBatch(c, batches[0], weather[0]);
      PayLaw(c, batches[0], weather[0]);
      hide PayAll;
    } else if |batches| > 1 {
      hide PayAll;
      EnsurePlanLaw(c, batches, readable, tx);
      var (c1, ok) := EnsurePlan(c, batches, readable, tx);
      if ok {
        CoveredPlanNeedsNoApproval(c1, batches, weather);
      }
    }
  }

  /** Every outside call works. */
  predicate Fair(b: Batch, w: Weather) {
    w.readable && w.approve == Confirmed && w.pay == Confirmed && w.winner < |b.pools|
  }

  lemma MediansNonNegative(b: Batch, j: nat)
    requires Validated(b) && NonNegative(b) && j < |b.pools|
    ensures Median(PoolAmounts(b.pools)[j]) >= 0
  {
    var s := PoolAmounts(b.pools)[j];
    assert Committed(b.pools[j]).Some?;
    NonNegativeIsEncodable(b);
    MedianIsUpper(s);
  }

  /** A batch with a pool of other than sixteen candidates, or with an amount that
      does not parse, is refused before anything is sent; and conversely, with
      nothing outside failing, a batch that needs an approval and is not malformed
      gets as far as sending it. */
  lemma MalformedIff(c: Chain, b: Batch, w: Weather)
    requires w.readable && c.allowance < Charge(b.depth, PoolAmounts(b.pools))
    ensures Pay(c, b, w).0 == c <==>
            !(forall j :: 0 <= j < |b.pools| ==>
                |b.pools[j].candidates| == 16
                && forall k :: 0 <= k < |b.pools[j].candidates| ==> Parse(b.pools[j].candidates[k]).Some?)
  {
    hide Parse, Charge, WinnerCharge;
    if Commitments(b.pools).Some? {
      StrictIsLenient(b.pools);
    }
  }

  /** When nothing outside fails, a validated batch is paid, in any draw, if and only
      if no candidate of any pool asks for a negative amount: want of allowance
      never turns it down, and validation does not catch the sign.  What is pulled
      is exactly the drawn pool's charge. */
  lemma FairPay(c: Chain, b: Batch, w: Weather)
    requires Validated(b) && Fair(b, w)
    ensures Pay(c, b, w).1 <==> NonNegative(b)
    ensures Pay(c, b, w).0.pulled ==
            c.pulled + if NonNegative(b) then WinnerCharge(b.depth, PoolAmounts(b.pools), w.winner) else 0
  {
    ValidatedPools(b);
    NonNegativeIsEncodable(b);
    if NonNegative(b) {
      MediansNonNegative(b, w.winner);
      ChargeIsSound(b.depth, PoolAmounts(b.pools), w.winner);
      PowPositive(b.depth);
      MulMonotone(0, Median(PoolAmounts(b.pools)[w.winner]), Pow2(b.depth));
    }
    hide Charge, Median, Commitments, Validated, Encodable, NonNegative;
  }

  /** What the contract charges for the batches that can be paid. */
  function Drawn(batches: seq<Batch>, weather: seq<Weather>): int
    requires |weather| == |batches| && forall i :: 0 <= i < |batches| ==> Fair(batches[i], weather[i])
    decreases |batches|
  {
    if batches == [] || !NonNegative(batches[0]) then 0
    else
      assert Fair(batches[0], weather[0]);
      WinnerCharge(ClampDepth(batches[0].depth), PoolAmounts(batches[0].pools), weather[0].winner)
      + Drawn(batches[1..], weather[1..])
  }

  /** How many batches come before the first that cannot be encoded. */
  function Lead(batches: seq<Batch>): nat {
    if batches == [] || !NonNegative(batches[0]) then 0 else 1 + Lead(batches[1..])
  }

  lemma {:induction false} LeadIsAll(batches: seq<Batch>)
    ensures Lead(batches) <= |batches|
    ensures Lead(batches) == |batches| <==> forall i :: 0 <= i < |batches| ==> NonNegative(batches[i])
  {
    hide NonNegative;
    if batches != [] {
      LeadIsAll(batches[1..]);
      if Lead(batches) == |batches| {
        forall i | 0 <= i < |batches| ensures NonNegative(batches[i]) {
          assert i > 0 ==> NonNegative(batches[1..][i - 1]);
        }
      }
    }
  }

  /** When nothing outside fails, exactly the batches before the first one with a
      negative amount are paid, at exactly what the contract draws for them: the
      whole plan if and only if there is none. */
  lemma FairPlanIsPaid(c: Chain, batches: seq<Batch>, weather: seq<Weather>)
    requires |weather| == |batches|
    requires forall i :: 0 <= i < |batches| ==> Validated(batches[i]) && Fair(batches[i], weather[i])
    ensures PayAll(c, batches, weather).1 == Lead(batches)
    ensures PayPlan(c, batches, true, Confirmed, weather).0.pulled == c.pulled + Drawn(batches, weather)
    ensures PayPlan(c, batches, true, Confirmed, weather).1 == Lead(batches)
    ensures Lead(batches) == |batches| <==> forall i :: 0 <= i < |batches| ==> NonNegative(batches[i])
  {
    hide Pay, Fair, Validated, EnsurePlan, Charge, NonNegative, Lead, Drawn;
    LeadIsAll(batches);
    FairPayAll(c, batches, weather);
    if |batches| > 1 {
      FairApproval(c, batches);
      FairPayAll(EnsurePlan(c, batches, true, Confirmed).0, batches, weather);
    }
  }

  lemma DepthIsItsOwn(b: Batch)
    requires Validated(b)
    ensures b.depth >= 0 && ClampDepth(b.depth) == b.depth
  {
  }

  lemma FairApproval(c: Chain, batches: seq<Batch>)
    ensures EnsurePlan(c, batches, true, Confirmed).1
    ensures EnsurePlan(c, batches, true, Confirmed).0.pulled == c.pulled
  {
  }

  lemma {:induction false} FairPayAll(c: Chain, batches: seq<Batch>, weather: seq<Weather>)
    requires |weather| == |batches|
    requires forall i :: 0 <= i < |batches| ==> Validated(batches[i]) && Fair(batches[i], weather[i])
    ensures PayAll(c, batches, weather).1 == Lead(batches)
    ensures PayAll(c, batches, weather).0.pulled == c.pulled + Drawn(batches, weather)
    decreases |batches|
  {
    hide Pay, Fair, Validated, NonNegative, WinnerCharge;
    if batches != [] {
      FairPay(c, batches[0], weather[0]);
      DepthIsItsOwn(batches[0]);
      if NonNegative(batches[0]) {
        FairPayAll(Pay(c, batches[0], weather[0]).0, batches[1..], weather[1..]);
      }
    }
  }
}
