/** Merkle payments: the bound put on one tree's charge, the bound on a whole
    plan, and the allowance protocol that relies on it. */
module Merkle {
  import opened Base
  import opened Medians

  // ------------------------------------------------------------------- plans

  /** A candidate's quote as the daemon sends it, a decimal text. */
  type Amount = string

  datatype Pool = Pool(candidates: seq<Amount>)

  datatype Batch = Batch(depth: int, pools: seq<Pool>)

  const MAX_DEPTH := 8
  const CANDIDATE_COUNT := 16

  predicate IsDecimal(s: string) { s != "" && forall i :: 0 <= i < |s| ==> '0' <= s[i] <= '9' }

  function DecimalValue(s: string): int
    requires forall i :: 0 <= i < |s| ==> '0' <= s[i] <= '9'
  {
    if s == "" then 0 else DecimalValue(s[..|s| - 1]) * 10 + (s[|s| - 1] as int - '0' as int)
  }

  /** `SetString` in base ten: an optional sign and digits. */
  function Parse(s: Amount): Option<int> {
    if s != "" && (s[0] == '-' || s[0] == '+') then
      if IsDecimal(s[1..]) then Some(if s[0] == '-' then -DecimalValue(s[1..]) else DecimalValue(s[1..])) else None
    else if IsDecimal(s) then Some(DecimalValue(s))
    else None
  }

  /** An unparseable amount counts as zero. */
  function Lenient(s: Amount): int { if Parse(s).Some? then Parse(s).value else 0 }

  function Amounts(p: Pool): (r: seq<int>)
    ensures |r| == |p.candidates|
  {
    seq(|p.candidates|, i requires 0 <= i < |p.candidates| => Lenient(p.candidates[i]))
  }

  // ------------------------------------------------------------------ charges

  function Pow2(n: nat): nat { if n == 0 then 1 else 2 * Pow2(n - 1) }

  function ClampDepth(depth: int): nat {
    if depth < 0 then 0 else if depth > MAX_DEPTH then MAX_DEPTH else depth
  }

  /** The largest pool median, or zero. */
  function MaxMedian(pools: seq<seq<int>>): (m: int)
    ensures m >= 0
  {
    if pools == [] then 0
    else Max(MaxMedian(pools[..|pools| - 1]), Median(pools[|pools| - 1]))
  }

  function Charge(depth: int, pools: seq<seq<int>>): nat { MaxMedian(pools) * Pow2(ClampDepth(depth)) }

  function PoolAmounts(pools: seq<Pool>): (r: seq<seq<int>>)
    ensures |r| == |pools|
  {
    seq(|pools|, i requires 0 <= i < |pools| => Amounts(pools[i]))
  }

  function PlanCharge(batches: seq<Batch>): nat {
    if batches == [] then 0
    else PlanCharge(batches[..|batches| - 1]) + Charge(batches[|batches| - 1].depth, PoolAmounts(batches[|batches| - 1].pools))
  }

  method LeftShift(x: nat, n: nat) returns (r: nat)
    ensures r == x * Pow2(n)
  {
    r := x;
    for i := 0 to n
      invariant r == x * Pow2(i)
    {
      r := r * 2;
    }
  }

  /** `merkleTreeCharge`: the most one payment call could charge. */
  method MerkleTreeCharge(depth: int, pools: seq<Pool>) returns (charge: nat)
    ensures charge == Charge(depth, PoolAmounts(pools))
  {
    hide Median, Lenient;
    var maxMedian := 0;
    ghost var all := PoolAmounts(pools);
    for i := 0 to |pools|
      invariant maxMedian == MaxMedian(all[..i])
    {
      var amounts := new int[|pools[i].candidates|];
      for j := 0 to amounts.Length
        invariant amounts[..j] == Amounts(pools[i])[..j]
      {
        amounts[j] := Lenient(pools[i].candidates[j]);
      }
      assert amounts[..] == amounts[..amounts.Length] == Amounts(pools[i]);
      var m := SortedMedian(amounts);
      assert all[..i + 1][..i] == all[..i];
      if m > maxMedian {
        maxMedian := m;
      }
    }
    assert all[..|pools|] == all;
    charge := LeftShift(maxMedian, ClampDepth(depth));
  }

  /** What a list of slices holds. */
  function Contents(cs: seq<array<int>>): (r: seq<seq<int>>)
    reads cs
    ensures |r| == |cs| && forall i :: 0 <= i < |cs| ==> r[i] == cs[i][..]
  {
    if cs == [] then [] else Contents(cs[..|cs| - 1]) + [cs[|cs| - 1][..]]
  }

  /** `maxMerklePayout`: the same bound over the commitments about to be encoded.
      It sorts copies, so the commitments themselves keep their order. */
  method MaxMerklePayout(depth: int, commitments: seq<array<int>>) returns (charge: nat)
    ensures charge == Charge(depth, Contents(commitments))
  {
    var maxMedian := 0;
    ghost var all := Contents(commitments);
    for i := 0 to |commitments|
      invariant maxMedian == MaxMedian(all[..i])
    {
      var c := commitments[i];
      assert all[i] == c[..];
      var amounts := new int[c.Length];
      for j := 0 to amounts.Length
        invariant amounts[..j] == c[..j]
      {
        amounts[j] := c[j];
      }
      assert amounts[..] == amounts[..amounts.Length] == c[..];
      var m := SortedMedian(amounts);
      assert all[..i + 1][..i] == all[..i];
      if m > maxMedian {
        maxMedian := m;
      }
    }
    assert all[..|commitments|] == all;
    charge := LeftShift(maxMedian, ClampDepth(depth));
  }

  method MaxMerkleBatchesPayout(batches: seq<Batch>) returns (total: nat)
    ensures total == PlanCharge(batches)
  {
    total := 0;
    for i := 0 to |batches|
      invariant total == PlanCharge(batches[..i])
    {
      var c := MerkleTreeCharge(batches[i].depth, batches[i].pools);
      assert batches[..i + 1][..i] == batches[..i];
      total := total + c;
    }
    assert batches[..|batches|] == batches;
  }

  // ----------------------------------------------------------- validated plans

  /** What the worker checks before any money moves. */
  predicate Validated(b: Batch) {
    && 1 <= b.depth <= MAX_DEPTH
    && b.pools != []
    && forall j :: 0 <= j < |b.pools| ==> Committed(b.pools[j]).Some?
  }

  /** The amounts of a pool as the payment call converts them, or none when it
      refuses the pool: for a wrong number of candidates or any amount that does
      not parse. */
  function Committed(p: Pool): Option<seq<int>> {
    if |p.candidates| == CANDIDATE_COUNT
       && forall k :: 0 <= k < |p.candidates| ==> Parse(p.candidates[k]).Some?
    then
      Some(seq(|p.candidates|, k requires 0 <= k < |p.candidates| && Parse(p.candidates[k]).Some? =>
        Parse(p.candidates[k]).value))
    else None
  }

  /** All commitments of a batch, or none when one is refused. */
  function Commitments(pools: seq<Pool>): Option<seq<seq<int>>> {
    if forall j :: 0 <= j < |pools| ==> Committed(pools[j]).Some? then
      Some(seq(|pools|, j requires 0 <= j < |pools| && Committed(pools[j]).Some? => Committed(pools[j]).value))
    else None
  }

  /** Every amount is one the payment call can encode: the encoding has no
      negative numbers. */
  predicate Encodable(pools: seq<seq<int>>) {
    forall j, k :: 0 <= j < |pools| && 0 <= k < |pools[j]| ==> pools[j][k] >= 0
  }

  /** No candidate of any pool asks for a negative amount. */
  predicate NonNegative(b: Batch) {
    forall j, k :: 0 <= j < |b.pools| && 0 <= k < |b.pools[j].candidates| ==> Lenient(b.pools[j].candidates[k]) >= 0
  }

  lemma NonNegativeIsEncodable(b: Batch)
    ensures Encodable(PoolAmounts(b.pools)) <==> NonNegative(b)
  {
    hide Lenient;
    var pools := PoolAmounts(b.pools);
    assert forall j, k :: 0 <= j < |pools| && 0 <= k < |pools[j]| ==>
             pools[j][k] == Lenient(b.pools[j].candidates[k]);
  }

  // --------------------------------------------------------- bounds on charges

  lemma {:induction false} MaxMedianBounds(pools: seq<seq<int>>, j: nat)
    requires j < |pools|
    ensures Median(pools[j]) <= MaxMedian(pools)
  {
    hide Median;
    var last := |pools| - 1;
    if j < last {
      assert pools[..last][j] == pools[j];
      MaxMedianBounds(pools[..last], j);
    }
  }

  lemma {:induction false} MaxMedianAttained(pools: seq<seq<int>>) returns (j: nat)
    ensures MaxMedian(pools) != 0 ==> j < |pools| && Median(pools[j]) == MaxMedian(pools)
  {
    if pools == [] {
      j := 0;
    } else {
      var last := |pools| - 1;
      if MaxMedian(pools) == Median(pools[last]) {
        j := last;
      } else {
        j := MaxMedianAttained(pools[..last]);
        assert j < last ==> pools[..last][j] == pools[j];
      }
    }
  }

  lemma {:induction false} PowPositive(n: nat)
    ensures Pow2(n) > 0
  {
    if n > 0 { PowPositive(n - 1); }
  }

  lemma MulMonotone(a: int, b: int, c: nat)
    requires a <= b
    ensures a * c <= b * c
  {
  }

  /** What the contract charges if it draws pool `j`. */
  function WinnerCharge(depth: nat, pools: seq<seq<int>>, j: nat): int
    requires j < |pools|
  {
    Median(pools[j]) * Pow2(depth)
  }

  /** The bound is sound: whichever pool the contract draws, it charges no more. */
  lemma ChargeIsSound(depth: int, pools: seq<seq<int>>, j: nat)
    requires 0 <= depth <= MAX_DEPTH && j < |pools|
    ensures WinnerCharge(depth, pools, j) <= Charge(depth, pools)
  {
    MaxMedianBounds(pools, j);
    MulMonotone(Median(pools[j]), MaxMedian(pools), Pow2(depth));
  }

  /** And tight: some draw reaches it, or it is zero. */
  lemma ChargeIsTight(depth: int, pools: seq<seq<int>>) returns (j: nat)
    requires 0 <= depth <= MAX_DEPTH
    ensures Charge(depth, pools) == 0 || (j < |pools| && WinnerCharge(depth, pools, j) == Charge(depth, pools))
  {
    j := MaxMedianAttained(pools);
  }

  /** What the depth does to the bound: at depth zero it is the largest median or
      zero, every level doubles it up to the eighth, and beyond the ends it stays. */
  lemma ChargeDoubles(depth: int, pools: seq<seq<int>>)
    ensures Charge(0, pools) == MaxMedian(pools)
    ensures 0 <= depth < MAX_DEPTH ==> Charge(depth + 1, pools) == 2 * Charge(depth, pools)
    ensures depth < 0 ==> Charge(depth, pools) == Charge(0, pools)
    ensures depth > MAX_DEPTH ==> Charge(depth, pools) == Charge(MAX_DEPTH, pools)
  {
    if 0 <= depth < MAX_DEPTH {
      Doubling(MaxMedian(pools), depth);
    }
  }

  lemma Doubling(x: int, n: nat)
    ensures x * Pow2(n + 1) == 2 * (x * Pow2(n))
  {
  }

  /** So at the full depth it is two hundred and fifty-six times the median. */
  lemma ChargeAtFullDepth(pools: seq<seq<int>>)
    ensures Charge(MAX_DEPTH, pools) == 256 * MaxMedian(pools)
  {
    hide Charge, MaxMedian;
    ChargeDoubles(0, pools);
    var factor := 1;
    for d := 0 to MAX_DEPTH
      invariant Charge(d, pools) == factor * MaxMedian(pools)
      invariant factor == [1, 2, 4, 8, 16, 32, 64, 128, 256][d]
    {
      ChargeDoubles(d, pools);
      factor := 2 * factor;
    }
  }

  /** The contract's charge doubles with the depth as well. */
  lemma WinnerDoubles(depth: nat, pools: seq<seq<int>>, j: nat)
    requires j < |pools|
    ensures WinnerCharge(0, pools, j) == Median(pools[j])
    ensures WinnerCharge(depth + 1, pools, j) == 2 * WinnerCharge(depth, pools, j)
  {
    Doubling(Median(pools[j]), depth);
  }

  /** A pool's order of candidates does not change the bound. */
  lemma ChargeIgnoresOrder(depth: int, pools: seq<seq<int>>, shuffled: seq<seq<int>>)
    requires |pools| == |shuffled|
    requires forall j :: 0 <= j < |pools| ==> multiset(pools[j]) == multiset(shuffled[j])
    ensures Charge(depth, pools) == Charge(depth, shuffled)
  {
    MaxMedianIgnoresOrder(pools, shuffled);
  }

  lemma {:induction false} MaxMedianIgnoresOrder(pools: seq<seq<int>>, shuffled: seq<seq<int>>)
    requires |pools| == |shuffled|
    requires forall j :: 0 <= j < |pools| ==> multiset(pools[j]) == multiset(shuffled[j])
    ensures MaxMedian(pools) == MaxMedian(shuffled)
  {
    if pools != [] {
      var last := |pools| - 1;
      MedianOfMultiset(pools[last], shuffled[last]);
      MaxMedianIgnoresOrder(pools[..last], shuffled[..last]);
    }
  }

  /** The strict and the lenient reading of a pool agree when the strict one
      succeeds. */
  lemma CommittedIsLenient(p: Pool)
    requires Committed(p).Some?
    ensures Committed(p).value == Amounts(p)
  {
  }

  /** Where the strict conversion succeeds it reads what the lenient one does. */
  lemma StrictIsLenient(pools: seq<Pool>)
    requires Commitments(pools).Some?
    ensures Commitments(pools).value == PoolAmounts(pools)
  {
    hide Amounts, Committed;
    var strict, lenient := Commitments(pools).value, PoolAmounts(pools);
    forall j | 0 <= j < |pools| ensures strict[j] == lenient[j] {
      CommittedIsLenient(pools[j]);
    }
  }

  /** For every validated batch the payment call's strict conversion succeeds and
      yields the amounts the lenient estimate saw, in the same order, so the bound
      it checks is the one the plan's approval summed. */
  lemma BoundsAgree(b: Batch)
    requires Validated(b)
    ensures Commitments(b.pools) == Some(PoolAmounts(b.pools))
    ensures Charge(b.depth, Commitments(b.pools).value) == Charge(b.depth, PoolAmounts(b.pools))
  {
    hide Committed;
    StrictIsLenient(b.pools);
  }

  // ------------------------------------------------------------- reading amounts

  /** The decimal text of a number. */
  function DecimalText(n: nat): (s: string)
    ensures IsDecimal(s)
  {
    (if n < 10 then "" else DecimalText(n / 10)) + ['0' + (n % 10) as char]
  }

  lemma AppendDigit(s: string, d: nat)
    requires (forall i :: 0 <= i < |s| ==> '0' <= s[i] <= '9') && d < 10
    ensures var t := s + ['0' + d as char];
            (forall i :: 0 <= i < |t| ==> '0' <= t[i] <= '9') && DecimalValue(t) == 10 * DecimalValue(s) + d
  {
    var t := s + ['0' + d as char];
    assert t[..|t| - 1] == s;
  }

  lemma {:induction false} TextHasValue(n: nat)
    ensures DecimalValue(DecimalText(n)) == n
  {
    if n < 10 {
      AppendDigit("", n);
    } else {
      TextHasValue(n / 10);
      AppendDigit(DecimalText(n / 10), n % 10);
    }
    hide DecimalValue;
  }

  /** An amount is read as the number it is the decimal text of, with its sign. */
  lemma ParseReadsDecimals(n: nat)
    ensures Parse(DecimalText(n)) == Some(n) && Parse("+" + DecimalText(n)) == Some(n)
    ensures Parse("-" + DecimalText(n)) == Some(-(n as int))
  {
    TextHasValue(n);
    var s := DecimalText(n);
    assert ("+" + s)[1..] == s && ("-" + s)[1..] == s;
    hide DecimalText, DecimalValue;
  }

  /** And nothing else is: an amount parses if and only if it is digits, at least
      one, after at most one sign. */
  lemma ParsesIff(s: Amount)
    ensures Parse(s).Some? <==> IsDecimal(s) || (s != "" && (s[0] == '-' || s[0] == '+') && IsDecimal(s[1..]))
  {
  }

  /** An amount that does not parse shows the difference: the estimate takes it
      for zero, the payment call refuses the batch. */
  lemma LenientOnlyForTheEstimate(b: Batch, j: nat, k: nat)
    requires j < |b.pools| && k < |b.pools[j].candidates| && Parse(b.pools[j].candidates[k]).None?
    ensures Commitments(b.pools).None? && !Validated(b)
    ensures PoolAmounts(b.pools)[j][k] == 0
  {
    assert Committed(b.pools[j]).None?;
  }
}
