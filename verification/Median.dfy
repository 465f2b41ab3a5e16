/** The charging median of a pool of amounts. */
module Medians {

  // ---------------------------------------------------------------- sorting

  predicate Sorted(s: seq<int>) { forall i, j :: 0 <= i < j < |s| ==> s[i] <= s[j] }

  function InsertSorted(x: int, s: seq<int>): seq<int> {
    if s == [] || x <= s[0] then [x] + s else [s[0]] + InsertSorted(x, s[1..])
  }

  function Sort(s: seq<int>): seq<int> { if s == [] then [] else InsertSorted(s[0], Sort(s[1..])) }

  lemma SortedCons(h: int, r: seq<int>)
    requires Sorted(r) && (r != [] ==> h <= r[0])
    ensures Sorted([h] + r)
  {
  }

  lemma {:induction false} InsertSortedOrder(x: int, s: seq<int>)
    requires Sorted(s)
    ensures Sorted(InsertSorted(x, s))
    ensures InsertSorted(x, s)[0] == (if s == [] || x <= s[0] then x else s[0])
  {
    if s == [] || x <= s[0] {
      SortedCons(x, s);
    } else {
      InsertSortedOrder(x, s[1..]);
      SortedCons(s[0], InsertSorted(x, s[1..]));
    }
  }

  lemma {:induction false} InsertSortedContents(x: int, s: seq<int>)
    ensures multiset(InsertSorted(x, s)) == multiset(s) + multiset{x}
  {
    if s != [] && x > s[0] {
      InsertSortedContents(x, s[1..]);
      assert s == [s[0]] + s[1..];
    }
  }

  lemma {:induction false} SortLaw(s: seq<int>)
    ensures Sorted(Sort(s)) && multiset(Sort(s)) == multiset(s) && |Sort(s)| == |s|
  {
    if s != [] {
      SortLaw(s[1..]);
      InsertSortedOrder(s[0], Sort(s[1..]));
      InsertSortedContents(s[0], Sort(s[1..]));
      assert s == [s[0]] + s[1..];
      assert |multiset(Sort(s))| == |multiset(s)|;
    }
  }

  // ----------------------------------------------------------------- median

  function CountBelow(s: seq<int>, m: int): nat {
    if s == [] then 0 else (if s[0] < m then 1 else 0) + CountBelow(s[1..], m)
  }

  function CountAtMost(s: seq<int>, m: int): nat {
    if s == [] then 0 else (if s[0] <= m then 1 else 0) + CountAtMost(s[1..], m)
  }

  /** An element with at most half of the others below it and more than half not
      above it. */
  predicate IsUpperMedian(s: seq<int>, m: int) {
    m in s && CountBelow(s, m) <= |s| / 2 < CountAtMost(s, m)
  }

  /** `sortedMedian`: the middle of the sorted amounts, zero for none. */
  function Median(s: seq<int>): int
  {
    SortLaw(s);
    if s == [] then 0 else Sort(s)[|s| / 2]
  }

  /** The in-place sort, a stand-in for the library's: the array ends up holding
      its old amounts in order. */
  method SortArray(a: array<int>)
    modifies a
    ensures a[..] == Sort(old(a[..]))
  {
    var s := Sort(a[..]);
    SortLaw(a[..]);
    for i := 0 to a.Length
      invariant a[..i] == s[..i]
    {
      a[i] := s[i];
    }
    assert a[..] == a[..a.Length] && s == s[..a.Length];
  }

  method SortedMedian(amounts: array<int>) returns (m: int)
    modifies amounts
    ensures m == Median(old(amounts[..]))
    ensures multiset(amounts[..]) == multiset(old(amounts[..]))
  {
    SortLaw(amounts[..]);
    if amounts.Length == 0 {
      return 0;
    }
    SortArray(amounts);
    m := amounts[amounts.Length / 2];
  }

  // -------------------------------------------------------------------- laws

  lemma {:induction false} CountConcat(s: seq<int>, t: seq<int>, m: int)
    ensures CountBelow(s + t, m) == CountBelow(s, m) + CountBelow(t, m)
    ensures CountAtMost(s + t, m) == CountAtMost(s, m) + CountAtMost(t, m)
  {
    if s == [] {
      assert s + t == t;
    } else {
      assert (s + t)[1..] == s[1..] + t;
      CountConcat(s[1..], t, m);
    }
  }

  lemma TakeOut(t: seq<int>, k: nat, m: int)
    requires k < |t|
    ensures var u := t[..k] + t[k + 1..];
            && multiset(t) == multiset(u) + multiset{t[k]}
            && CountBelow(t, m) == CountBelow(u, m) + (if t[k] < m then 1 else 0)
            && CountAtMost(t, m) == CountAtMost(u, m) + (if t[k] <= m then 1 else 0)
  {
    var tail := [t[k]] + t[k + 1..];
    assert t == t[..k] + tail;
    assert tail[1..] == t[k + 1..];
    CountConcat(t[..k], t[k + 1..], m);
    CountConcat(t[..k], tail, m);
  }

  lemma IndexOf(s: seq<int>, t: seq<int>) returns (k: nat)
    requires s != [] && multiset(s) == multiset(t)
    ensures k < |t| && t[k] == s[0]
  {
    assert s[0] in multiset(t);
    k :| 0 <= k < |t| && t[k] == s[0];
  }

  lemma SameWithout(s: seq<int>, t: seq<int>, k: nat)
    requires s != [] && multiset(s) == multiset(t) && k < |t| && t[k] == s[0]
    ensures multiset(s[1..]) == multiset(t[..k] + t[k + 1..])
  {
    assert s == [s[0]] + s[1..];
    assert t == t[..k] + [t[k]] + t[k + 1..];
    assert multiset(s[1..]) == multiset(s) - multiset{s[0]};
    assert multiset(t[..k] + t[k + 1..]) == multiset(t) - multiset{t[k]};
  }

  /** Counts depend only on which amounts there are, not on their order. */
  lemma {:induction false} CountOfMultiset(s: seq<int>, t: seq<int>, m: int)
    requires multiset(s) == multiset(t)
    ensures CountBelow(s, m) == CountBelow(t, m) && CountAtMost(s, m) == CountAtMost(t, m)
    decreases |s|
  {
    if s == [] {
      assert |multiset(s)| == |multiset(t)|;
    } else {
      var k := IndexOf(s, t);
      TakeOut(t, k, m);
      SameWithout(s, t, k);
      CountOfMultiset(s[1..], t[..k] + t[k + 1..], m);
    }
  }

  lemma {:induction false} CountSorted(s: seq<int>, k: nat)
    requires Sorted(s) && k < |s|
    ensures CountBelow(s, s[k]) <= k < CountAtMost(s, s[k])
  {
    if k == 0 {
      NoneBelow(s, s[0]);
    } else {
      CountSorted(s[1..], k - 1);
    }
  }

  lemma {:induction false} NoneBelow(s: seq<int>, m: int)
    requires forall i :: 0 <= i < |s| ==> m <= s[i]
    ensures CountBelow(s, m) == 0
  {
    if s != [] { NoneBelow(s[1..], m); }
  }

  /** The charging median is an upper median of the amounts as they came. */
  lemma MedianIsUpper(s: seq<int>)
    requires s != []
    ensures IsUpperMedian(s, Median(s))
  {
    SortLaw(s);
    var t, m := Sort(s), Median(s);
    CountSorted(t, |s| / 2);
    CountOfMultiset(s, t, m);
    assert m in multiset(t);
  }

  lemma {:induction false} CountsMonotone(s: seq<int>, a: int, b: int)
    requires a < b
    ensures CountAtMost(s, a) <= CountBelow(s, b)
  {
    if s != [] { CountsMonotone(s[1..], a, b); }
  }

  /** There is only one upper median, so the charging median is it, and the order
      of the amounts does not matter. */
  lemma UpperMedianIsUnique(s: seq<int>, m: int)
    requires s != [] && IsUpperMedian(s, m)
    ensures m == Median(s)
  {
    MedianIsUpper(s);
    if m < Median(s) {
      CountsMonotone(s, m, Median(s));
    } else if m > Median(s) {
      CountsMonotone(s, Median(s), m);
    }
  }

  lemma MedianOfMultiset(s: seq<int>, t: seq<int>)
    requires multiset(s) == multiset(t)
    ensures Median(s) == Median(t)
  {
    assert |multiset(s)| == |s| && |multiset(t)| == |t|;
    if s != [] {
      var m := Median(s);
      MedianIsUpper(s);
      CountOfMultiset(s, t, m);
      assert m in multiset(t);
      UpperMedianIsUnique(t, m);
    }
  }
}
