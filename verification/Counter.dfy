/** The min-uses counter: counts per key, forgotten wholesale when the table is
    full, against the exact counts it stands for. */
module Counters {
  import opened Base

  function CountOf(counts: map<string, int>, key: string): int {
    if key in counts then counts[key] else 0
  }

  /** A bump of this key empties the table first. */
  predicate Resets(counts: map<string, int>, cap: int, key: string) {
    |counts| >= cap && key !in counts
  }

  function Bump(counts: map<string, int>, cap: int, key: string): (map<string, int>, int) {
    var base := if Resets(counts, cap, key) then map[] else counts;
    (base[key := CountOf(base, key) + 1], CountOf(base, key) + 1)
  }

  class Counter {
    var counts: map<string, int>
    const cap: int

    constructor (cap: int)
      ensures counts == map[] && this.cap == cap
    {
      counts := map[];
      this.cap := cap;
    }

    method BumpKey(key: string) returns (n: int)
      modifies this
      ensures (counts, n) == Bump(old(counts), cap, key)
    {
      if |counts| >= cap {
        if key !in counts {
          counts := map[];
        }
      }
      counts := counts[key := (if key in counts then counts[key] else 0) + 1];
      n := counts[key];
    }
  }

  // ------------------------------------------------------------------ runs

  /** The table after the bumps `keys`, oldest first, on an empty one. */
  function Counted(cap: int, keys: seq<string>): map<string, int> {
    if keys == [] then map[] else Bump(Counted(cap, keys[..|keys| - 1]), cap, keys[|keys| - 1]).0
  }

  function Occurrences(keys: seq<string>, key: string): nat {
    if keys == [] then 0
    else Occurrences(keys[..|keys| - 1], key) + (if keys[|keys| - 1] == key then 1 else 0)
  }

  /** How many bumps had happened when the table was last emptied. */
  function LastReset(cap: int, keys: seq<string>): (n: nat)
    ensures n <= |keys|
  {
    if keys == [] then 0
    else
      var before := keys[..|keys| - 1];
      if Resets(Counted(cap, before), cap, keys[|keys| - 1]) then |before| else LastReset(cap, before)
  }

  /** Every count is exact since the last reset, and the table holds exactly the
      keys bumped since. */
  lemma {:induction false} ExactSinceReset(cap: int, keys: seq<string>, key: string)
    ensures var since := keys[LastReset(cap, keys)..];
            && CountOf(Counted(cap, keys), key) == Occurrences(since, key)
            && (key in Counted(cap, keys) <==> key in since)
  {
    if keys != [] {
      var before, last := keys[..|keys| - 1], keys[|keys| - 1];
      ExactSinceReset(cap, before, key);
      ExactSinceReset(cap, before, last);
      var r := LastReset(cap, keys);
      var since := keys[r..];
      assert since[..|since| - 1] == before[r..] && since[|since| - 1] == last;
      assert since == before[r..] + [last];
      if Resets(Counted(cap, before), cap, last) {
        assert before[r..] == [];
      }
    }
  }

  lemma {:induction false} OccurrencesOfSuffix(keys: seq<string>, from: nat, key: string)
    requires from <= |keys|
    ensures Occurrences(keys[from..], key) <= Occurrences(keys, key)
  {
    if from < |keys| {
      assert keys[from..][..|keys[from..]| - 1] == keys[..|keys| - 1][from..];
      OccurrencesOfSuffix(keys[..|keys| - 1], from, key);
    }
  }

  /** The counter never runs ahead of the true count, so an object is not
      admitted at threshold `n` before its `n`-th miss. */
  lemma NeverEarly(cap: int, keys: seq<string>, key: string, n: int)
    ensures CountOf(Counted(cap, keys), key) <= Occurrences(keys, key)
    ensures Bump(Counted(cap, keys), cap, key).1 >= n ==> Occurrences(keys + [key], key) >= n
  {
    ExactSinceReset(cap, keys, key);
    OccurrencesOfSuffix(keys, LastReset(cap, keys), key);
    assert (keys + [key])[..|keys|] == keys;
  }

  /** The table never outgrows its cap; a cap below one still keeps one key. */
  lemma {:induction false} Bounded(cap: int, keys: seq<string>)
    ensures |Counted(cap, keys)| <= Max(cap, 1)
  {
    if keys != [] {
      var before, last := keys[..|keys| - 1], keys[|keys| - 1];
      Bounded(cap, before);
      var t := Counted(cap, before);
      var base := if Resets(t, cap, last) then map[] else t;
      assert last in base ==> base[last := CountOf(base, last) + 1].Keys == base.Keys;
      assert last !in base ==> base[last := CountOf(base, last) + 1].Keys == base.Keys + {last};
    }
  }

  function Distinct(keys: seq<string>): set<string> { set k | k in keys }

  /** With no more distinct keys than the cap, nothing is ever forgotten. */
  lemma {:induction false} ExactWhenFewKeys(cap: int, keys: seq<string>, key: string)
    requires |Distinct(keys)| <= cap
    ensures LastReset(cap, keys) == 0
    ensures CountOf(Counted(cap, keys), key) == Occurrences(keys, key)
  {
    if keys != [] {
      var before, last := keys[..|keys| - 1], keys[|keys| - 1];
      assert Distinct(keys) == Distinct(before) + {last};
      SubsetSize(Distinct(before), Distinct(keys));
      ExactWhenFewKeys(cap, before, key);
      var t := Counted(cap, before);
      forall k ensures k in t <==> k in Distinct(before) {
        ExactSinceReset(cap, before, k);
        assert before[0..] == before;
      }
      assert t.Keys == Distinct(before);
      if last !in t {
        assert |Distinct(keys)| == |t| + 1;
      }
    }
    ExactSinceReset(cap, keys, key);
    assert keys[0..] == keys;
  }
}
