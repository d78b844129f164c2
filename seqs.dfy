/** The array operations the engine relies on, as functions over sequences:
    `Array.prototype.filter`, `findIndex` and `find`. Every fold peels the
    LAST element, so that "the first i elements" grows one step at a time,
    as the source's left-to-right iterations do. */
module Seqs {

  datatype Option<+T> = None | Some(value: T)

  /** `s.filter(keep)`: the elements that pass, in their original order. */
  function Filter<T(!new)>(s: seq<T>, keep: T -> bool): (r: seq<T>)
    ensures |r| <= |s|
    ensures forall x :: x in r <==> x in s && keep(x)
    decreases |s|
  {
    if s == [] then []
    else
      var init, last := s[..|s| - 1], s[|s| - 1];
      assert s == init + [last];
      var kept := Filter(init, keep);
      if keep(last) then kept + [last] else kept
  }

  /** Filtering distributes over concatenation, so it keeps the relative order. */
  lemma {:induction false} FilterAppend<T(!new)>(a: seq<T>, b: seq<T>, keep: T -> bool)
    ensures Filter(a + b, keep) == Filter(a, keep) + Filter(b, keep)
    decreases |b|
  {
    if b == [] {
      assert a + b == a;
    } else {
      var init, last := b[..|b| - 1], b[|b| - 1];
      assert a + b == (a + init) + [last];
      assert (a + b)[..|a + b| - 1] == a + init;
      FilterAppend(a, init, keep);
    }
  }

  /** Filtering keeps every passing element as often as it occurs and drops the rest. */
  lemma {:induction false} FilterCounts<T(!new)>(s: seq<T>, keep: T -> bool, x: T)
    ensures multiset(Filter(s, keep))[x] == if keep(x) then multiset(s)[x] else 0
    decreases |s|
  {
    if s != [] {
      var init, last := s[..|s| - 1], s[|s| - 1];
      assert s == init + [last];
      FilterCounts(init, keep, x);
    }
  }

  /** A filter that every element passes changes nothing. */
  lemma {:induction false} FilterKeepsAll<T(!new)>(s: seq<T>, keep: T -> bool)
    ensures (forall x :: x in s ==> keep(x)) ==> Filter(s, keep) == s
    decreases |s|
  {
    if s != [] {
      assert s == s[..|s| - 1] + [s[|s| - 1]];
      FilterKeepsAll(s[..|s| - 1], keep);
    }
  }

  /** Two tests that agree on every element select the same elements. */
  lemma {:induction false} FilterSame<T(!new)>(s: seq<T>, p: T -> bool, q: T -> bool)
    requires forall x :: p(x) == q(x)
    ensures Filter(s, p) == Filter(s, q)
    decreases |s|
  {
    if s != [] {
      FilterSame(s[..|s| - 1], p, q);
    }
  }

  /** Filtering twice is filtering once by both tests. */
  lemma {:induction false} FilterThen<T(!new)>(s: seq<T>, first: T -> bool, second: T -> bool, both: T -> bool)
    requires forall x :: both(x) == (first(x) && second(x))
    ensures Filter(Filter(s, first), second) == Filter(s, both)
    decreases |s|
  {
    if s != [] {
      var init, last := s[..|s| - 1], s[|s| - 1];
      FilterThen(init, first, second, both);
      var kept := Filter(init, first);
      if first(last) {
        assert (kept + [last])[..|kept|] == kept;
      }
    }
  }

  /** One stage of a chain of filters that may each be switched off: the
      result is still one filter, by the tests switched on so far. */
  lemma FilterStage<T(!new)>(s: seq<T>, before: T -> bool, current: seq<T>, on: bool,
                             step: T -> bool, after: T -> bool)
    requires current == Filter(s, before)
    requires forall x :: after(x) == (before(x) && (on ==> step(x)))
    ensures (if on then Filter(current, step) else current) == Filter(s, after)
  {
    if on {
      FilterThen(s, before, step, after);
    } else {
      FilterSame(s, before, after);
    }
  }

  /** `s.findIndex(p)`: the first position whose element satisfies `p`, or -1. */
  function FindIndex<T>(s: seq<T>, p: T -> bool): (i: int)
    ensures -1 <= i < |s|
    ensures 0 <= i ==> p(s[i]) && forall j :: 0 <= j < i ==> !p(s[j])
    ensures i == -1 <==> forall j :: 0 <= j < |s| ==> !p(s[j])
    decreases |s|
  {
    if s == [] then -1
    else if p(s[0]) then 0
    else
      var i := FindIndex(s[1..], p);
      if i == -1 then -1 else i + 1
  }

  /** `s.find(p)`: the first element that satisfies `p`, if any. */
  function Find<T>(s: seq<T>, p: T -> bool): (r: Option<T>)
    ensures r.Some? ==> r.value in s && p(r.value)
    ensures r.Some? ==> 0 <= FindIndex(s, p) && r.value == s[FindIndex(s, p)]
    ensures r.None? <==> forall x :: x in s ==> !p(x)
  {
    var i := FindIndex(s, p);
    if i == -1 then None else Some(s[i])
  }

  /** A match inside the first part is found before the second part is reached. */
  lemma FindIndexInPrefix<T>(a: seq<T>, b: seq<T>, p: T -> bool)
    requires exists x :: x in a && p(x)
    ensures 0 <= FindIndex(a + b, p) < |a|
  {
    var x :| x in a && p(x);
    var k :| 0 <= k < |a| && a[k] == x;
    assert (a + b)[k] == x;
  }
}
