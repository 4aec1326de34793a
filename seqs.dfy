/** Order-preserving filtering of sequences, the shape of every `where` clause here. */
module Seqs {

  /** The elements of `s` that satisfy `keep`, in their order in `s`. */
  function Filter<T(!new)>(s: seq<T>, keep: T -> bool): (r: seq<T>)
    ensures forall x :: x in r <==> x in s && keep(x)
    ensures forall x :: multiset(r)[x] == if keep(x) then multiset(s)[x] else 0
    // the two consequences of the line above that callers use directly
    ensures |r| <= |s|
    ensures multiset(r) <= multiset(s)
  {
    if s == [] then []
    else
      var init, last := s[..|s| - 1], s[|s| - 1];
      assert s == init + [last];
      assert multiset(s) == multiset(init) + multiset{last};
      Filter(init, keep) + (if keep(last) then [last] else [])
  }

  /** Appending one element extends the filtered sequence by that element when it is kept. */
  lemma FilterAppend<T(!new)>(s: seq<T>, x: T, keep: T -> bool)
    ensures Filter(s + [x], keep) == Filter(s, keep) + (if keep(x) then [x] else [])
  {
    assert (s + [x])[..|s + [x]| - 1] == s;
  }

  /** Filtering distributes over concatenation, so the filter keeps the order of its input. */
  lemma {:induction false} FilterConcat<T(!new)>(a: seq<T>, b: seq<T>, keep: T -> bool)
    ensures Filter(a + b, keep) == Filter(a, keep) + Filter(b, keep)
    decreases |b|
  {
    if b == [] {
      assert a + b == a;
    } else {
      var init, last := b[..|b| - 1], b[|b| - 1];
      assert b == init + [last];
      assert a + b == (a + init) + [last];
      FilterAppend(a + init, last, keep);
      FilterConcat(a, init, keep);
      FilterAppend(init, last, keep);
      Regroup(Filter(a + b, keep), Filter(a + init, keep), Filter(a, keep), Filter(init, keep),
              Filter(b, keep), if keep(last) then [last] else []);
    }
  }

  /** The sequence algebra of one step of `FilterConcat`. */
  lemma Regroup<T>(ab: seq<T>, ai: seq<T>, fa: seq<T>, fi: seq<T>, fb: seq<T>, tail: seq<T>)
    requires ab == ai + tail && ai == fa + fi && fb == fi + tail
    ensures ab == fa + fb
  {
  }

  /** Two tests that agree on every element of `s` select the same subsequence. */
  lemma {:induction false} FilterAgrees<T(!new)>(s: seq<T>, f: T -> bool, g: T -> bool)
    requires forall i :: 0 <= i < |s| ==> f(s[i]) == g(s[i])
    ensures Filter(s, f) == Filter(s, g)
  {
    if s != [] {
      FilterAgrees(s[..|s| - 1], f, g);
    }
  }

  /** A test that rejects every element of `s` selects nothing. */
  lemma {:induction false} FilterNone<T(!new)>(s: seq<T>, keep: T -> bool)
    requires forall i :: 0 <= i < |s| ==> !keep(s[i])
    ensures Filter(s, keep) == []
  {
    if s != [] {
      FilterNone(s[..|s| - 1], keep);
    }
  }
}
