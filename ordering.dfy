/** `orderBy: { createdAt: "desc" }`: todos arranged newest first. */
module Ordering {
  import opened Records

  /** Each todo is at least as new as the one after it. */
  ghost predicate NewestFirst(s: seq<Todo>) {
    forall i :: 0 < i < |s| ==> s[i - 1].createdAt >= s[i].createdAt
  }

  /** Places `t` before the first todo that is not newer than it. */
  function Insert(t: Todo, s: seq<Todo>): (r: seq<Todo>)
    requires NewestFirst(s)
    ensures NewestFirst(r)
    ensures |r| == |s| + 1
    ensures r[0] == t || (|s| > 0 && r[0] == s[0])
  {
    if s == [] then [t]
    else if t.createdAt >= s[0].createdAt then [t] + s
    else
      var tail := s[1..];
      SliceNewestFirst(s, 1, |s|);
      var rest := Insert(t, tail);
      assert |tail| > 0 ==> tail[0] == s[1];
      assert rest[0].createdAt <= s[0].createdAt;
      ConsNewestFirst(s[0], rest);
      [s[0]] + rest
  }

  /** Inserting adds exactly `t`: the result is a permutation of `s` plus `t`. */
  lemma {:induction false} InsertPermutes(t: Todo, s: seq<Todo>)
    requires NewestFirst(s)
    ensures multiset(Insert(t, s)) == multiset(s) + multiset{t}
  {
    if s != [] && t.createdAt < s[0].createdAt {
      SliceNewestFirst(s, 1, |s|);
      InsertPermutes(t, s[1..]);
      assert s == [s[0]] + s[1..];
    }
  }

  /** Putting a todo in front keeps the order when it is at least as new as the old head. */
  lemma ConsNewestFirst(x: Todo, rest: seq<Todo>)
    requires NewestFirst(rest)
    requires |rest| > 0 ==> x.createdAt >= rest[0].createdAt
    ensures NewestFirst([x] + rest)
  {
    forall i | 1 < i < |rest| + 1
      ensures ([x] + rest)[i - 1].createdAt >= ([x] + rest)[i].createdAt
    {
      assert ([x] + rest)[i] == rest[i - 1];
      assert ([x] + rest)[i - 1] == rest[i - 2];
    }
  }

  /**
   * The todos of `s`, newest first. Todos created at the same instant keep
   * their store order; the database promises no particular order for them.
   */
  function SortNewestFirst(s: seq<Todo>): (r: seq<Todo>)
    ensures NewestFirst(r)
    ensures multiset(r) == multiset(s)
  {
    if s == [] then []
    else
      assert s == [s[0]] + s[1..];
      InsertPermutes(s[0], SortNewestFirst(s[1..]));
      Insert(s[0], SortNewestFirst(s[1..]))
  }

  /** Newest-first order holds between any two positions, not only neighbours. */
  lemma {:induction false} NewestFirstPairwise(s: seq<Todo>, i: int, j: int)
    requires NewestFirst(s)
    requires 0 <= i <= j < |s|
    ensures s[i].createdAt >= s[j].createdAt
    decreases j - i
  {
    if i < j {
      NewestFirstPairwise(s, i + 1, j);
    }
  }

  /** A contiguous slice of a newest-first sequence is newest first. */
  lemma SliceNewestFirst(s: seq<Todo>, lo: int, hi: int)
    requires NewestFirst(s)
    requires 0 <= lo <= hi <= |s|
    ensures NewestFirst(s[lo..hi])
  {
  }
}
