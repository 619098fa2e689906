/** Sequence operations the site performs through JavaScript's `Array.prototype.filter` and `join`. */
module Seqs {

  /** `r` can be obtained from `s` by deleting elements, without reordering the rest. */
  ghost predicate IsSubsequence<T>(r: seq<T>, s: seq<T>)
    decreases |s|
  {
    if r == [] then true
    else if s == [] then false
    else (r[0] == s[0] && IsSubsequence(r[1..], s[1..])) || IsSubsequence(r, s[1..])
  }

  /** `s.filter(f)`: the elements of `s` that satisfy `f`, in their original order.
      Together with FilterIsSubsequence and FilterKeepsMatches the contract characterises
      the result completely: a subsequence of `s` holding only elements that satisfy `f`
      and every such element as often as `s` has it. */
  function Filter<T>(s: seq<T>, f: T -> bool): (r: seq<T>)
    ensures |r| <= |s|
    ensures forall i | 0 <= i < |r| :: f(r[i])
    ensures multiset(r) <= multiset(s)
  {
    if s == [] then []
    else
      assert s == [s[0]] + s[1..];
      if f(s[0]) then [s[0]] + Filter(s[1..], f) else Filter(s[1..], f)
  }

  /** The kept elements stay in their original relative order. */
  lemma {:induction false} FilterIsSubsequence<T>(s: seq<T>, f: T -> bool)
    ensures IsSubsequence(Filter(s, f), s)
  {
    if s != [] {
      FilterIsSubsequence(s[1..], f);
      var r := Filter(s, f);
      if f(s[0]) {
        assert r[0] == s[0] && r[1..] == Filter(s[1..], f);
      }
    }
  }

  /** No element satisfying `f` is dropped: it occurs as often in the result as in `s`. */
  lemma {:induction false} FilterKeepsMatches<T>(s: seq<T>, f: T -> bool, x: T)
    requires f(x)
    ensures multiset(Filter(s, f))[x] == multiset(s)[x]
  {
    if s != [] {
      FilterKeepsMatches(s[1..], f, x);
      assert s == [s[0]] + s[1..];
    }
  }

  /** Nothing is dropped exactly when every element satisfies `f`, and then the result is `s` itself. */
  lemma {:induction false} FilterKeepsAll<T>(s: seq<T>, f: T -> bool)
    ensures |Filter(s, f)| == |s| <==> forall i | 0 <= i < |s| :: f(s[i])
    ensures |Filter(s, f)| == |s| ==> Filter(s, f) == s
  {
    if s != [] {
      FilterKeepsAll(s[1..], f);
      assert forall i | 1 <= i < |s| :: s[i] == s[1..][i - 1];
    }
  }

  /** Filtering distributes over concatenation. */
  lemma {:induction false} FilterAppend<T>(a: seq<T>, b: seq<T>, f: T -> bool)
    ensures Filter(a + b, f) == Filter(a, f) + Filter(b, f)
  {
    if a == [] {
      assert a + b == b;
    } else {
      assert (a + b)[1..] == a[1..] + b;
      FilterAppend(a[1..], b, f);
    }
  }

  /** Filtering twice with the same predicate is filtering once. */
  lemma {:induction false} FilterIdempotent<T>(s: seq<T>, f: T -> bool)
    ensures Filter(Filter(s, f), f) == Filter(s, f)
  {
    FilterKeepsAll(Filter(s, f), f);
  }

  /** Nothing is kept exactly when no element satisfies `f`. */
  lemma {:induction false} FilterEmpty<T>(s: seq<T>, f: T -> bool)
    ensures Filter(s, f) == [] <==> forall i | 0 <= i < |s| :: !f(s[i])
  {
    if s != [] {
      FilterEmpty(s[1..], f);
      assert forall i | 1 <= i < |s| :: s[i] == s[1..][i - 1];
    }
  }

  /** When every element satisfies exactly one of `f` and `g`, the two filters share out `s`. */
  lemma {:induction false} FilterPartition<T>(s: seq<T>, f: T -> bool, g: T -> bool)
    requires forall i | 0 <= i < |s| :: f(s[i]) != g(s[i])
    ensures |Filter(s, f)| + |Filter(s, g)| == |s|
  {
    if s != [] {
      assert forall i | 1 <= i < |s| :: s[1..][i - 1] == s[i];
      FilterPartition(s[1..], f, g);
    }
  }

  /** `parts.join(sep)` */
  function Join(parts: seq<string>, sep: string): (r: string)
    ensures parts == [] ==> r == ""
    ensures |parts| == 1 ==> r == parts[0]
  {
    if parts == [] then ""
    else if |parts| == 1 then parts[0]
    else parts[0] + sep + Join(parts[1..], sep)
  }

  /** Joining two non-empty lists puts exactly one separator between their joins. */
  lemma {:induction false} JoinAppend(a: seq<string>, b: seq<string>, sep: string)
    requires a != [] && b != []
    ensures Join(a + b, sep) == Join(a, sep) + sep + Join(b, sep)
  {
    if |a| == 1 {
      assert (a + b)[1..] == b;
    } else {
      assert (a + b)[1..] == a[1..] + b;
      JoinAppend(a[1..], b, sep);
    }
  }

  /** With no empty part, the join is empty exactly when there are no parts. */
  lemma {:induction false} JoinEmpty(parts: seq<string>, sep: string)
    requires forall i | 0 <= i < |parts| :: parts[i] != ""
    ensures Join(parts, sep) == "" <==> parts == []
  {
    if |parts| > 1 {
      assert parts[0] != "";
      assert |Join(parts, sep)| >= |parts[0]|;
    }
  }
}
