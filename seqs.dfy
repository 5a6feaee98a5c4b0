/** The array operations the components build their lists with:
    `find`, `filter`, element-wise replacement with `map`, and `reduce`-style sums. */
module Seqs {

  datatype Option<T> = None | Some(value: T)

  /** `s.find(p)`: the first element satisfying `p`, if any. */
  function Find<T>(s: seq<T>, p: T -> bool): (r: Option<T>)
    ensures r.None? <==> forall i :: 0 <= i < |s| ==> !p(s[i])
    ensures r.Some? ==> exists i :: 0 <= i < |s| && s[i] == r.value && p(s[i]) && forall j :: 0 <= j < i ==> !p(s[j])
  {
    if s == [] then None
    else if p(s[0]) then Some(s[0])
    else
      var r := Find(s[1..], p);
      assert forall i :: 1 <= i < |s| ==> s[i] == s[1..][i - 1];
      r
  }

  /** One step of `find`: the head if it matches, else the search of the rest. */
  lemma FindHead<T>(s: seq<T>, p: T -> bool)
    requires |s| > 0
    ensures Find(s, p) == if p(s[0]) then Some(s[0]) else Find(s[1..], p)
  {
  }

  /** `find` returns the first element that passes. */
  lemma FindFirst<T>(s: seq<T>, p: T -> bool, i: nat)
    requires i < |s| && p(s[i])
    requires forall j :: 0 <= j < i ==> !p(s[j])
    ensures Find(s, p) == Some(s[i])
  {
    var k :| 0 <= k < |s| && s[k] == Find(s, p).value && p(s[k]) && forall j :: 0 <= j < k ==> !p(s[j]);
    assert k == i;
  }

  /** When some element passes and every one that passes is `v`, `find` returns `v`. */
  lemma FindOnlyValue<T>(s: seq<T>, p: T -> bool, v: T)
    requires exists i :: 0 <= i < |s| && p(s[i])
    requires forall i :: 0 <= i < |s| && p(s[i]) ==> s[i] == v
    ensures Find(s, p) == Some(v)
  {
  }

  /** `s.filter(p)`. */
  function Filter<T>(s: seq<T>, p: T -> bool): (r: seq<T>)
    ensures |r| <= |s|
    ensures forall i :: 0 <= i < |r| ==> r[i] in s && p(r[i])
    ensures forall i :: 0 <= i < |s| && p(s[i]) ==> s[i] in r
  {
    if s == [] then []
    else (if p(s[0]) then [s[0]] else []) + Filter(s[1..], p)
  }

  /** Searching the filtered list finds something exactly when some element passes both tests. */
  lemma FindInFilter<T>(s: seq<T>, p: T -> bool, q: T -> bool)
    ensures Find(Filter(s, p), q).Some? <==> exists i :: 0 <= i < |s| && p(s[i]) && q(s[i])
  {
    if exists i :: 0 <= i < |s| && p(s[i]) && q(s[i]) {
      var i :| 0 <= i < |s| && p(s[i]) && q(s[i]);
      KeptByFilter(s, p, q, i);
    }
  }

  lemma KeptByFilter<T>(s: seq<T>, p: T -> bool, q: T -> bool, i: nat)
    requires i < |s| && p(s[i]) && q(s[i])
    ensures Find(Filter(s, p), q).Some?
  {
    var f := Filter(s, p);
    assert s[i] in f;
    var k :| 0 <= k < |f| && f[k] == s[i];
    assert q(f[k]);
  }

  /** One step of `filter`: the head, when it passes, then the filtered rest. */
  lemma FilterHead<T>(s: seq<T>, p: T -> bool)
    requires |s| > 0
    ensures Filter(s, p) == (if p(s[0]) then [s[0]] else []) + Filter(s[1..], p)
  {
  }

  /** Filtering distributes over concatenation, so it keeps the order of what it keeps. */
  lemma {:induction false} FilterConcat<T>(a: seq<T>, b: seq<T>, p: T -> bool)
    ensures Filter(a + b, p) == Filter(a, p) + Filter(b, p)
    decreases |a|
  {
    if a == [] {
      assert a + b == b;
    } else {
      assert (a + b)[0] == a[0] && (a + b)[1..] == a[1..] + b;
      FilterConcat(a[1..], b, p);
    }
  }

  /** Filtering a sequence whose every element passes changes nothing. */
  lemma {:induction false} FilterAllPass<T>(s: seq<T>, p: T -> bool)
    requires forall i :: 0 <= i < |s| ==> p(s[i])
    ensures Filter(s, p) == s
  {
    if s != [] {
      FilterAllPass(s[1..], p);
    }
  }

  /** Filtering with the same predicate twice is filtering once. */
  lemma {:induction false} FilterIdempotent<T>(s: seq<T>, p: T -> bool)
    ensures Filter(Filter(s, p), p) == Filter(s, p)
  {
    var r := Filter(s, p);
    FilterAllPass(r, p);
  }

  /** Three pairwise exclusive filters together keep at most the whole sequence. */
  lemma {:induction false} FilterDisjointCounts<T>(s: seq<T>, p: T -> bool, q: T -> bool, u: T -> bool)
    requires forall x :: !(p(x) && q(x)) && !(p(x) && u(x)) && !(q(x) && u(x))
    ensures |Filter(s, p)| + |Filter(s, q)| + |Filter(s, u)| <= |s|
  {
    if s != [] {
      FilterDisjointCounts(s[1..], p, q, u);
    }
  }

  /** `s.map(e => p(e) ? x : e)`: every element satisfying `p` becomes `x`. */
  function Replace<T>(s: seq<T>, p: T -> bool, x: T): (r: seq<T>)
    ensures |r| == |s|
    ensures forall i :: 0 <= i < |s| ==> r[i] == if p(s[i]) then x else s[i]
  {
    if s == [] then []
    else [if p(s[0]) then x else s[0]] + Replace(s[1..], p, x)
  }

  /** Replacing where nothing matches changes nothing. */
  lemma ReplaceNoMatch<T>(s: seq<T>, p: T -> bool, x: T)
    requires forall i :: 0 <= i < |s| ==> !p(s[i])
    ensures Replace(s, p, x) == s
  {
  }

  /** Replacing twice with the same value is replacing once. */
  lemma ReplaceIdempotent<T>(s: seq<T>, p: T -> bool, x: T)
    ensures Replace(Replace(s, p, x), p, x) == Replace(s, p, x)
  {
  }
}
