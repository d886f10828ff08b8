/**
 * The two array operations the storage layer and the route handlers use:
 * `Array.prototype.filter` (keep, in order, the elements a predicate accepts)
 * and `Array.prototype.find` (the first element a predicate accepts).
 */
module Seqs {
  import opened Records

  /** `a` is `b` with some elements deleted, the rest kept in order. */
  predicate IsSubsequence<T(==)>(a: seq<T>, b: seq<T>)
    decreases |b|
  {
    if b == [] then a == []
    else (a != [] && a[0] == b[0] && IsSubsequence(a[1..], b[1..])) || IsSubsequence(a, b[1..])
  }

  lemma {:induction false} SelfSubsequence<T>(s: seq<T>)
    ensures IsSubsequence(s, s)
  {
    if s != [] {
      SelfSubsequence(s[1..]);
    }
  }

  /** `s.filter(keep)`. */
  function Filter<T>(s: seq<T>, keep: T -> bool): (r: seq<T>)
    ensures |r| <= |s|
    ensures forall i :: 0 <= i < |r| ==> r[i] in s && keep(r[i])
    ensures forall i :: 0 <= i < |s| && keep(s[i]) ==> s[i] in r
  {
    if s == [] then []
    else if keep(s[0]) then [s[0]] + Filter(s[1..], keep)
    else Filter(s[1..], keep)
  }

  /** Filtering keeps the survivors in their original relative order. */
  lemma {:induction false} FilterIsSubsequence<T>(s: seq<T>, keep: T -> bool)
    ensures IsSubsequence(Filter(s, keep), s)
  {
    if s != [] {
      FilterIsSubsequence(s[1..], keep);
      if keep(s[0]) {
        assert Filter(s, keep)[1..] == Filter(s[1..], keep);
      }
    }
  }

  /** Filtering by one predicate and then by another is filtering once by both. */
  lemma {:induction false} FilterTwice<T>(s: seq<T>, f: T -> bool, g: T -> bool, both: T -> bool)
    requires forall x :: both(x) == (f(x) && g(x))
    ensures Filter(Filter(s, f), g) == Filter(s, both)
  {
    if s != [] {
      FilterTwice(s[1..], f, g, both);
      if f(s[0]) {
        assert Filter(s, f) == [s[0]] + Filter(s[1..], f);
        assert Filter(s, f)[1..] == Filter(s[1..], f);
      }
    }
  }

  /** A predicate that holds of every element filters nothing out. */
  lemma {:induction false} FilterAll<T>(s: seq<T>, keep: T -> bool)
    requires forall i :: 0 <= i < |s| ==> keep(s[i])
    ensures Filter(s, keep) == s
  {
    if s != [] {
      FilterAll(s[1..], keep);
    }
  }

  /** The position of the first element `accept` holds of; `|s|` when there is none. */
  function FirstMatch<T>(s: seq<T>, accept: T -> bool): (k: nat)
    ensures k <= |s|
    ensures forall j :: 0 <= j < k ==> !accept(s[j])
    ensures k < |s| ==> accept(s[k])
  {
    if s == [] || accept(s[0]) then 0 else 1 + FirstMatch(s[1..], accept)
  }

  /** `s.find(accept)`: the first element `accept` holds of, if there is one. */
  function Find<T>(s: seq<T>, accept: T -> bool): (r: Option<T>)
    ensures r.None? <==> forall i :: 0 <= i < |s| ==> !accept(s[i])
    ensures r.Some? ==> exists k :: 0 <= k < |s| && s[k] == r.value && accept(s[k]) &&
                                    forall j :: 0 <= j < k ==> !accept(s[j])
  {
    var k := FirstMatch(s, accept);
    if k < |s| then Some(s[k]) else None
  }

  /** Appending never changes what `find` already finds in the front part. */
  lemma {:induction false} FirstMatchAppend<T>(s: seq<T>, t: seq<T>, accept: T -> bool)
    ensures FirstMatch(s + t, accept) ==
            if FirstMatch(s, accept) < |s| then FirstMatch(s, accept) else |s| + FirstMatch(t, accept)
  {
    if s == [] {
      assert s + t == t;
    } else if !accept(s[0]) {
      assert (s + t)[1..] == s[1..] + t;
      FirstMatchAppend(s[1..], t, accept);
    }
  }

  lemma FindAppend<T>(s: seq<T>, t: seq<T>, accept: T -> bool)
    ensures Find(s + t, accept) == if Find(s, accept).Some? then Find(s, accept) else Find(t, accept)
  {
    FirstMatchAppend(s, t, accept);
  }
}
