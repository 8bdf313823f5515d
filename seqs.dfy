/** Sequence operations the TypeScript code gets from `Array.prototype`. */
module Seqs {
  import opened Common

  /** `s` can be obtained from `t` by deleting elements (order is kept). */
  predicate IsSubseq<T(==)>(s: seq<T>, t: seq<T>)
    decreases |t|
  {
    |s| <= |t| &&
    (s == [] || (s[0] == t[0] && IsSubseq(s[1..], t[1..])) || IsSubseq(s, t[1..]))
  }

  lemma {:induction false} SubseqRefl<T>(s: seq<T>)
    ensures IsSubseq(s, s)
  {
    if s != [] { SubseqRefl(s[1..]); }
  }

  /** Dropping the first element keeps a subsequence a subsequence. */
  lemma {:induction false} SubseqTail<T>(s: seq<T>, t: seq<T>)
    requires s != [] && IsSubseq(s, t)
    ensures IsSubseq(s[1..], t)
    decreases |t|
  {
    if s[0] == t[0] && IsSubseq(s[1..], t[1..]) {
      if s[1..] != [] && !IsSubseq(s[1..], t) {
        assert IsSubseq(s[1..], t[1..]);
      }
    } else {
      SubseqTail(s, t[1..]);
    }
  }

  /** Elements of a subsequence occur in the sequence. */
  lemma {:induction false} SubseqMembers<T>(s: seq<T>, t: seq<T>)
    requires IsSubseq(s, t)
    ensures forall x :: x in s ==> x in t
    decreases |t|
  {
    if s == [] {
    } else if s[0] == t[0] && IsSubseq(s[1..], t[1..]) {
      SubseqMembers(s[1..], t[1..]);
      forall x | x in s ensures x in t {
        if x != s[0] { assert x in s[1..]; }
      }
    } else {
      SubseqMembers(s, t[1..]);
    }
  }

  /** A subsequence stays one when the sequence grows at the back. */
  lemma {:induction false} SubseqExtend<T>(s: seq<T>, t: seq<T>, x: T)
    requires IsSubseq(s, t)
    ensures IsSubseq(s, t + [x])
    decreases |t|
  {
    if s != [] {
      assert (t + [x])[1..] == t[1..] + [x];
      if s[0] == t[0] && IsSubseq(s[1..], t[1..]) {
        SubseqExtend(s[1..], t[1..], x);
      } else {
        SubseqExtend(s, t[1..], x);
      }
    }
  }

  /** Appending the same element to both keeps a subsequence. */
  lemma {:induction false} SubseqSnoc<T>(s: seq<T>, t: seq<T>, x: T)
    requires IsSubseq(s, t)
    ensures IsSubseq(s + [x], t + [x])
    decreases |t|
  {
    if t == [] {
      assert s == [];
      assert IsSubseq(s + [x], t + [x]) by {
        assert s + [x] == t + [x] == [x];
        assert IsSubseq([x][1..], [x][1..]);
      }
    } else {
      assert (t + [x])[1..] == t[1..] + [x];
      if s != [] && s[0] == t[0] && IsSubseq(s[1..], t[1..]) {
        SubseqSnoc(s[1..], t[1..], x);
        assert (s + [x])[1..] == s[1..] + [x];
      } else {
        assert IsSubseq(s, t[1..]);
        SubseqSnoc(s, t[1..], x);
      }
    }
  }

  /** `Array.prototype.filter(p)`: the elements that satisfy `p`, in order. */
  function Filter<T>(s: seq<T>, p: T -> bool): (r: seq<T>)
    ensures |r| <= |s|
    ensures IsSubseq(r, s)
    ensures forall x :: x in r ==> p(x)
  {
    if s == [] then []
    else
      var rest := Filter(s[1..], p);
      if p(s[0]) then [s[0]] + rest else rest
  }

  /** Filtering keeps every satisfying element with its multiplicity and
      drops every other one. */
  lemma {:induction false} FilterCount<T>(s: seq<T>, p: T -> bool, x: T)
    ensures multiset(Filter(s, p))[x] == if p(x) then multiset(s)[x] else 0
  {
    if s != [] {
      FilterCount(s[1..], p, x);
      assert s == [s[0]] + s[1..];
    }
  }

  /** Membership in a filtered sequence, both directions. */
  lemma FilterMembers<T>(s: seq<T>, p: T -> bool, x: T)
    ensures x in Filter(s, p) <==> x in s && p(x)
  {
    FilterCount(s, p, x);
    var r := Filter(s, p);
    assert x in r <==> multiset(r)[x] > 0;
    assert x in s <==> multiset(s)[x] > 0;
  }

  /** `s.map(f)`. */
  function Map<A, B>(s: seq<A>, f: A -> B): (r: seq<B>)
    ensures |r| == |s|
    ensures forall i :: 0 <= i < |s| ==> r[i] == f(s[i])
  {
    seq(|s|, i requires 0 <= i < |s| => f(s[i]))
  }

  /** Mapping one more element appends its image. */
  lemma MapSnoc<A, B>(s: seq<A>, f: A -> B, i: nat)
    requires i < |s|
    ensures Map(s[..i + 1], f) == Map(s[..i], f) + [f(s[i])]
  {
    var a, p := Map(s[..i + 1], f), Map(s[..i], f);
    forall j | 0 <= j < i ensures a[j] == p[j] {
      assert s[..i + 1][j] == s[..i][j];
    }
    assert a[i] == f(s[i]) by {
      assert s[..i + 1][i] == s[i];
    }
    assert a == p + [f(s[i])];
  }

  /** `s.slice(0, end)`: a prefix; a negative `end` counts from the back. */
  function Slice<T>(s: seq<T>, end: int): (r: seq<T>)
    ensures r <= s
    ensures end >= 0 ==> |r| == Min(end, |s|)
    ensures end < 0 ==> |r| == Max(0, |s| + end)
  {
    if end >= 0 then (if end <= |s| then s[..end] else s)
    else if |s| + end >= 0 then s[..|s| + end]
    else []
  }

  /** Number of elements of `s` that satisfy `p`. */
  function CountIf<T>(s: seq<T>, p: T -> bool): (n: nat)
    ensures n <= |s|
  {
    if s == [] then 0 else (if p(s[|s| - 1]) then 1 else 0) + CountIf(s[..|s| - 1], p)
  }

  lemma {:induction false} CountIfConcat<T>(a: seq<T>, b: seq<T>, p: T -> bool)
    ensures CountIf(a + b, p) == CountIf(a, p) + CountIf(b, p)
    decreases |b|
  {
    if b == [] {
      assert a + b == a;
    } else {
      var n := |b| - 1;
      CountIfConcat(a, b[..n], p);
      assert (a + b)[..|a + b| - 1] == a + b[..n];
    }
  }

  /** The count depends only on the multiset of elements. */
  lemma {:induction false} CountIfPermutation<T>(s: seq<T>, t: seq<T>, p: T -> bool)
    requires multiset(s) == multiset(t)
    ensures CountIf(s, p) == CountIf(t, p)
    decreases |s|
  {
    if s == [] {
      assert |t| == |multiset(t)| == 0;
    } else {
      var n := |s| - 1;
      var x := s[n];
      assert s == s[..n] + [x];
      assert x in multiset(t);
      var j :| 0 <= j < |t| && t[j] == x;
      var rest := t[..j] + t[j + 1..];
      assert t == t[..j] + [x] + t[j + 1..];
      assert multiset(s[..n]) == multiset(rest) by {
        calc {
          multiset(s[..n]) + multiset{x};
          multiset(s);
          multiset(t[..j] + [x] + t[j + 1..]);
          multiset(t[..j]) + multiset{x} + multiset(t[j + 1..]);
          multiset(rest) + multiset{x};
        }
        assert multiset(s[..n]) == (multiset(s[..n]) + multiset{x}) - multiset{x};
        assert multiset(rest) == (multiset(rest) + multiset{x}) - multiset{x};
      }
      CountIfPermutation(s[..n], rest, p);
      CountIfConcat(t[..j], [x], p);
      CountIfConcat(t[..j] + [x], t[j + 1..], p);
      CountIfConcat(t[..j], t[j + 1..], p);
      CountIfConcat(s[..n], [x], p);
      assert CountIf([x], p) == if p(x) then 1 else 0 by {
        assert [x][..0] == [];
      }
    }
  }

  function Sum(s: seq<real>): real
  {
    if s == [] then 0.0 else Sum(s[..|s| - 1]) + s[|s| - 1]
  }
}
