/** Sequence helpers shared by the model: Python's `list.remove`, first-occurrence
    lookup, and the "subsequence" relation used to say that a list only lost
    elements and kept the order of the others. */
module Lists {

  datatype Option<T> = None | Some(value: T)

  datatype Result<T, E> = Ok(value: T) | Err(error: E)

  /** No element occurs twice. */
  predicate NoDup<T(==)>(s: seq<T>) {
    forall i, j :: 0 <= i < j < |s| ==> s[i] != s[j]
  }

  /** Index of the first occurrence of `x` in `s`. */
  function IndexOf<T(==)>(s: seq<T>, x: T): (k: nat)
    requires x in s
    ensures k < |s| && s[k] == x && x !in s[..k]
  {
    if s[0] == x then 0
    else
      var k := IndexOf(s[1..], x);
      assert s[..k + 1] == [s[0]] + s[1..][..k];
      1 + k
  }

  /** `list.remove(x)` after `if x in list`: scans from the front and drops the
      first element equal to `x`; leaves the list alone when `x` is absent. */
  function RemoveFirst<T(==)>(s: seq<T>, x: T): (r: seq<T>)
    ensures x !in s ==> r == s
    ensures x in s ==> |r| == |s| - 1
  {
    if s == [] then []
    else if s[0] == x then s[1..]
    else [s[0]] + RemoveFirst(s[1..], x)
  }

  /** Exactly one copy of `x` goes, if there is one. */
  lemma {:induction false} RemoveFirstMultiset<T>(s: seq<T>, x: T)
    ensures multiset(RemoveFirst(s, x)) == multiset(s) - multiset{x}
  {
    if s != [] {
      assert s == [s[0]] + s[1..];
      RemoveFirstMultiset(s[1..], x);
    }
  }

  /** Prepending the same element keeps the subsequence relation. */
  lemma SubseqCons<T>(x: T, a: seq<T>, b: seq<T>)
    requires IsSubseq(a, b)
    ensures IsSubseq([x] + a, [x] + b)
  {
    assert ([x] + a)[1..] == a;
    assert ([x] + b)[1..] == b;
  }

  /** `a` is obtained from `b` by deleting elements: nothing added, order kept. */
  predicate IsSubseq<T(==)>(a: seq<T>, b: seq<T>)
    decreases |b|
  {
    a == [] ||
    (b != [] && ((a[0] == b[0] && IsSubseq(a[1..], b[1..])) || IsSubseq(a, b[1..])))
  }

  /** Removing the first occurrence of `x` cuts the list exactly at `IndexOf(s, x)`;
      the elements before and after it keep their order. */
  lemma {:induction false} RemoveFirstAt<T>(s: seq<T>, x: T)
    requires x in s
    ensures RemoveFirst(s, x) == s[..IndexOf(s, x)] + s[IndexOf(s, x) + 1..]
  {
    if s[0] == x {
      assert IndexOf(s, x) == 0;
      assert s[..0] + s[1..] == s[1..];
    } else {
      var t := s[1..];
      RemoveFirstAt(t, x);
      var k := IndexOf(t, x);
      assert IndexOf(s, x) == k + 1;
      assert RemoveFirst(s, x) == [s[0]] + RemoveFirst(t, x);
      assert s[..k + 1] == [s[0]] + t[..k];
      assert s[k + 2..] == t[k + 1..];
      assert [s[0]] + (t[..k] + t[k + 1..]) == ([s[0]] + t[..k]) + t[k + 1..];
    }
  }

  /** When `s[i] == x`, the first occurrence of `x` is at or before `i`, so the
      suffix from `i` of the shortened list is what followed position `i`. */
  lemma {:induction false} RemoveFirstSuffix<T>(s: seq<T>, x: T, i: nat)
    requires i < |s| && s[i] == x
    ensures |RemoveFirst(s, x)| == |s| - 1
    ensures RemoveFirst(s, x)[i..] == s[i + 1..]
  {
    if s[0] != x {
      RemoveFirstSuffix(s[1..], x, i - 1);
      assert s[1..][i..] == s[i + 1..];
    }
  }

  /** The shortened list is a subsequence of the original. */
  lemma {:induction false} RemoveFirstSubseq<T>(s: seq<T>, x: T)
    ensures IsSubseq(RemoveFirst(s, x), s)
  {
    if s == [] {
    } else if s[0] == x {
      SubseqOfTail(s[1..], s);
    } else {
      RemoveFirstSubseq(s[1..], x);
      assert RemoveFirst(s, x)[1..] == RemoveFirst(s[1..], x);
    }
  }

  /** Removing the first occurrence of an element appended to a list that did not
      contain it gives the list back. */
  lemma {:induction false} RemoveFirstAppended<T>(s: seq<T>, x: T)
    requires x !in s
    ensures RemoveFirst(s + [x], x) == s
  {
    if s != [] {
      assert (s + [x])[1..] == s[1..] + [x];
      RemoveFirstAppended(s[1..], x);
      assert s == [s[0]] + s[1..];
    }
  }

  /** Removing an element that occurs at most once a second time changes nothing. */
  lemma RemoveFirstTwice<T>(s: seq<T>, x: T)
    requires multiset(s)[x] <= 1
    ensures RemoveFirst(RemoveFirst(s, x), x) == RemoveFirst(s, x)
  {
    var r := RemoveFirst(s, x);
    RemoveFirstMultiset(s, x);
    assert multiset(r)[x] == 0;
    assert x !in r;
  }

  lemma {:induction false} SubseqRefl<T>(s: seq<T>)
    ensures IsSubseq(s, s)
  {
    if s != [] {
      SubseqRefl(s[1..]);
    }
  }

  /** A tail of `s` is a subsequence of `s`. */
  lemma SubseqOfTail<T>(t: seq<T>, s: seq<T>)
    requires s != [] && t == s[1..]
    ensures IsSubseq(t, s)
  {
    SubseqRefl(t);
  }

  lemma {:induction false} SubseqTrans<T>(a: seq<T>, b: seq<T>, c: seq<T>)
    requires IsSubseq(a, b) && IsSubseq(b, c)
    ensures IsSubseq(a, c)
    decreases |c|
  {
    if a != [] {
      if IsSubseq(b, c[1..]) {
        SubseqTrans(a, b, c[1..]);
      } else if a[0] == b[0] && IsSubseq(a[1..], b[1..]) {
        SubseqTrans(a[1..], b[1..], c[1..]);
      } else {
        SubseqTrans(a, b[1..], c[1..]);
      }
    }
  }

  /** A subsequence has no more copies of any element than its super-sequence. */
  lemma {:induction false} SubseqMultiset<T>(a: seq<T>, b: seq<T>)
    requires IsSubseq(a, b)
    ensures multiset(a) <= multiset(b)
    decreases |b|
  {
    if a != [] {
      assert b == [b[0]] + b[1..];
      if a[0] == b[0] && IsSubseq(a[1..], b[1..]) {
        SubseqMultiset(a[1..], b[1..]);
        assert a == [a[0]] + a[1..];
      } else {
        SubseqMultiset(a, b[1..]);
      }
    }
  }

  /** Every element of a subsequence is an element of the whole. */
  lemma SubseqMembers<T>(a: seq<T>, b: seq<T>)
    requires IsSubseq(a, b)
    ensures forall y :: y in a ==> y in b
  {
    SubseqMultiset(a, b);
    forall y | y in a ensures y in b {
      assert multiset(a)[y] >= 1;
    }
  }

  /** A sequence with at most one copy of each element has no duplicates. */
  lemma MultisetBoundNoDup<T>(a: seq<T>, b: seq<T>)
    requires multiset(a) <= multiset(b) && NoDup(b)
    ensures NoDup(a)
  {
    forall i, j | 0 <= i < j < |a| ensures a[i] != a[j] {
      if a[i] == a[j] {
        CountTwo(a, i, j);
        CountOne(b, a[i]);
        assert false;
      }
    }
  }

  /** Two equal entries give a count of at least two. */
  lemma CountTwo<T>(a: seq<T>, i: nat, j: nat)
    requires i < j < |a| && a[i] == a[j]
    ensures multiset(a)[a[i]] >= 2
  {
    assert a == a[..i] + [a[i]] + a[i + 1..j] + [a[j]] + a[j + 1..];
  }

  /** Without duplicates, every element is counted at most once. */
  lemma {:induction false} CountOne<T>(b: seq<T>, x: T)
    requires NoDup(b)
    ensures multiset(b)[x] <= 1
  {
    if b != [] {
      assert b == [b[0]] + b[1..];
      assert NoDup(b[1..]) by {
        forall i, j | 0 <= i < j < |b[1..]| ensures b[1..][i] != b[1..][j] {
          assert b[i + 1] != b[j + 1];
        }
      }
      CountOne(b[1..], x);
      if b[0] == x {
        assert x !in b[1..] by {
          forall k | 0 <= k < |b[1..]| ensures b[1..][k] != x {
            assert b[0] != b[k + 1];
          }
        }
      }
    }
  }
}
