/** Sequence helpers standing in for the JavaScript array methods the
    application uses: `Array.prototype.flat` and `Array.prototype.filter`. */
module Seqs {

  /** `xss.flat()`: the concatenation of the inner sequences, in order. */
  function Flatten<T>(xss: seq<seq<T>>): seq<T>
  {
    if |xss| == 0 then [] else xss[0] + Flatten(xss[1..])
  }

  /** Sum of the lengths of the first `n` inner sequences: where the
      `n`-th one starts inside `Flatten(xss)`. */
  function Offset<T>(xss: seq<seq<T>>, n: nat): nat
    requires n <= |xss|
  {
    if n == 0 then 0 else Offset(xss, n - 1) + |xss[n - 1]|
  }

  /** Flattening distributes over concatenation of the outer sequence. */
  lemma {:induction false} FlattenAppend<T>(a: seq<seq<T>>, b: seq<seq<T>>)
    ensures Flatten(a + b) == Flatten(a) + Flatten(b)
  {
    if |a| == 0 {
      assert a + b == b;
    } else {
      assert (a + b)[1..] == a[1..] + b;
      FlattenAppend(a[1..], b);
    }
  }

  /** Appending one segment extends the flattened path by exactly that segment. */
  lemma FlattenSnoc<T>(a: seq<seq<T>>, s: seq<T>)
    ensures Flatten(a + [s]) == Flatten(a) + s
  {
    FlattenAppend(a, [s]);
    assert Flatten([s]) == s + Flatten([s][1..]);
    assert [s][1..] == [];
  }

  /** The flattened length is the total of the inner lengths. */
  lemma {:induction false} FlattenLength<T>(xss: seq<seq<T>>)
    ensures |Flatten(xss)| == Offset(xss, |xss|)
  {
    if |xss| > 0 {
      var init := xss[..|xss| - 1];
      assert xss == init + [xss[|xss| - 1]];
      FlattenSnoc(init, xss[|xss| - 1]);
      FlattenLength(init);
      OffsetPrefix(xss, init, |init|);
    }
  }

  /** Offsets depend only on the inner sequences before the given position. */
  lemma {:induction false} OffsetPrefix<T>(xss: seq<seq<T>>, pre: seq<seq<T>>, n: nat)
    requires n <= |pre| <= |xss| && pre == xss[..|pre|]
    ensures Offset(xss, n) == Offset(pre, n)
  {
    if n > 0 {
      OffsetPrefix(xss, pre, n - 1);
    }
  }

  /** Inner sequence `i` occupies positions `Offset(xss, i)` up to
      `Offset(xss, i + 1)` of the flattened sequence: flattening keeps every
      element and the order of the inner sequences. */
  lemma {:induction false} FlattenSlice<T>(xss: seq<seq<T>>, i: nat)
    requires i < |xss|
    ensures Offset(xss, i + 1) <= |Flatten(xss)|
    ensures Flatten(xss)[Offset(xss, i)..Offset(xss, i + 1)] == xss[i]
  {
    var pre := xss[..i];
    var post := xss[i + 1..];
    assert xss == pre + [xss[i]] + post;
    FlattenAppend(pre + [xss[i]], post);
    FlattenSnoc(pre, xss[i]);
    FlattenLength(pre);
    OffsetPrefix(xss, pre, i);
  }

  /** `FlattenSlice` for every inner sequence, with the length. */
  lemma FlattenKeepsAll<T>(xss: seq<seq<T>>)
    ensures |Flatten(xss)| == Offset(xss, |xss|)
    ensures forall i {:trigger Offset(xss, i)} :: 0 <= i < |xss| ==>
              Offset(xss, i + 1) <= |Flatten(xss)| && Flatten(xss)[Offset(xss, i)..Offset(xss, i + 1)] == xss[i]
  {
    FlattenLength(xss);
    forall i {:trigger Offset(xss, i)} | 0 <= i < |xss|
      ensures Offset(xss, i + 1) <= |Flatten(xss)| && Flatten(xss)[Offset(xss, i)..Offset(xss, i + 1)] == xss[i]
    {
      FlattenSlice(xss, i);
    }
  }

  /** `s.filter(p)`: the elements of `s` that satisfy `p`, in their order. */
  function Filter<T>(s: seq<T>, p: T -> bool): seq<T>
  {
    if |s| == 0 then []
    else if p(s[0]) then [s[0]] + Filter(s[1..], p)
    else Filter(s[1..], p)
  }

  /** Filtering one more element at the end. */
  lemma {:induction false} FilterSnoc<T>(s: seq<T>, x: T, p: T -> bool)
    ensures Filter(s + [x], p) == Filter(s, p) + (if p(x) then [x] else [])
  {
    if |s| == 0 {
      assert s + [x] == [x];
      assert [x][1..] == [];
    } else {
      assert (s + [x])[1..] == s[1..] + [x];
      FilterSnoc(s[1..], x, p);
    }
  }

  /** Each value keeps all of its occurrences when it satisfies `p` and
      none otherwise: the filter neither drops, duplicates nor invents. */
  lemma {:induction false} FilterCount<T>(s: seq<T>, p: T -> bool, x: T)
    ensures multiset(Filter(s, p))[x] == if p(x) then multiset(s)[x] else 0
  {
    if |s| > 0 {
      assert s == [s[0]] + s[1..];
      FilterCount(s[1..], p, x);
    }
  }

  /** Membership after filtering. */
  lemma FilterMember<T>(s: seq<T>, p: T -> bool, x: T)
    ensures x in Filter(s, p) <==> x in s && p(x)
  {
    FilterCount(s, p, x);
    assert x in Filter(s, p) <==> multiset(Filter(s, p))[x] > 0;
    assert x in s <==> multiset(s)[x] > 0;
  }

  /** `a` is `b` with some elements left out, the rest in their order. */
  predicate Subsequence<T(==)>(a: seq<T>, b: seq<T>)
    decreases |b|
  {
    if |a| == 0 then true
    else if |b| == 0 then false
    else if a[0] == b[0] then Subsequence(a[1..], b[1..])
    else Subsequence(a, b[1..])
  }

  /** The filter keeps the elements it keeps in their original order. */
  lemma {:induction false} FilterSubsequence<T>(s: seq<T>, p: T -> bool)
    ensures Subsequence(Filter(s, p), s)
  {
    if |s| > 0 {
      FilterSubsequence(s[1..], p);
      if !p(s[0]) {
        var a := Filter(s[1..], p);
        if |a| > 0 {
          FilterMember(s[1..], p, a[0]);
        }
      }
    }
  }

  /** Filtering twice is filtering once by both tests. */
  lemma {:induction false} FilterCompose<T>(s: seq<T>, p: T -> bool, q: T -> bool, r: T -> bool)
    requires forall x :: r(x) == (p(x) && q(x))
    ensures Filter(Filter(s, p), q) == Filter(s, r)
  {
    if |s| > 0 {
      FilterCompose(s[1..], p, q, r);
      if p(s[0]) {
        assert Filter(s, p) == [s[0]] + Filter(s[1..], p);
        assert ([s[0]] + Filter(s[1..], p))[1..] == Filter(s[1..], p);
      }
    }
  }

  /** Two tests that agree everywhere filter alike. */
  lemma {:induction false} FilterSame<T>(s: seq<T>, p: T -> bool, q: T -> bool)
    requires forall x :: p(x) == q(x)
    ensures Filter(s, p) == Filter(s, q)
  {
    if |s| > 0 {
      FilterSame(s[1..], p, q);
    }
  }

  /** Filtering with a predicate every element meets changes nothing. */
  lemma {:induction false} FilterAll<T>(s: seq<T>, p: T -> bool)
    requires forall i :: 0 <= i < |s| ==> p(s[i])
    ensures Filter(s, p) == s
  {
    if |s| > 0 {
      FilterAll(s[1..], p);
      assert s == [s[0]] + s[1..];
    }
  }
}
