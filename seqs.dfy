/** Sequence helpers shared by the models: order-preserving selection and
    concatenation of a sequence of sequences. */
module Seqs {

  /** `a` is `b` with some elements left out, the rest in their original order. */
  predicate Subseq<T(==)>(a: seq<T>, b: seq<T>)
    decreases |b|
  {
    if a == [] then true
    else if b == [] then false
    else if a[0] == b[0] then Subseq(a[1..], b[1..])
    else Subseq(a, b[1..])
  }

  /** Every element of a subsequence comes from the sequence it was taken from. */
  lemma {:induction false} SubseqMembers<T>(a: seq<T>, b: seq<T>)
    requires Subseq(a, b)
    ensures forall x :: x in a ==> x in b
    decreases |b|
  {
    if a != [] {
      if a[0] == b[0] {
        SubseqMembers(a[1..], b[1..]);
        assert forall x :: x in a ==> x == a[0] || x in a[1..];
      } else {
        SubseqMembers(a, b[1..]);
      }
    }
  }

  /** Appending one element to the larger sequence, and optionally to the
      smaller one, keeps a subsequence a subsequence. */
  lemma {:induction false} SubseqSnoc<T>(a: seq<T>, b: seq<T>, x: T, keep: bool)
    requires Subseq(a, b)
    ensures Subseq(a + (if keep then [x] else []), b + [x])
    decreases |b|
  {
    var a' := a + (if keep then [x] else []);
    if a == [] {
      if keep {
        assert a' == [x];
        SubseqSingleton(x, b);
      }
    } else {
      assert a'[0] == a[0] && a'[1..] == a[1..] + (if keep then [x] else []);
      assert (b + [x])[0] == b[0] && (b + [x])[1..] == b[1..] + [x];
      if a[0] == b[0] {
        SubseqSnoc(a[1..], b[1..], x, keep);
      } else {
        SubseqSnoc(a, b[1..], x, keep);
      }
    }
  }

  lemma {:induction false} SubseqSingleton<T>(x: T, b: seq<T>)
    ensures Subseq([x], b + [x])
    decreases |b|
  {
    if b != [] {
      assert (b + [x])[1..] == b[1..] + [x];
      SubseqSingleton(x, b[1..]);
    }
  }

  /** `[].concat(...xss)` */
  function Flatten<T>(xss: seq<seq<T>>): seq<T> {
    if xss == [] then [] else xss[0] + Flatten(xss[1..])
  }

  /** The sum of the lengths of the parts. */
  function TotalLength<T>(xss: seq<seq<T>>): nat {
    if xss == [] then 0 else |xss[0]| + TotalLength(xss[1..])
  }

  /** Taking a sequence `a + [x] + r` apart again around `x`. */
  lemma SpliceMiddle<T>(a: seq<T>, x: T, r: seq<T>)
    ensures var s := a + [x] + r;
      && |s| == |a| + 1 + |r| && s[|a|] == x
      && s[..|a|] == a && s[|a| + 1..] == r && s == a + ([x] + r)
  {
    var s := a + [x] + r;
    assert s[..|a|] == a;
    assert s[|a| + 1..] == r;
  }

  /** Adding a part at the end adds its length. */
  lemma {:induction false} TotalLengthSnoc<T>(xss: seq<seq<T>>, xs: seq<T>)
    ensures TotalLength(xss + [xs]) == TotalLength(xss) + |xs|
    decreases |xss|
  {
    if xss == [] {
      assert [] + [xs] == [xs];
      assert [xs][1..] == [];
    } else {
      assert (xss + [xs])[1..] == xss[1..] + [xs];
      TotalLengthSnoc(xss[1..], xs);
    }
  }

  lemma {:induction false} FlattenLength<T>(xss: seq<seq<T>>)
    ensures |Flatten(xss)| == TotalLength(xss)
    decreases |xss|
  {
    if xss != [] {
      FlattenLength(xss[1..]);
    }
  }
}
