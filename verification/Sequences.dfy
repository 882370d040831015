/** Small facts about sequences and multisets that several modules need. */
module Sequences {

  /** The numbers lo, lo + 1, ..., hi - 1. */
  function Range(lo: nat, hi: nat): (r: seq<nat>)
    requires lo <= hi
    ensures |r| == hi - lo
    ensures forall i :: 0 <= i < |r| ==> r[i] == lo + i
  {
    seq(hi - lo, i requires 0 <= i < hi - lo => lo + i)
  }

  /** A sequence without its element at position i. */
  function Without<T>(s: seq<T>, i: nat): (r: seq<T>)
    requires i < |s|
    ensures |r| == |s| - 1
    ensures multiset(s) == multiset(r) + multiset{s[i]}
  {
    assert s == s[..i] + [s[i]] + s[i + 1..];
    s[..i] + s[i + 1..]
  }

  lemma RangeSplit(lo: nat, mid: nat, hi: nat)
    requires lo <= mid <= hi
    ensures Range(lo, hi) == Range(lo, mid) + Range(mid, hi)
  {
  }

  lemma RangeMembers(lo: nat, hi: nat, x: nat)
    requires lo <= hi
    ensures x in multiset(Range(lo, hi)) <==> lo <= x < hi
    ensures multiset(Range(lo, hi))[x] <= 1
    decreases hi - lo
  {
    if lo < hi {
      RangeMembers(lo, hi - 1, x);
      RangeSplit(lo, hi - 1, hi);
      assert Range(hi - 1, hi) == [hi - 1];
    }
  }

  lemma SplitMultiset<T>(s: seq<T>, i: nat)
    requires i <= |s|
    ensures multiset(s) == multiset(s[..i]) + multiset(s[i..])
  {
    assert s == s[..i] + s[i..];
  }

  /** The images of the elements of a sequence. */
  function Image<A, B>(f: A -> B, s: seq<A>): (r: seq<B>)
    ensures |r| == |s|
    ensures forall i :: 0 <= i < |r| ==> r[i] == f(s[i])
  {
    seq(|s|, i requires 0 <= i < |s| => f(s[i]))
  }

  /** Taking one element out of a sequence takes its image out of the image. */
  lemma ImageWithout<A, B>(f: A -> B, s: seq<A>, i: nat)
    requires i < |s|
    ensures multiset(Image(f, s)) == multiset(Image(f, Without(s, i))) + multiset{f(s[i])}
  {
    assert Image(f, Without(s, i)) == Without(Image(f, s), i);
  }

  /** Permuting a sequence permutes its image. */
  lemma {:induction false} PermutedImage<A, B>(f: A -> B, a: seq<A>, b: seq<A>)
    requires multiset(a) == multiset(b)
    ensures multiset(Image(f, a)) == multiset(Image(f, b))
    decreases |a|
  {
    if a == [] {
      assert |multiset(b)| == 0;
    } else {
      assert a[0] in multiset(b);
      var i :| 0 <= i < |b| && b[i] == a[0];
      var a', b' := Without(a, 0), Without(b, i);
      assert multiset(a') == multiset(a) - multiset{a[0]} == multiset(b');
      PermutedImage(f, a', b');
      ImageWithout(f, a, 0);
      ImageWithout(f, b, i);
    }
  }

  lemma AddThenSubtract<T>(a: seq<T>, b: seq<T>, x: T)
    requires multiset(b) <= multiset(a)
    ensures multiset(a + [x]) - multiset(b) == multiset(a) - multiset(b) + multiset{x}
  {
  }

  lemma SubtractOneMore<T>(a: seq<T>, b: seq<T>, x: T)
    ensures multiset(a) - multiset(b + [x]) == multiset(a) - multiset(b) - multiset{x}
  {
  }

  lemma CountFirst<T>(x: T, s: seq<T>, e: T)
    ensures multiset([x] + s)[e] == (if x == e then 1 else 0) + multiset(s)[e]
  {
  }
}
