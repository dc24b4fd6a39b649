/** Subsequences: what survives when some elements of a list are lost but none are reordered. */
module Seqs {

  /** a can be obtained from b by deleting elements of b. */
  ghost predicate Subseq<T>(a: seq<T>, b: seq<T>) {
    Embeds(a, b)
  }

  /** The definition by cases on the last element of b: it is matched or deleted. */
  ghost predicate Embeds<T>(a: seq<T>, b: seq<T>)
    decreases |b|
  {
    a == [] ||
    (b != [] &&
     ((a[|a| - 1] == b[|b| - 1] && Embeds(a[..|a| - 1], b[..|b| - 1])) || Embeds(a, b[..|b| - 1])))
  }

  lemma {:induction false} SubseqRefl<T>(a: seq<T>)
    ensures Subseq(a, a)
    decreases |a|
  {
    if a != [] {
      SubseqRefl(a[..|a| - 1]);
    }
  }

  lemma {:induction false} SubseqTrans<T>(a: seq<T>, b: seq<T>, c: seq<T>)
    requires Subseq(a, b) && Subseq(b, c)
    ensures Subseq(a, c)
    decreases |c|
  {
    if a != [] {
      var b', c' := b[..|b| - 1], c[..|c| - 1];
      if Subseq(b, c') {
        SubseqTrans(a, b, c');
      } else if Subseq(a, b') {
        SubseqTrans(a, b', c');
      } else {
        SubseqTrans(a[..|a| - 1], b', c');
      }
    }
  }

  lemma {:induction false} SubseqConcat<T>(a: seq<T>, b: seq<T>, c: seq<T>, d: seq<T>)
    requires Subseq(a, b) && Subseq(c, d)
    ensures Subseq(a + c, b + d)
    decreases |d|
  {
    if d == [] {
      assert a + c == a && b + d == b;
    } else {
      var d' := d[..|d| - 1];
      assert (b + d)[..|b + d| - 1] == b + d';
      if c == [] || Subseq(c, d') {
        SubseqConcat(a, b, c, d');
      } else {
        SubseqConcat(a, b, c[..|c| - 1], d');
        assert (a + c)[..|a + c| - 1] == a + c[..|c| - 1];
      }
    }
  }

  /** Growing the longer list, or growing both by the same suffix, keeps the relation. */
  lemma SubseqGrow<T>(a: seq<T>, b: seq<T>, c: seq<T>)
    requires Subseq(a, b)
    ensures Subseq(a, b + c) && Subseq(a + c, b + c)
  {
    SubseqConcat(a, b, [], c);
    assert a + [] == a;
    SubseqRefl(c);
    SubseqConcat(a, b, c, c);
  }

  lemma PrefixIsSubseq<T>(a: seq<T>, b: seq<T>)
    requires a <= b
    ensures Subseq(a, b)
  {
    SubseqRefl(a);
    SubseqGrow(a, a, b[|a|..]);
    assert b == a + b[|a|..];
  }

  /** A subsequence is no longer than the whole, and is the whole when as long. */
  lemma {:induction false} SubseqLength<T>(a: seq<T>, b: seq<T>)
    requires Subseq(a, b)
    ensures |a| <= |b| && (|a| == |b| ==> a == b)
    decreases |b|
  {
    if a != [] {
      var a', b' := a[..|a| - 1], b[..|b| - 1];
      if a[|a| - 1] == b[|b| - 1] && Embeds(a', b') {
        SubseqLength(a', b');
        assert a == a' + [a[|a| - 1]] && b == b' + [b[|b| - 1]];
      } else {
        SubseqLength(a, b');
      }
    }
  }

  lemma {:induction false} SubseqMembers<T>(a: seq<T>, b: seq<T>)
    requires Subseq(a, b)
    ensures forall x <- a :: x in b
    decreases |b|
  {
    if a != [] {
      var a', b' := a[..|a| - 1], b[..|b| - 1];
      if a[|a| - 1] == b[|b| - 1] && Embeds(a', b') {
        SubseqMembers(a', b');
        assert a == a' + [a[|a| - 1]];
      } else {
        SubseqMembers(a, b');
      }
    }
  }
}
