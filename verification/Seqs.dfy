/**
 * Building a list by appending to it: `[f(x) for x in xs]` written as a loop
 * of `append`s, and where the pieces of a concatenation stand.
 */
module Seqs {

  /** `[f(x) for x in s]`. */
  function MapSeq<T, U>(f: T -> U, s: seq<T>): (r: seq<U>)
    ensures |r| == |s|
  {
    seq(|s|, k requires 0 <= k < |s| => f(s[k]))
  }

  /** The `k`-th mapped element is `f` of the `k`-th element. */
  lemma MapSeqAt<T, U>(f: T -> U, s: seq<T>, k: nat)
    requires k < |s|
    ensures MapSeq(f, s)[k] == f(s[k])
  {
  }

  /** Appending `f` of the next element extends the mapped prefix by one. */
  lemma MapSnoc<T, U>(head: seq<U>, f: T -> U, s: seq<T>, k: nat)
    requires k < |s|
    ensures head + MapSeq(f, s[..k]) + [f(s[k])] == head + MapSeq(f, s[..k + 1])
  {
    var a, b := MapSeq(f, s[..k + 1]), MapSeq(f, s[..k]) + [f(s[k])];
    assert a == b;
  }

  lemma Assoc3<T>(a: seq<T>, b: seq<T>, c: seq<T>, d: seq<T>)
    ensures a + b + c + d == a + (b + c + d)
  {
  }

  /** Where each of five concatenated pieces stands. */
  lemma Slices5<T>(a: seq<T>, b: seq<T>, c: seq<T>, d: seq<T>, e: seq<T>)
    ensures (a + b + c + d + e)[..|a|] == a
    ensures (a + b + c + d + e)[|a|..|a| + |b|] == b
    ensures (a + b + c + d + e)[|a| + |b|..|a| + |b| + |c|] == c
    ensures (a + b + c + d + e)[|a| + |b| + |c|..|a| + |b| + |c| + |d|] == d
    ensures (a + b + c + d + e)[|a| + |b| + |c| + |d|..] == e
  {
    var L := a + b + c + d + e;
    assert L == a + (b + (c + (d + e)));
  }

  /** The `k`-th element of the middle piece of a concatenation. */
  lemma MiddleAt<T>(a: seq<T>, b: seq<T>, c: seq<T>, k: nat)
    requires k < |b|
    ensures |a| + k < |a + b + c| && (a + b + c)[|a| + k] == b[k]
  {
  }

  /** Moving the brackets of a five-piece concatenation around its middle piece. */
  lemma Regroup<T>(a: seq<T>, b: seq<T>, c: seq<T>, d: seq<T>, e: seq<T>)
    ensures a + (b + c + d) + e == (a + b) + c + (d + e)
  {
  }

  /** The middle piece of a concatenation, and what stands around it. */
  lemma MiddleSlice<T>(a: seq<T>, b: seq<T>, c: seq<T>)
    ensures var L := a + b + c;
      && L[|a|..|a| + |b|] == b
      && (forall k :: 0 <= k < |a| ==> L[k] == a[k])
      && (forall k :: 0 <= k < |c| ==> L[|a| + |b| + k] == c[k])
  {
  }

  /** An element of a prefix is the element of the whole sequence. */
  lemma PrefixAt<T>(L: seq<T>, F: seq<T>, k: nat)
    requires |F| <= |L| && L[..|F|] == F && k < |F|
    ensures L[k] == F[k]
  {
    assert L[..|F|][k] == L[k];
  }

  /** A piece of a sequence that stands at a known place in a longer one. */
  lemma SliceOfPrefix<T>(L: seq<T>, off: nat, all: seq<T>, before: seq<T>, piece: seq<T>)
    requires off + |all| <= |L| && L[off..off + |all|] == all && before + piece <= all
    ensures off + |before| + |piece| <= |L|
    ensures L[off + |before|..off + |before| + |piece|] == piece
  {
    forall k | 0 <= k < |piece|
      ensures L[off + |before| + k] == piece[k]
    {
      assert L[off + |before| + k] == all[|before| + k] == (before + piece)[|before| + k];
    }
  }

  /** The pieces `f(x)` for `x` in `s`, one after the other: the lines a loop over `s` appends. */
  function FlatMap<T, U>(f: T -> seq<U>, s: seq<T>): seq<U>
  {
    if s == [] then [] else FlatMap(f, s[..|s| - 1]) + f(s[|s| - 1])
  }

  /** Appending the piece of the next element extends the pieces of the prefix. */
  lemma FlatMapSnoc<T, U>(head: seq<U>, f: T -> seq<U>, s: seq<T>, i: nat)
    requires i < |s|
    ensures head + FlatMap(f, s[..i]) + f(s[i]) == head + FlatMap(f, s[..i + 1])
  {
    assert s[..i + 1][..i] == s[..i];
    assert head + FlatMap(f, s[..i]) + f(s[i]) == head + (FlatMap(f, s[..i]) + f(s[i]));
  }

  lemma {:induction false} FlatMapPrefix<T, U>(f: T -> seq<U>, s: seq<T>, j: nat)
    requires j <= |s|
    ensures FlatMap(f, s[..j]) <= FlatMap(f, s)
  {
    if j < |s| {
      var init := s[..|s| - 1];
      assert init[..j] == s[..j];
      FlatMapPrefix(f, init, j);
    } else {
      assert s[..j] == s;
    }
  }

  /** Where the piece of the `i`-th element stands, when the pieces stand at `off` in `L`. */
  lemma FlatMapAt<T, U>(L: seq<U>, off: nat, f: T -> seq<U>, s: seq<T>, i: nat)
    requires i < |s| && off + |FlatMap(f, s)| <= |L| && L[off..off + |FlatMap(f, s)|] == FlatMap(f, s)
    ensures |FlatMap(f, s[..i + 1])| == |FlatMap(f, s[..i])| + |f(s[i])|
    ensures off + |FlatMap(f, s[..i + 1])| <= |L|
    ensures L[off + |FlatMap(f, s[..i])|..off + |FlatMap(f, s[..i + 1])|] == f(s[i])
  {
    var before, piece := FlatMap(f, s[..i]), f(s[i]);
    FlatMapSnoc([], f, s, i);
    assert [] + before + piece == before + piece;
    FlatMapPrefix(f, s, i + 1);
    SliceOfPrefix(L, off, FlatMap(f, s), before, piece);
  }
}
