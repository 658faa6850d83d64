/**
 * Python's comparison of sequences (strings compare by code point, lists
 * element by element) and the stable sort behind `list.sort()` and
 * `sorted(..., key=...)`, for any strict order given as a function.
 */
module Order {

  /** `lt` is a strict order: irreflexive and transitive. */
  ghost predicate StrictOrder<T(!new)>(lt: (T, T) -> bool)
  {
    && (forall a :: !lt(a, a))
    && (forall a, b, c :: lt(a, b) && lt(b, c) ==> lt(a, c))
  }

  /** Any two distinct values are ordered one way or the other by `lt`. */
  ghost predicate Trichotomous<T(!new)>(lt: (T, T) -> bool)
  {
    forall a, b :: a == b || lt(a, b) || lt(b, a)
  }

  /** Python's `a < b` on two sequences whose elements compare by `lt`. */
  function LexLt<T(==)>(a: seq<T>, b: seq<T>, lt: (T, T) -> bool): bool
  {
    if |a| == 0 then |b| > 0
    else if |b| == 0 then false
    else lt(a[0], b[0]) || (a[0] == b[0] && LexLt(a[1..], b[1..], lt))
  }

  lemma {:induction false} LexIrreflexive<T(!new)>(a: seq<T>, lt: (T, T) -> bool)
    requires StrictOrder(lt)
    ensures !LexLt(a, a, lt)
  {
    if |a| > 0 {
      LexIrreflexive(a[1..], lt);
    }
  }

  lemma {:induction false} LexTransitive<T(!new)>(a: seq<T>, b: seq<T>, c: seq<T>, lt: (T, T) -> bool)
    requires StrictOrder(lt)
    requires LexLt(a, b, lt) && LexLt(b, c, lt)
    ensures LexLt(a, c, lt)
  {
    if |a| > 0 && a[0] == b[0] && b[0] == c[0] {
      LexTransitive(a[1..], b[1..], c[1..], lt);
    }
  }

  lemma {:induction false} LexTrichotomous<T(!new)>(a: seq<T>, b: seq<T>, lt: (T, T) -> bool)
    requires Trichotomous(lt)
    ensures a == b || LexLt(a, b, lt) || LexLt(b, a, lt)
  {
    if |a| > 0 && |b| > 0 && a[0] == b[0] {
      LexTrichotomous(a[1..], b[1..], lt);
      assert a == [a[0]] + a[1..] && b == [b[0]] + b[1..];
    }
  }

  /** Code-point order on characters, as Python compares one-character strings. */
  function CharLt(x: char, y: char): bool
  {
    x < y
  }

  /** Python's `a < b` on strings. */
  function StrLt(a: string, b: string): bool
  {
    LexLt(a, b, CharLt)
  }

  /** Python's `a <= b` on strings. */
  predicate StrLe(a: string, b: string)
  {
    a == b || StrLt(a, b)
  }

  /** String comparison is a strict total order. */
  lemma StrLtIsStrictTotal()
    ensures StrictOrder(StrLt) && Trichotomous(StrLt)
  {
    assert StrictOrder(CharLt) && Trichotomous(CharLt);
    forall a: string
      ensures !StrLt(a, a)
    {
      LexIrreflexive(a, CharLt);
    }
    forall a: string, b: string, c: string | StrLt(a, b) && StrLt(b, c)
      ensures StrLt(a, c)
    {
      LexTransitive(a, b, c, CharLt);
    }
    forall a: string, b: string
      ensures a == b || StrLt(a, b) || StrLt(b, a)
    {
      LexTrichotomous(a, b, CharLt);
    }
  }

  /** No element of `s` is strictly below an element placed before it. */
  ghost predicate NoInversions<T>(s: seq<T>, lt: (T, T) -> bool)
  {
    forall i, j :: 0 <= i < j < |s| ==> !lt(s[j], s[i])
  }

  /** Puts `x` in front of the first element it is strictly below, so after every element it ties with. */
  function Insert<T>(x: T, s: seq<T>, lt: (T, T) -> bool): (r: seq<T>)
    ensures |r| == |s| + 1
  {
    if s == [] || lt(x, s[0]) then [x] + s
    else
      assert s == [s[0]] + s[1..];
      [s[0]] + Insert(x, s[1..], lt)
  }

  /**
   * The stable sort: each element in turn is inserted into the sorted prefix,
   * so elements that tie keep their input order, as in Python's sort.
   */
  function SortBy<T>(s: seq<T>, lt: (T, T) -> bool): (r: seq<T>)
    ensures |r| == |s|
  {
    if s == [] then []
    else
      assert s == s[..|s| - 1] + [s[|s| - 1]];
      Insert(s[|s| - 1], SortBy(s[..|s| - 1], lt), lt)
  }

  /** Inserting adds `x` and loses nothing. */
  lemma {:induction false} InsertPermutes<T>(x: T, s: seq<T>, lt: (T, T) -> bool)
    ensures multiset(Insert(x, s, lt)) == multiset(s) + multiset{x}
  {
    if s == [] || lt(x, s[0]) {
    } else {
      assert s == [s[0]] + s[1..];
      InsertPermutes(x, s[1..], lt);
    }
  }

  /** The sorted sequence is a permutation of its input. */
  lemma {:induction false} SortByPermutes<T>(s: seq<T>, lt: (T, T) -> bool)
    ensures multiset(SortBy(s, lt)) == multiset(s)
  {
    if s != [] {
      var init := s[..|s| - 1];
      assert s == init + [s[|s| - 1]];
      SortByPermutes(init, lt);
      InsertPermutes(s[|s| - 1], SortBy(init, lt), lt);
    }
  }

  lemma {:induction false} InsertNoInversions<T(!new)>(x: T, s: seq<T>, lt: (T, T) -> bool)
    requires StrictOrder(lt) && NoInversions(s, lt)
    ensures NoInversions(Insert(x, s, lt), lt)
  {
    if s == [] {
    } else if lt(x, s[0]) {
      // an element below x would be below s[0], which the sorted s rules out
    } else {
      var rest := Insert(x, s[1..], lt);
      assert NoInversions(s[1..], lt);
      InsertNoInversions(x, s[1..], lt);
      InsertPermutes(x, s[1..], lt);
      forall k | 0 <= k < |rest|
        ensures !lt(rest[k], s[0])
      {
        assert rest[k] in multiset(rest);
        if rest[k] != x {
          assert rest[k] in multiset(s[1..]);
          var m :| 0 <= m < |s[1..]| && s[1..][m] == rest[k];
          assert s[m + 1] == rest[k];
        }
      }
    }
  }

  /** Under a strict order, the sorted sequence has no inversions. */
  lemma {:induction false} SortByNoInversions<T(!new)>(s: seq<T>, lt: (T, T) -> bool)
    requires StrictOrder(lt)
    ensures NoInversions(SortBy(s, lt), lt)
  {
    if s != [] {
      SortByNoInversions(s[..|s| - 1], lt);
      InsertNoInversions(s[|s| - 1], SortBy(s[..|s| - 1], lt), lt);
    }
  }
}
