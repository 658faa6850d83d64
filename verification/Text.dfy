/**
 * The Python string operations the two index scripts rely on, over `string`
 * (a sequence of Unicode scalar values): `str.strip`, `in` on strings,
 * `str.startswith`, `str.lower`, `str.replace`, `str.join` and `str(n)`.
 */
module Text {

  /** `c.isspace()`: exactly the characters `str.strip()` removes when given no argument. */
  predicate IsSpace(c: char)
  {
    ('\U{9}' <= c <= '\U{D}') || ('\U{1C}' <= c <= '\U{20}') || c == '\U{85}' || c == '\U{A0}'
    || c == '\U{1680}' || ('\U{2000}' <= c <= '\U{200A}') || c == '\U{2028}' || c == '\U{2029}'
    || c == '\U{202F}' || c == '\U{205F}' || c == '\U{3000}'
  }

  /** How many leading characters of `s` are accepted by `drop`. */
  function LeadingCount(s: string, drop: char -> bool): (k: nat)
    ensures k <= |s|
    ensures forall m :: 0 <= m < k ==> drop(s[m])
    ensures k < |s| ==> !drop(s[k])
  {
    if |s| > 0 && drop(s[0]) then 1 + LeadingCount(s[1..], drop) else 0
  }

  /** Where the run of trailing characters of `s` accepted by `drop` starts. */
  function TrailingStart(s: string, drop: char -> bool): (j: nat)
    ensures j <= |s|
    ensures forall m :: j <= m < |s| ==> drop(s[m])
    ensures 0 < j ==> !drop(s[j - 1])
  {
    if |s| > 0 && drop(s[|s| - 1]) then TrailingStart(s[..|s| - 1], drop) else |s|
  }

  /** `s.strip(chars)` where `drop` tells which characters belong to `chars`. */
  function StripBy(s: string, drop: char -> bool): (r: string)
    ensures |r| > 0 ==> !drop(r[0]) && !drop(r[|r| - 1])
    ensures r == [] <==> forall m :: 0 <= m < |s| ==> drop(s[m])
  {
    var t := s[LeadingCount(s, drop)..];
    t[..TrailingStart(t, drop)]
  }

  /** The stripped text is what is left of `s` once its leading and its trailing run of dropped characters are cut off. */
  lemma StripByCutsRuns(s: string, drop: char -> bool)
    ensures var a, r := LeadingCount(s, drop), StripBy(s, drop);
      a + |r| <= |s| && r == s[a..a + |r|] && forall m :: a + |r| <= m < |s| ==> drop(s[m])
  {
    var a := LeadingCount(s, drop);
    var t := s[a..];
    var j := TrailingStart(t, drop);
    assert StripBy(s, drop) == t[..j];
    assert t[..j] == s[a..a + j];
    forall m | a + j <= m < |s|
      ensures drop(s[m])
    {
      assert s[m] == t[m - a];
    }
  }

  /** `s.strip()`. */
  function Strip(s: string): (r: string)
    ensures Trimmed(r) && |r| <= |s|
  {
    StripBy(s, IsSpace)
  }

  /** `s.strip(c * 3)`: strips one quote character from both ends, repeatedly. */
  function StripChar(s: string, c: char): string
  {
    StripBy(s, x => x == c)
  }

  /** A string without leading or trailing whitespace. */
  predicate Trimmed(s: string)
  {
    |s| > 0 ==> !IsSpace(s[0]) && !IsSpace(s[|s| - 1])
  }

  /** `pat` occurs in `s` starting at index `i`. */
  predicate OccursAt(s: string, pat: string, i: int)
  {
    0 <= i && i + |pat| <= |s| && s[i..i + |pat|] == pat
  }

  /** `pat in s` on strings: `pat` occurs in `s` as a contiguous run. */
  predicate Contains(s: string, pat: string)
  {
    exists i :: 0 <= i <= |s| - |pat| && OccursAt(s, pat, i)
  }

  /** `s.startswith(prefix)`. */
  predicate StartsWith(s: string, prefix: string)
  {
    |prefix| <= |s| && s[..|prefix|] == prefix
  }

  /** ASCII `c.lower()`. */
  function LowerChar(c: char): char
  {
    if 'A' <= c <= 'Z' then (c as int - 'A' as int + 'a' as int) as char else c
  }

  /** `s.lower()`, restricted to the ASCII letters. */
  function Lower(s: string): (r: string)
    ensures |r| == |s|
  {
    seq(|s|, i requires 0 <= i < |s| => LowerChar(s[i]))
  }

  /** `s.replace(c, t)` for a one-character `c`. */
  function ReplaceChar(s: string, c: char, t: string): (r: string)
    ensures c !in t ==> c !in r
  {
    if s == [] then []
    else (if s[0] == c then t else [s[0]]) + ReplaceChar(s[1..], c, t)
  }

  /** A character that is neither replaced nor inserted occurs after the replacement exactly when it did before. */
  lemma {:induction false} ReplaceKeeps(s: string, c: char, t: string, x: char)
    requires x != c && x !in t
    ensures x in ReplaceChar(s, c, t) <==> x in s
  {
    if s != [] {
      assert s == [s[0]] + s[1..];
      ReplaceKeeps(s[1..], c, t, x);
    }
  }

  /** Lower-casing changes exactly the upper-case ASCII letters, each into the matching lower-case one. */
  lemma LowerChangesOnlyUpper(s: string, i: nat)
    requires i < |s|
    ensures !('A' <= Lower(s)[i] <= 'Z')
    ensures Lower(s)[i] == s[i] <==> !('A' <= s[i] <= 'Z')
    ensures 'A' <= s[i] <= 'Z' ==> Lower(s)[i] as int == s[i] as int + 32
  {
  }

  /** Replacing a character that does not occur changes nothing. */
  lemma {:induction false} ReplaceAbsent(s: string, c: char, t: string)
    requires c !in s
    ensures ReplaceChar(s, c, t) == s
  {
    if s != [] {
      assert c !in s[1..];
      ReplaceAbsent(s[1..], c, t);
    }
  }

  /** `sep.join(parts)`. */
  function Join(parts: seq<string>, sep: string): string
  {
    if |parts| == 0 then ""
    else if |parts| == 1 then parts[0]
    else parts[0] + sep + Join(parts[1..], sep)
  }

  /** Joining one more part appends the separator and that part. */
  lemma {:induction false} JoinSnoc(parts: seq<string>, x: string, sep: string)
    requires |parts| > 0
    ensures Join(parts + [x], sep) == Join(parts, sep) + sep + x
  {
    if |parts| > 1 {
      assert (parts + [x])[1..] == parts[1..] + [x];
      JoinSnoc(parts[1..], x, sep);
    } else {
      assert (parts + [x])[1..] == [x];
    }
  }

  function DigitChar(d: nat): char
    requires d < 10
  {
    ('0' as int + d) as char
  }

  /** `str(n)` for a count: its decimal digits, without leading zeros. */
  function NatToString(n: nat): (r: string)
    ensures |r| > 0
    ensures forall i :: 0 <= i < |r| ==> '0' <= r[i] <= '9'
  {
    if n < 10 then [DigitChar(n)] else NatToString(n / 10) + [DigitChar(n % 10)]
  }

  /** `int(s)` for a string of decimal digits. */
  function ParseNat(s: string): nat
    requires forall i :: 0 <= i < |s| ==> '0' <= s[i] <= '9'
  {
    if s == [] then 0 else 10 * ParseNat(s[..|s| - 1]) + (s[|s| - 1] as int - '0' as int)
  }

  /** The decimal text of a count reads back as that count. */
  lemma {:induction false} ParseNatToString(n: nat)
    ensures ParseNat(NatToString(n)) == n
  {
    var r := NatToString(n);
    if n >= 10 {
      assert r[..|r| - 1] == NatToString(n / 10);
      ParseNatToString(n / 10);
    }
  }
}
