/** String helpers the services rely on from the .NET base library:
    ordinal substring search, invariant lower-casing of ASCII letters,
    `string.Join`, splitting at a separator character, white-space
    classification and decimal rendering of integers. */
module Text {

  /** `char.ToLowerInvariant` restricted to ASCII letters; every other
      character is left as it is. */
  function LowerChar(c: char): char {
    if 'A' <= c <= 'Z' then (c as int + 32) as char else c
  }

  function Lower(s: string): (r: string)
    ensures |r| == |s|
    ensures forall i :: 0 <= i < |s| ==> r[i] == LowerChar(s[i])
  {
    if |s| == 0 then "" else [LowerChar(s[0])] + Lower(s[1..])
  }

  /** `p` occurs in `s` starting at index `i`. */
  predicate OccursAt(s: string, p: string, i: int) {
    0 <= i && i + |p| <= |s| && s[i..i + |p|] == p
  }

  /** The specification of ordinal `string.Contains`. */
  ghost predicate Occurs(s: string, p: string) {
    exists i :: OccursAt(s, p, i)
  }

  /** Ordinal `string.Contains`, computed by trying every start position. */
  function Contains(s: string, p: string): bool
    decreases |s|
  {
    if |p| > |s| then false
    else if s[..|p|] == p then true
    else Contains(s[1..], p)
  }

  lemma {:induction false} ContainsMeansOccurs(s: string, p: string)
    ensures Contains(s, p) <==> Occurs(s, p)
    decreases |s|
  {
    if |p| > |s| {
      forall i ensures !OccursAt(s, p, i) {}
    } else if s[..|p|] == p {
      assert OccursAt(s, p, 0);
    } else {
      ContainsMeansOccurs(s[1..], p);
      if Occurs(s[1..], p) {
        var i :| OccursAt(s[1..], p, i);
        SliceOfSuffix(s, i, i + |p|);
        assert OccursAt(s, p, i + 1);
      }
      if Occurs(s, p) {
        var i :| OccursAt(s, p, i);
        assert i != 0;
        SliceOfSuffix(s, i - 1, i - 1 + |p|);
        assert OccursAt(s[1..], p, i - 1);
      }
    }
  }

  lemma SliceOfSuffix(s: string, i: int, j: int)
    requires 0 <= i <= j < |s|
    ensures s[1..][i..j] == s[i + 1..j + 1]
  {
    var x := s[1..][i..j];
    var y := s[i + 1..j + 1];
    forall k | 0 <= k < |x| ensures x[k] == y[k] {}
  }

  predicate StartsWith(s: string, p: string) {
    |p| <= |s| && s[..|p|] == p
  }

  predicate IsDigit(c: char) { '0' <= c <= '9' }

  /** `char.IsWhiteSpace`: the Unicode space separators and the line,
      paragraph and control characters .NET counts as white space. */
  predicate IsWhiteSpace(c: char) {
    var n := c as int;
    n == 0x20 || (0x09 <= n <= 0x0D) || n == 0x85 || n == 0xA0 || n == 0x1680
    || (0x2000 <= n <= 0x200A) || n == 0x2028 || n == 0x2029 || n == 0x202F
    || n == 0x205F || n == 0x3000
  }

  /** `string.IsNullOrWhiteSpace` for a non-null string. */
  predicate IsBlank(s: string) {
    forall i :: 0 <= i < |s| ==> IsWhiteSpace(s[i])
  }

  /** `string.Join(sep, parts)`. */
  function Join(sep: string, parts: seq<string>): string
    decreases |parts|
  {
    if |parts| == 0 then ""
    else if |parts| == 1 then parts[0]
    else parts[0] + sep + Join(sep, parts[1..])
  }

  /** Joining a part in front of a non-empty list adds it and one separator. */
  lemma JoinInFront(sep: string, first: string, rest: seq<string>)
    requires rest != []
    ensures Join(sep, [first] + rest) == first + sep + Join(sep, rest)
  {
    assert ([first] + rest)[1..] == rest;
  }

  /** Splitting at every occurrence of `c`; the inverse of joining with `c`. */
  function Split(s: string, c: char): (r: seq<string>)
    ensures |r| >= 1
    decreases |s|
  {
    if |s| == 0 then [""]
    else
      var rest := Split(s[1..], c);
      if s[0] == c then [""] + rest
      else [[s[0]] + rest[0]] + rest[1..]
  }

  lemma {:induction false} SplitAfterPlainPrefix(p: string, s: string, c: char)
    requires c !in p
    ensures Split(p + s, c) == [p + Split(s, c)[0]] + Split(s, c)[1..]
    decreases |p|
  {
    if |p| > 0 {
      assert (p + s)[1..] == p[1..] + s;
      assert (p + s)[0] == p[0];
      SplitAfterPlainPrefix(p[1..], s, c);
      assert [p[0]] + (p[1..] + Split(s, c)[0]) == p + Split(s, c)[0];
    } else {
      assert p + s == s;
      var r := Split(s, c);
      assert p + r[0] == r[0];
      assert r == [r[0]] + r[1..];
    }
  }

  /** Joining with a one-character separator and splitting at it gives the
      parts back, as long as no part contains the separator. */
  lemma {:induction false} SplitJoin(parts: seq<string>, c: char)
    requires |parts| > 0
    requires forall i :: 0 <= i < |parts| ==> c !in parts[i]
    ensures Split(Join([c], parts), c) == parts
    decreases |parts|
  {
    if |parts| == 1 {
      SplitAfterPlainPrefix(parts[0], "", c);
      assert parts[0] + "" == parts[0];
    } else {
      var tail := Join([c], parts[1..]);
      SplitJoin(parts[1..], c);
      assert Join([c], parts) == parts[0] + ([c] + tail);
      assert ([c] + tail)[1..] == tail;
      assert Split([c] + tail, c) == [""] + parts[1..];
      SplitAfterPlainPrefix(parts[0], [c] + tail, c);
      assert parts[0] + "" == parts[0];
      assert [parts[0]] + parts[1..] == parts;
    }
  }

  /** The joined text ends with the last part: there is no trailing separator. */
  lemma {:induction false} JoinEndsWithLastPart(sep: string, parts: seq<string>)
    requires |parts| > 0
    ensures |parts[|parts| - 1]| <= |Join(sep, parts)|
    ensures Join(sep, parts)[|Join(sep, parts)| - |parts[|parts| - 1]|..] == parts[|parts| - 1]
    decreases |parts|
  {
    if |parts| > 1 {
      JoinEndsWithLastPart(sep, parts[1..]);
      var j := Join(sep, parts[1..]);
      var last := parts[|parts| - 1];
      assert parts[1..][|parts[1..]| - 1] == last;
      var whole := parts[0] + sep + j;
      assert whole[|whole| - |last|..] == j[|j| - |last|..];
    }
  }

  function DigitChar(d: nat): (c: char)
    requires d < 10
    ensures IsDigit(c) && DigitValue(c) == d
  {
    ('0' as int + d) as char
  }

  /** The decimal text of a natural number, as `int.ToString()` prints it. */
  function NatToString(n: nat): (r: string)
    ensures |r| >= 1
    ensures forall i :: 0 <= i < |r| ==> IsDigit(r[i])
    decreases n
  {
    if n < 10 then [DigitChar(n)] else NatToString(n / 10) + [DigitChar(n % 10)]
  }

  function IntToString(n: int): string {
    if n < 0 then "-" + NatToString(-n) else NatToString(n)
  }

  /** The value of a string of decimal digits. */
  function DecimalValue(s: string): nat
    requires forall i :: 0 <= i < |s| ==> IsDigit(s[i])
    decreases |s|
  {
    if |s| == 0 then 0
    else 10 * DecimalValue(s[..|s| - 1]) + DigitValue(s[|s| - 1])
  }

  function DigitValue(c: char): nat
    requires IsDigit(c)
  {
    c as int - '0' as int
  }

  lemma {:induction false} NatToStringRoundTrip(n: nat)
    ensures DecimalValue(NatToString(n)) == n
    decreases n
  {
    if n >= 10 {
      NatToStringRoundTrip(n / 10);
      var r := NatToString(n);
      assert r[..|r| - 1] == NatToString(n / 10);
    }
  }
}
