/**
 * String primitives with the meaning Python gives them: `str.lower` (on ASCII letters),
 * `str.strip`, `str.split(sep)`, `str.startswith`, `in` on strings, `int(...)` and
 * the decimal rendering of integers used by f-strings.
 */
module Text {
  import opened Wrappers

  // ---------------------------------------------------------------------------
  // Characters

  /** Python's `str.isspace()`: the characters `str.strip()` and `int()` remove. */
  predicate IsSpace(c: char) {
    var n := c as int;
    n == 0x20 || 0x09 <= n <= 0x0D || 0x1C <= n <= 0x1F || n == 0x85 || n == 0xA0
    || n == 0x1680 || 0x2000 <= n <= 0x200A || n == 0x2028 || n == 0x2029
    || n == 0x202F || n == 0x205F || n == 0x3000
  }

  predicate IsUpper(c: char) { 'A' <= c <= 'Z' }

  predicate IsDigit(c: char) { '0' <= c <= '9' }

  function LowerChar(c: char): (r: char)
    ensures !IsUpper(r)
    ensures !IsUpper(c) ==> r == c
  {
    if IsUpper(c) then (c as int + 32) as char else c
  }

  /** `s.lower()`, for the ASCII letters. */
  function Lower(s: string): (r: string)
    ensures |r| == |s|
    ensures forall i :: 0 <= i < |s| ==> r[i] == LowerChar(s[i])
  {
    seq(|s|, i requires 0 <= i < |s| => LowerChar(s[i]))
  }

  // ---------------------------------------------------------------------------
  // Prefixes, suffixes, substrings

  /** `s.startswith(p)` */
  predicate IsPrefix(p: string, s: string) {
    |p| <= |s| && s[..|p|] == p
  }

  /** `s.endswith(p)` */
  predicate IsSuffix(p: string, s: string) {
    |p| <= |s| && s[|s| - |p|..] == p
  }

  /** `sub in s` */
  predicate Contains(s: string, sub: string)
    decreases |s|
  {
    IsPrefix(sub, s) || (|s| > 0 && Contains(s[1..], sub))
  }

  /**
   * A lower-cased text never contains a pattern that has an upper-case letter: this is
   * why a case-sensitive pattern searched in `text.lower()` can never match.
   */
  lemma {:induction false} LowerNeverContainsUpper(s: string, sub: string, j: nat)
    requires j < |sub| && IsUpper(sub[j])
    ensures !Contains(Lower(s), sub)
    decreases |s|
  {
    var l := Lower(s);
    if |s| > 0 {
      LowerNeverContainsUpper(s[1..], sub, j);
      assert l[1..] == Lower(s[1..]);
    }
  }

  // ---------------------------------------------------------------------------
  // strip

  /** How many whitespace characters `s` starts with. */
  function LeadingSpaces(s: string): (n: nat)
    ensures n <= |s|
    ensures forall i :: 0 <= i < n ==> IsSpace(s[i])
    ensures n < |s| ==> !IsSpace(s[n])
    decreases |s|
  {
    if |s| > 0 && IsSpace(s[0]) then
      var m := LeadingSpaces(s[1..]);
      assert forall i :: 1 <= i < m + 1 ==> s[i] == s[1..][i - 1];
      m + 1
    else 0
  }

  /** How many whitespace characters `s` ends with. */
  function TrailingSpaces(s: string): (n: nat)
    ensures n <= |s|
    ensures forall i :: |s| - n <= i < |s| ==> IsSpace(s[i])
    ensures n < |s| ==> !IsSpace(s[|s| - n - 1])
    decreases |s|
  {
    if |s| > 0 && IsSpace(s[|s| - 1]) then TrailingSpaces(s[..|s| - 1]) + 1 else 0
  }

  /**
   * `s.strip()`: the run of `s` between its leading and its trailing
   * whitespace. Nothing but whitespace is removed, at either end.
   */
  function Strip(s: string): (r: string)
    ensures |r| <= |s|
    ensures var n := LeadingSpaces(s);
            && n + |r| <= |s| && r == s[n..n + |r|]
            && (forall i :: 0 <= i < n ==> IsSpace(s[i]))
            && (forall i :: n + |r| <= i < |s| ==> IsSpace(s[i]))
    ensures |r| > 0 ==> !IsSpace(r[0]) && !IsSpace(r[|r| - 1])
    ensures (|s| == 0 || (!IsSpace(s[0]) && !IsSpace(s[|s| - 1]))) ==> r == s
    ensures forall c :: c in r ==> c in s
  {
    var n := LeadingSpaces(s);
    var l := s[n..];
    var m := TrailingSpaces(l);
    var r := l[..|l| - m];
    assert r == s[n..n + |r|];
    forall i | n + |r| <= i < |s|
      ensures IsSpace(s[i])
    {
      assert s[i] == l[i - n];
    }
    assert |r| > 0 ==> r[0] == s[n] && r[|r| - 1] == l[|l| - m - 1];
    assert |s| == 0 || (!IsSpace(s[0]) && !IsSpace(s[|s| - 1])) ==> n == 0 && l == s && m == 0;
    forall c | c in r
      ensures c in s
    {
      var j :| 0 <= j < |r| && r[j] == c;
      assert s[n + j] == c;
    }
    r
  }

  // ---------------------------------------------------------------------------
  // split / join

  /** `s.split(sep)` for a one-character separator: never empty, no part holds `sep`. */
  function Split(s: string, sep: char): (parts: seq<string>)
    ensures |parts| >= 1
    ensures forall i :: 0 <= i < |parts| ==> sep !in parts[i]
    decreases |s|
  {
    if |s| == 0 then [""]
    else
      var rest := Split(s[1..], sep);
      if s[0] == sep then [""] + rest
      else [[s[0]] + rest[0]] + rest[1..]
  }

  /** `sep.join(parts)` */
  function Join(parts: seq<string>, sep: char): string
    requires |parts| >= 1
    decreases |parts|
  {
    if |parts| == 1 then parts[0] else parts[0] + [sep] + Join(parts[1..], sep)
  }

  /** Splitting loses nothing: joining the parts back gives the original text. */
  lemma {:induction false} JoinSplit(s: string, sep: char)
    ensures Join(Split(s, sep), sep) == s
    decreases |s|
  {
    if |s| > 0 {
      var rest := Split(s[1..], sep);
      JoinSplit(s[1..], sep);
      if s[0] != sep {
        if |rest| == 1 {
          assert Join(Split(s, sep), sep) == [s[0]] + rest[0];
        } else {
          assert Split(s, sep)[1..] == rest[1..];
          assert Join(rest, sep) == rest[0] + [sep] + Join(rest[1..], sep);
        }
      }
    }
  }

  /** A separator-free prefix joins the first part of whatever follows it. */
  lemma {:induction false} SplitPrefix(a: string, b: string, sep: char)
    requires sep !in a
    ensures Split(a + b, sep) == [a + Split(b, sep)[0]] + Split(b, sep)[1..]
    decreases |a|
  {
    if |a| > 0 {
      assert (a + b)[1..] == a[1..] + b;
      SplitPrefix(a[1..], b, sep);
      assert [a[0]] + (a[1..] + Split(b, sep)[0]) == a + Split(b, sep)[0];
    } else {
      assert a + b == b;
      assert a + Split(b, sep)[0] == Split(b, sep)[0];
      assert Split(b, sep) == [Split(b, sep)[0]] + Split(b, sep)[1..];
    }
  }

  /** And parts free of the separator come back unchanged from a split of their join. */
  lemma {:induction false} SplitJoin(parts: seq<string>, sep: char)
    requires |parts| >= 1
    requires forall i :: 0 <= i < |parts| ==> sep !in parts[i]
    ensures Split(Join(parts, sep), sep) == parts
    decreases |parts|
  {
    if |parts| == 1 {
      SplitPrefix(parts[0], "", sep);
      assert parts[0] + "" == parts[0];
    } else {
      var rest := Join(parts[1..], sep);
      SplitJoin(parts[1..], sep);
      var tail := [sep] + rest;
      assert tail[1..] == rest;
      assert Split(tail, sep) == [""] + Split(rest, sep);
      SplitPrefix(parts[0], tail, sep);
      assert parts[0] + [sep] + rest == parts[0] + tail;
      assert parts[0] + "" == parts[0];
      assert parts == [parts[0]] + parts[1..];
    }
  }

  /** A non-empty item of a separated list, with its surrounding whitespace stripped. */
  predicate IsItem(x: string, sep: char) {
    x != "" && sep !in x && !IsSpace(x[0]) && !IsSpace(x[|x| - 1])
  }

  /** `[p.strip() for p in s.split(sep) if p.strip()]`: the items of a separated list. */
  function SplitItems(s: string, sep: char): (items: seq<string>)
    ensures forall i :: 0 <= i < |items| ==> IsItem(items[i], sep)
    ensures forall x :: x in items <==> x != "" && exists p :: p in Split(s, sep) && Strip(p) == x
  {
    StripNonEmpty(Split(s, sep), sep)
  }

  /** The stripped parts that are not empty, in order. */
  function StripNonEmpty(parts: seq<string>, sep: char): (items: seq<string>)
    requires forall i :: 0 <= i < |parts| ==> sep !in parts[i]
    ensures |items| <= |parts|
    ensures forall i :: 0 <= i < |items| ==> IsItem(items[i], sep)
    ensures forall x :: x in items <==> x != "" && exists p :: p in parts && Strip(p) == x
  {
    if parts == [] then []
    else
      var p := Strip(parts[0]);
      var rest := StripNonEmpty(parts[1..], sep);
      assert forall q :: q in parts <==> q == parts[0] || q in parts[1..];
      if p != "" then [p] + rest else rest
  }

  /** Items keep the order of their parts: those of a concatenation are the items of each half. */
  lemma {:induction false} StripNonEmptyAppend(a: seq<string>, b: seq<string>, sep: char)
    requires forall i :: 0 <= i < |a| ==> sep !in a[i]
    requires forall i :: 0 <= i < |b| ==> sep !in b[i]
    ensures StripNonEmpty(a + b, sep) == StripNonEmpty(a, sep) + StripNonEmpty(b, sep)
    decreases |a|
  {
    if a == [] {
      assert a + b == b;
    } else {
      assert (a + b)[0] == a[0];
      assert (a + b)[1..] == a[1..] + b;
      StripNonEmptyAppend(a[1..], b, sep);
    }
  }

  /** One part gives its stripped text, or nothing when that is empty. */
  lemma StripNonEmptyOne(p: string, sep: char)
    requires sep !in p
    ensures StripNonEmpty([p], sep) == if Strip(p) == "" then [] else [Strip(p)]
  {
    assert [p][1..] == [];
  }

  /** Items written out joined by the separator come back as the stripped, non-empty ones, in order. */
  lemma SplitItemsOfJoin(parts: seq<string>, sep: char)
    requires |parts| >= 1
    requires forall i :: 0 <= i < |parts| ==> sep !in parts[i]
    ensures SplitItems(Join(parts, sep), sep) == StripNonEmpty(parts, sep)
  {
    SplitJoin(parts, sep);
  }

  // ---------------------------------------------------------------------------
  // Decimal numerals

  predicate AllDigits(s: string) {
    forall i :: 0 <= i < |s| ==> IsDigit(s[i])
  }

  /** The value of a string of decimal digits. */
  function DigitsValue(s: string): nat
    requires AllDigits(s)
  {
    if |s| == 0 then 0 else DigitsValue(s[..|s| - 1]) * 10 + (s[|s| - 1] as int - '0' as int)
  }

  function DigitChar(d: nat): (c: char)
    requires d < 10
    ensures IsDigit(c) && c as int - '0' as int == d
  {
    ('0' as int + d) as char
  }

  /** The decimal rendering of a natural number, without leading zeros. */
  function NatToString(n: nat): (r: string)
    ensures |r| >= 1 && AllDigits(r)
    ensures |r| > 1 ==> r[0] != '0'
  {
    if n < 10 then [DigitChar(n)] else NatToString(n / 10) + [DigitChar(n % 10)]
  }

  /** `f"{i}"` for an integer `i`. */
  function IntToString(i: int): string {
    if i < 0 then "-" + NatToString(-i) else NatToString(i)
  }

  lemma {:induction false} NatToStringValue(n: nat)
    ensures DigitsValue(NatToString(n)) == n
  {
    if n >= 10 {
      NatToStringValue(n / 10);
      var r := NatToString(n);
      assert r[..|r| - 1] == NatToString(n / 10);
    }
  }

  /**
   * A numeral as `int(...)` accepts it after stripping and the sign: ASCII digits,
   * where an underscore may stand only between two digits.
   */
  predicate IsNumeral(b: string) {
    |b| > 0 && forall i :: 0 <= i < |b| ==> NumeralChar(b, i)
  }

  predicate NumeralChar(b: string, i: nat)
    requires i < |b|
  {
    IsDigit(b[i]) || (b[i] == '_' && 0 < i < |b| - 1 && IsDigit(b[i - 1]) && IsDigit(b[i + 1]))
  }

  predicate DigitsOrUnderscores(b: string) {
    forall i :: 0 <= i < |b| ==> IsDigit(b[i]) || b[i] == '_'
  }

  function RemoveUnderscores(b: string): (r: string)
    ensures DigitsOrUnderscores(b) ==> AllDigits(r)
    ensures AllDigits(b) ==> r == b
  {
    if b == [] then [] else (if b[0] == '_' then [] else [b[0]]) + RemoveUnderscores(b[1..])
  }

  lemma NumeralDigits(b: string)
    requires IsNumeral(b)
    ensures DigitsOrUnderscores(b)
  {
    forall i | 0 <= i < |b| ensures IsDigit(b[i]) || b[i] == '_' {
      assert NumeralChar(b, i);
    }
  }

  /** `int(s)` in base 10: `None` where Python raises `ValueError`. */
  function ParseInt(s: string): Option<int> {
    ParseSigned(Strip(s))
  }

  /** An optional sign, then a numeral. */
  function ParseSigned(t: string): Option<int> {
    if |t| > 0 && t[0] == '-' then
      match ParseNumeral(t[1..])
      case Some(n) => Some(-n)
      case None => None
    else if |t| > 0 && t[0] == '+' then ParseNumeral(t[1..])
    else ParseNumeral(t)
  }

  function ParseNumeral(b: string): Option<int> {
    if IsNumeral(b) then
      NumeralDigits(b);
      Some(DigitsValue(RemoveUnderscores(b)))
    else None
  }

  /** A character `int(...)` can accept: an ASCII digit, `_`, a sign or whitespace. */
  predicate IntChar(c: char) {
    IsDigit(c) || c == '_' || c == '+' || c == '-' || IsSpace(c)
  }

  /** Text `int(...)` can accept at all: at least one ASCII digit, and no other kind of character. */
  predicate IntText(s: string) {
    (exists i :: 0 <= i < |s| && IsDigit(s[i])) && forall i :: 0 <= i < |s| ==> IntChar(s[i])
  }

  /** `int(...)` raises on anything else: a text with no digit, a `.`, a letter. */
  lemma ParseIntRejects(s: string)
    ensures ParseInt(s).Some? ==> IntText(s)
  {
    var t := Strip(s);
    if ParseInt(s).Some? {
      var n := LeadingSpaces(s);
      var off := if |t| > 0 && (t[0] == '-' || t[0] == '+') then 1 else 0;
      var b := t[off..];
      assert ParseNumeral(b).Some?;
      assert IsNumeral(b);
      assert NumeralChar(b, 0);
      assert s[n + off] == b[0];
      forall i | 0 <= i < |s| ensures IntChar(s[i]) {
        if n <= i < n + off {
          assert s[i] == t[0];
        } else if n + off <= i < n + |t| {
          assert s[i] == b[i - n - off];
          assert NumeralChar(b, i - n - off);
        }
      }
    }
  }

  lemma DigitsAreNumeral(d: string)
    requires |d| > 0 && AllDigits(d)
    ensures IsNumeral(d) && RemoveUnderscores(d) == d
  {
    forall i | 0 <= i < |d| ensures NumeralChar(d, i) {
      assert IsDigit(d[i]);
    }
  }

  lemma StripKeepsNumber(t: string)
    requires |t| > 0 && (IsDigit(t[0]) || t[0] == '-') && IsDigit(t[|t| - 1])
    ensures Strip(t) == t
  {
    assert !IsSpace(t[0]) && !IsSpace(t[|t| - 1]);
  }

  lemma ParseUnsigned(d: string, k: nat)
    requires |d| > 0 && AllDigits(d) && DigitsValue(d) == k
    ensures ParseInt(d) == Some(k)
  {
    assert IsDigit(d[0]) && IsDigit(d[|d| - 1]);
    StripKeepsNumber(d);
    NumeralOfDigits(d, k);
  }

  lemma ParseNegative(d: string, k: nat)
    requires |d| > 0 && AllDigits(d) && DigitsValue(d) == k
    ensures ParseInt("-" + d) == Some(-(k as int))
  {
    var t := "-" + d;
    assert IsDigit(d[|d| - 1]) && t[|t| - 1] == d[|d| - 1];
    StripKeepsNumber(t);
    NumeralOfDigits(d, k);
    SignedNegative(d, k);
  }

  lemma NumeralOfDigits(d: string, k: nat)
    requires |d| > 0 && AllDigits(d) && DigitsValue(d) == k
    ensures ParseNumeral(d) == Some(k)
  {
    DigitsAreNumeral(d);
  }

  lemma SignedNegative(b: string, n: int)
    requires ParseNumeral(b) == Some(n)
    ensures ParseSigned("-" + b) == Some(-n)
  {
    var t := "-" + b;
    assert t[0] == '-' && t[1..] == b;
  }

  /** The rendering of an integer parses back to it. */
  lemma IntToStringParses(i: int)
    ensures ParseInt(IntToString(i)) == Some(i)
  {
    var m: nat := if i < 0 then -i else i;
    NatToStringValue(m);
    if i < 0 { ParseNegative(NatToString(m), m); } else { ParseUnsigned(NatToString(m), m); }
  }

  // ---------------------------------------------------------------------------
  // Code-point order on strings (Python's `<` on `str`)

  predicate StrLt(a: string, b: string)
    decreases |a|
  {
    if |a| == 0 then |b| > 0
    else if |b| == 0 then false
    else a[0] < b[0] || (a[0] == b[0] && StrLt(a[1..], b[1..]))
  }

  predicate StrLe(a: string, b: string) {
    a == b || StrLt(a, b)
  }

  lemma {:induction false} StrLtIrreflexive(a: string)
    ensures !StrLt(a, a)
    decreases |a|
  {
    if |a| > 0 { StrLtIrreflexive(a[1..]); }
  }

  lemma {:induction false} StrLtTransitive(a: string, b: string, c: string)
    requires StrLt(a, b) && StrLt(b, c)
    ensures StrLt(a, c)
    decreases |a|
  {
    if |a| > 0 && |b| > 0 && |c| > 0 && a[0] == b[0] && b[0] == c[0] {
      StrLtTransitive(a[1..], b[1..], c[1..]);
    }
  }

  lemma {:induction false} StrLtTotal(a: string, b: string)
    ensures a == b || StrLt(a, b) || StrLt(b, a)
    decreases |a|
  {
    if |a| > 0 && |b| > 0 && a[0] == b[0] {
      StrLtTotal(a[1..], b[1..]);
      if a[1..] == b[1..] {
        assert a == [a[0]] + a[1..] && b == [b[0]] + b[1..];
      }
    }
  }

  lemma StrLtAsymmetric(a: string, b: string)
    requires StrLt(a, b)
    ensures !StrLt(b, a)
  {
    if StrLt(b, a) {
      StrLtTransitive(a, b, a);
      StrLtIrreflexive(a);
    }
  }

  lemma StrLeTransitive(a: string, b: string, c: string)
    requires StrLe(a, b) && StrLe(b, c)
    ensures StrLe(a, c)
  {
    if a != b && b != c { StrLtTransitive(a, b, c); }
  }

  lemma StrLeAntisymmetric(a: string, b: string)
    requires StrLe(a, b) && StrLe(b, a)
    ensures a == b
  {
    if a != b { StrLtAsymmetric(a, b); }
  }

  lemma StrLeTotal(a: string, b: string)
    ensures StrLe(a, b) || StrLe(b, a)
  {
    StrLtTotal(a, b);
  }
}
