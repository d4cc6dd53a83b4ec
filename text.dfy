/**
 * String helpers shared by the Python and JavaScript parts of the repository.
 * Strings are sequences of characters; case mapping is modelled on ASCII letters.
 */
module Text {
  import opened Wrappers

  predicate IsUpperAscii(c: char) { 'A' <= c <= 'Z' }
  predicate IsLowerAscii(c: char) { 'a' <= c <= 'z' }
  predicate IsDigit(c: char) { '0' <= c <= '9' }

  function LowerChar(c: char): (r: char)
    ensures !IsUpperAscii(r)
    ensures IsUpperAscii(c) || r == c
  {
    if IsUpperAscii(c) then (c as int + 32) as char else c
  }

  function UpperChar(c: char): (r: char)
    ensures !IsLowerAscii(r)
    ensures IsLowerAscii(c) || r == c
  {
    if IsLowerAscii(c) then (c as int - 32) as char else c
  }

  /** Python `str.lower()` / JavaScript `toLowerCase()`, on ASCII letters. */
  function Lower(s: string): (r: string)
    ensures |r| == |s|
    ensures forall i :: 0 <= i < |s| ==> r[i] == LowerChar(s[i])
  {
    if s == [] then [] else [LowerChar(s[0])] + Lower(s[1..])
  }

  /** Python `str.upper()` / JavaScript `toUpperCase()`, on ASCII letters. */
  function Upper(s: string): (r: string)
    ensures |r| == |s|
    ensures forall i :: 0 <= i < |s| ==> r[i] == UpperChar(s[i])
  {
    if s == [] then [] else [UpperChar(s[0])] + Upper(s[1..])
  }

  predicate StartsWith(s: string, prefix: string) {
    |prefix| <= |s| && s[..|prefix|] == prefix
  }

  predicate EndsWith(s: string, suffix: string) {
    |suffix| <= |s| && s[|s| - |suffix|..] == suffix
  }

  /** `sub in s` (Python) / `s.includes(sub)` (JavaScript). */
  predicate Contains(s: string, sub: string)
    decreases |s|
  {
    StartsWith(s, sub) || (|s| > 0 && Contains(s[1..], sub))
  }

  lemma ContainsAt(s: string, sub: string, i: nat)
    requires i + |sub| <= |s| && s[i..i + |sub|] == sub
    ensures Contains(s, sub)
    decreases i
  {
    if i > 0 {
      assert s[1..][i - 1..i - 1 + |sub|] == sub;
      ContainsAt(s[1..], sub, i - 1);
    }
  }

  lemma ContainsChar(s: string, c: char)
    ensures Contains(s, [c]) <==> c in s
    decreases |s|
  {
    if |s| > 0 {
      ContainsChar(s[1..], c);
      assert s == [s[0]] + s[1..];
    }
  }

  /** `sep.join(xs)` (Python) / `xs.join(sep)` (JavaScript), for a one-character separator. */
  function Join(xs: seq<string>, sep: string): (r: string)
    decreases |xs|
  {
    if |xs| == 0 then "" else if |xs| == 1 then xs[0] else xs[0] + sep + Join(xs[1..], sep)
  }

  /**
   * `s.split(sep)` for a one-character separator: Python and JavaScript agree that the
   * result always has one more piece than `s` has separators, so "" splits into [""].
   */
  function Split(s: string, sep: char): (r: seq<string>)
    ensures |r| >= 1
    ensures forall i :: 0 <= i < |r| ==> sep !in r[i]
    decreases |s|
  {
    if s == [] then [""]
    else
      var rest := Split(s[1..], sep);
      if s[0] == sep then [""] + rest else [[s[0]] + rest[0]] + rest[1..]
  }

  /** The pieces that are non-empty, in order (`[x for x in xs if x]`, `.filter(Boolean)`). */
  function NonEmpty(xs: seq<string>): (r: seq<string>)
    ensures forall i :: 0 <= i < |r| ==> r[i] != ""
    ensures forall x :: x in r ==> x in xs
  {
    if xs == [] then [] else (if xs[0] == "" then [] else [xs[0]]) + NonEmpty(xs[1..])
  }

  lemma {:induction false} SplitNoSeparator(a: string, sep: char)
    requires sep !in a
    ensures Split(a, sep) == [a]
    decreases |a|
  {
    if a != [] {
      SplitNoSeparator(a[1..], sep);
      assert [a[0]] + a[1..] == a;
    }
  }

  lemma {:induction false} SplitAfterPiece(a: string, t: string, sep: char)
    requires sep !in a
    ensures Split(a + [sep] + t, sep) == [a] + Split(t, sep)
    decreases |a|
  {
    if a == [] {
      assert a + [sep] + t == [sep] + t;
      assert ([sep] + t)[1..] == t;
    } else {
      assert (a + [sep] + t)[1..] == a[1..] + [sep] + t;
      SplitAfterPiece(a[1..], t, sep);
      assert [a[0]] + a[1..] == a;
    }
  }

  /** Splitting a joined list gives the list back when no piece contains the separator. */
  lemma {:induction false} SplitJoin(xs: seq<string>, sep: char)
    requires |xs| >= 1
    requires forall i :: 0 <= i < |xs| ==> sep !in xs[i]
    ensures Split(Join(xs, [sep]), sep) == xs
    decreases |xs|
  {
    if |xs| == 1 {
      SplitNoSeparator(xs[0], sep);
    } else {
      SplitJoin(xs[1..], sep);
      SplitAfterPiece(xs[0], Join(xs[1..], [sep]), sep);
      assert [xs[0]] + xs[1..] == xs;
    }
  }

  lemma NonEmptyAll(xs: seq<string>)
    requires forall i :: 0 <= i < |xs| ==> xs[i] != ""
    ensures NonEmpty(xs) == xs
  {
    if xs != [] {
      NonEmptyAll(xs[1..]);
      assert [xs[0]] + xs[1..] == xs;
    }
  }

  /**
   * Joining non-empty, separator-free IDs and keeping the non-empty pieces of the split
   * recovers the IDs, including the empty list (which joins to "").
   */
  lemma {:induction false} SplitJoinNonEmpty(xs: seq<string>, sep: char)
    requires forall i :: 0 <= i < |xs| ==> xs[i] != "" && sep !in xs[i]
    ensures NonEmpty(Split(Join(xs, [sep]), sep)) == xs
  {
    if xs == [] {
      assert NonEmpty([""]) == [];
    } else {
      SplitJoin(xs, sep);
      NonEmptyAll(xs);
    }
  }

  // ---------------------------------------------------------------- whitespace

  /** Which language's definition of whitespace a trim uses. */
  datatype Flavour = Python | JavaScript

  /**
   * ASCII whitespace, plus the characters beyond it that each language treats as space:
   * Python's `str.isspace()` also accepts the separators 0x1C to 0x1F and 0x85; JavaScript's
   * `trim` and `\s` accept the byte-order mark. Both accept the Unicode space separators.
   */
  predicate IsSpace(c: char, flavour: Flavour) {
    || c == ' ' || c == '\t' || c == '\n' || c == '\r' || c == '\U{000B}' || c == '\U{000C}'
    || c == '\U{00A0}' || c == '\U{1680}' || ('\U{2000}' <= c <= '\U{200A}')
    || c == '\U{2028}' || c == '\U{2029}' || c == '\U{202F}' || c == '\U{205F}' || c == '\U{3000}'
    || (flavour == Python && ('\U{001C}' <= c <= '\U{001F}' || c == '\U{0085}'))
    || (flavour == JavaScript && c == '\U{FEFF}')
  }

  function TrimStart(s: string, flavour: Flavour): (r: string)
    ensures |r| <= |s| && r == s[|s| - |r|..]
    ensures r == [] || !IsSpace(r[0], flavour)
    decreases |s|
  {
    if s != [] && IsSpace(s[0], flavour) then TrimStart(s[1..], flavour) else s
  }

  function TrimEnd(s: string, flavour: Flavour): (r: string)
    ensures |r| <= |s| && r == s[..|r|]
    ensures r == [] || !IsSpace(r[|r| - 1], flavour)
    decreases |s|
  {
    if s != [] && IsSpace(s[|s| - 1], flavour) then TrimEnd(s[..|s| - 1], flavour) else s
  }

  /** Python `str.strip()` or JavaScript `String.prototype.trim()`. */
  function Trim(s: string, flavour: Flavour): (r: string)
    ensures r == [] || (!IsSpace(r[0], flavour) && !IsSpace(r[|r| - 1], flavour))
    ensures |r| <= |s|
  {
    var t := TrimStart(s, flavour);
    var u := TrimEnd(t, flavour);
    assert u != [] ==> u[0] == t[0];
    u
  }

  /** Trimming only removes characters. */
  lemma TrimWithin(s: string, flavour: Flavour)
    ensures forall c :: c in Trim(s, flavour) ==> c in s
  {
    var t := TrimStart(s, flavour);
    var u := TrimEnd(t, flavour);
    forall c | c in u ensures c in s {
      var k :| 0 <= k < |u| && u[k] == c;
      assert t[k] == c;
      assert s[|s| - |t| + k] == c;
    }
  }

  // ---------------------------------------------------------------- numbers

  function DigitChar(d: nat): (c: char)
    requires d < 10
    ensures IsDigit(c)
  {
    ('0' as int + d) as char
  }

  /** `str(n)` / `String(n)` for a natural number. */
  function NatToString(n: nat): (r: string)
    ensures |r| >= 1
    ensures forall i :: 0 <= i < |r| ==> IsDigit(r[i])
  {
    if n < 10 then [DigitChar(n)] else NatToString(n / 10) + [DigitChar(n % 10)]
  }

  /** `str(i)` / `String(i)` for an integer. */
  function IntToString(i: int): (r: string)
    ensures |r| >= 1
  {
    if i < 0 then "-" + NatToString(-i) else NatToString(i)
  }

  /** The value of a non-empty string of decimal digits, read left to right. */
  function DigitsValue(s: string): (v: nat)
    requires forall i :: 0 <= i < |s| ==> IsDigit(s[i])
    decreases |s|
  {
    if s == [] then 0
    else
      assert IsDigit(s[|s| - 1]);
      DigitsValue(s[..|s| - 1]) * 10 + (s[|s| - 1] as int - '0' as int)
  }

  lemma {:induction false} DigitsOfNat(n: nat)
    ensures DigitsValue(NatToString(n)) == n
  {
    if n >= 10 {
      var s := NatToString(n / 10) + [DigitChar(n % 10)];
      assert s[..|s| - 1] == NatToString(n / 10);
      DigitsOfNat(n / 10);
    }
  }

  function Pow10(k: nat): (p: nat)
    ensures p >= 1
  {
    if k == 0 then 1 else 10 * Pow10(k - 1)
  }

  predicate AllDigits(s: string) {
    forall i :: 0 <= i < |s| ==> IsDigit(s[i])
  }

  /** The unsigned part of a decimal literal: `digits`, `digits.`, `digits.digits` or `.digits`. */
  function ParseUnsigned(s: string): (r: Option<real>)
    ensures r.Some? ==> r.value >= 0.0
  {
    if AllDigits(s) then
      if s == [] then None else Some(DigitsValue(s) as real)
    else
      var k := IndexOf(s, '.');
      if k.None? then None
      else
        var whole, frac := s[..k.value], s[k.value + 1..];
        if !AllDigits(whole) || !AllDigits(frac) || (whole == [] && frac == []) then None
        else Some(DigitsValue(whole) as real + DigitsValue(frac) as real / Pow10(|frac|) as real)
  }

  /**
   * A decimal number with an optional sign, as Python's `float()` and pandas' `to_numeric`
   * read it. Exponents, surrounding blanks, "nan" and "inf" are not part of this model.
   */
  function ParseDecimal(s: string): (r: Option<real>)
  {
    if s != [] && s[0] == '-' then
      match ParseUnsigned(s[1..]) case Some(v) => Some(-v) case None => None
    else if s != [] && s[0] == '+' then ParseUnsigned(s[1..])
    else ParseUnsigned(s)
  }

  /** Every natural number reads back from its decimal rendering. */
  lemma ParseNatToString(n: nat)
    ensures ParseDecimal(NatToString(n)) == Some(n as real)
  {
    DigitsOfNat(n);
    var s := NatToString(n);
    assert s[0] != '-' && s[0] != '+';
  }

  function IndexOf(s: string, c: char): (r: Option<nat>)
    ensures r.Some? ==> r.value < |s| && s[r.value] == c && c !in s[..r.value]
    ensures r.None? ==> c !in s
  {
    if s == [] then None
    else if s[0] == c then Some(0)
    else match IndexOf(s[1..], c)
      case Some(k) => assert s[..k + 1] == [s[0]] + s[1..][..k]; Some(k + 1)
      case None => None
  }

  // ---------------------------------------------------------------- ordering

  /** Lexicographic order on character codes. */
  predicate Less(a: string, b: string)
    decreases |a|
  {
    if a == [] then b != []
    else if b == [] then false
    else if a[0] != b[0] then a[0] < b[0]
    else Less(a[1..], b[1..])
  }

  lemma {:induction false} LessIrreflexive(a: string)
    ensures !Less(a, a)
    decreases |a|
  {
    if a != [] {
      LessIrreflexive(a[1..]);
    }
  }

  lemma {:induction false} LessTransitive(a: string, b: string, c: string)
    requires Less(a, b) && Less(b, c)
    ensures Less(a, c)
    decreases |a|
  {
    if a != [] && b != [] && c != [] && a[0] == b[0] && b[0] == c[0] {
      LessTransitive(a[1..], b[1..], c[1..]);
    }
  }

  /** Two different strings are ordered one way or the other. */
  lemma {:induction false} LessTotal(a: string, b: string)
    requires a != b
    ensures Less(a, b) || Less(b, a)
    decreases |a|
  {
    if a != [] && b != [] && a[0] == b[0] {
      assert a == [a[0]] + a[1..] && b == [b[0]] + b[1..];
      LessTotal(a[1..], b[1..]);
    }
  }
}
