/**
 * String helpers shared by the three crates: ASCII case mapping, `str::split` on one
 * character, `str::trim`, decimal digits, and the integer parsing of Rust's `FromStr`
 * for unsigned types. Strings are sequences of Unicode scalar values (`char`).
 */
module Text {
  import opened Wrappers

  // ---------------------------------------------------------------- case mapping

  function UpperChar(c: char): char {
    if 'a' <= c <= 'z' then (c as int - 32) as char else c
  }

  function LowerChar(c: char): char {
    if 'A' <= c <= 'Z' then (c as int + 32) as char else c
  }

  /** `str::to_ascii_uppercase`: only 'a'..'z' change. */
  function AsciiUpper(s: string): (r: string)
    ensures |r| == |s|
    ensures forall i :: 0 <= i < |s| ==> r[i] == UpperChar(s[i])
  {
    seq(|s|, i requires 0 <= i < |s| => UpperChar(s[i]))
  }

  /** `str::to_ascii_lowercase`: only 'A'..'Z' change. */
  function AsciiLower(s: string): (r: string)
    ensures |r| == |s|
    ensures forall i :: 0 <= i < |s| ==> r[i] == LowerChar(s[i])
  {
    seq(|s|, i requires 0 <= i < |s| => LowerChar(s[i]))
  }

  // ---------------------------------------------------------------- trimming

  /** `char::is_whitespace`: the Unicode White_Space property. */
  predicate IsWhitespace(c: char) {
    || ('\t' <= c <= '\r') || c == ' ' || c == '\U{85}' || c == '\U{A0}' || c == '\U{1680}'
    || ('\U{2000}' <= c <= '\U{200A}') || c == '\U{2028}' || c == '\U{2029}'
    || c == '\U{202F}' || c == '\U{205F}' || c == '\U{3000}'
  }

  /** `str::trim_start`: the longest suffix that does not start with whitespace; only whitespace is dropped. */
  function TrimStart(s: string): (r: string)
    ensures |r| <= |s| && r == s[|s| - |r|..]
    ensures |r| > 0 ==> !IsWhitespace(r[0])
    ensures forall i :: 0 <= i < |s| - |r| ==> IsWhitespace(s[i])
  {
    if |s| > 0 && IsWhitespace(s[0]) then TrimStart(s[1..]) else s
  }

  /** `str::trim_end`: the longest prefix that does not end with whitespace; only whitespace is dropped. */
  function TrimEnd(s: string): (r: string)
    ensures |r| <= |s| && r == s[..|r|]
    ensures |r| > 0 ==> !IsWhitespace(r[|r| - 1])
    ensures forall i :: |r| <= i < |s| ==> IsWhitespace(s[i])
  {
    if |s| > 0 && IsWhitespace(s[|s| - 1]) then TrimEnd(s[..|s| - 1]) else s
  }

  /** `str::trim`. */
  function Trim(s: string): string {
    TrimEnd(TrimStart(s))
  }

  // ---------------------------------------------------------------- splitting

  /** Number of occurrences of `c` in `s`. */
  function Count(s: string, c: char): nat {
    if |s| == 0 then 0 else (if s[0] == c then 1 else 0) + Count(s[1..], c)
  }

  /**
   * `s.split(sep).collect::<Vec<&str>>()`: the pieces between separators, empty pieces
   * included, so the empty string gives one empty piece.
   */
  function SplitOn(s: string, sep: char): (parts: seq<string>)
    ensures |parts| >= 1
  {
    if |s| == 0 then [""]
    else
      var rest := SplitOn(s[1..], sep);
      if s[0] == sep then [""] + rest else [[s[0]] + rest[0]] + rest[1..]
  }

  /** The inverse of SplitOn: the pieces glued back with the separator between them. */
  function Join(parts: seq<string>, sep: char): string
    requires |parts| >= 1
  {
    if |parts| == 1 then parts[0] else parts[0] + [sep] + Join(parts[1..], sep)
  }

  lemma {:induction false} SplitCount(s: string, sep: char)
    ensures |SplitOn(s, sep)| == Count(s, sep) + 1
  {
    if |s| > 0 {
      SplitCount(s[1..], sep);
    }
  }

  lemma {:induction false} SplitPiecesHaveNoSeparator(s: string, sep: char)
    ensures forall i :: 0 <= i < |SplitOn(s, sep)| ==> sep !in SplitOn(s, sep)[i]
  {
    if |s| > 0 {
      SplitPiecesHaveNoSeparator(s[1..], sep);
    }
  }

  lemma {:induction false} JoinSplit(s: string, sep: char)
    ensures Join(SplitOn(s, sep), sep) == s
  {
    if |s| > 0 {
      var rest := SplitOn(s[1..], sep);
      JoinSplit(s[1..], sep);
      if s[0] == sep {
        assert SplitOn(s, sep) == [""] + rest;
        assert ([""] + rest)[1..] == rest;
      } else {
        var p := [[s[0]] + rest[0]] + rest[1..];
        assert SplitOn(s, sep) == p;
        if |rest| > 1 {
          assert p[1..] == rest[1..];
          assert Join(rest, sep) == rest[0] + [sep] + Join(rest[1..], sep);
        }
      }
    }
  }

  lemma {:induction false} SplitNoSeparator(a: string, sep: char)
    requires sep !in a
    ensures SplitOn(a, sep) == [a]
  {
    if |a| > 0 {
      SplitNoSeparator(a[1..], sep);
      assert [a[0]] + a[1..] == a;
    }
  }

  lemma {:induction false} SplitAfterPiece(a: string, b: string, sep: char)
    requires sep !in a
    ensures SplitOn(a + [sep] + b, sep) == [a] + SplitOn(b, sep)
  {
    if |a| == 0 {
      assert a + [sep] + b == [sep] + b;
      assert ([sep] + b)[1..] == b;
    } else {
      SplitAfterPiece(a[1..], b, sep);
      var s := a + [sep] + b;
      assert s[0] == a[0] && s[1..] == a[1..] + [sep] + b;
      assert [a[0]] + a[1..] == a;
    }
  }

  /** Splitting a joined sequence of separator-free pieces gives the pieces back. */
  lemma {:induction false} SplitJoin(parts: seq<string>, sep: char)
    requires |parts| >= 1
    requires forall i :: 0 <= i < |parts| ==> sep !in parts[i]
    ensures SplitOn(Join(parts, sep), sep) == parts
  {
    if |parts| == 1 {
      SplitNoSeparator(parts[0], sep);
    } else {
      SplitJoin(parts[1..], sep);
      SplitAfterPiece(parts[0], Join(parts[1..], sep), sep);
      assert [parts[0]] + parts[1..] == parts;
    }
  }

  // ---------------------------------------------------------------- digits

  predicate IsDigit(c: char) { '0' <= c <= '9' }

  predicate AllDigits(s: string) {
    forall i :: 0 <= i < |s| ==> IsDigit(s[i])
  }

  function DigitChar(d: nat): (c: char)
    requires d < 10
    ensures IsDigit(c)
  {
    ('0' as int + d) as char
  }

  function DigitValue(c: char): (d: nat)
    requires IsDigit(c)
    ensures d < 10
  {
    c as int - '0' as int
  }

  function Pow10(k: nat): (p: nat)
    ensures p >= 1
  {
    if k == 0 then 1 else 10 * Pow10(k - 1)
  }

  /** The value of a string of decimal digits (most significant first); "" is 0. */
  function ParseDigits(s: string): nat
    requires AllDigits(s)
  {
    if |s| == 0 then 0 else ParseDigits(s[..|s| - 1]) * 10 + DigitValue(s[|s| - 1])
  }

  /** Decimal rendering of a natural number, without leading zeros (`n.to_string()`). */
  function NatToString(n: nat): (s: string)
    ensures |s| >= 1 && AllDigits(s)
    ensures n >= 10 ==> s[0] != '0'
  {
    if n < 10 then [DigitChar(n)] else NatToString(n / 10) + [DigitChar(n % 10)]
  }

  /** A number below 10^k needs at most k digits. */
  lemma {:induction false} NatToStringLength(n: nat, k: nat)
    requires 1 <= k && n < Pow10(k)
    ensures |NatToString(n)| <= k
  {
    if n >= 10 {
      NatToStringLength(n / 10, k - 1);
    }
  }

  /** `format!("{:0w}", n)` for a string of digits: left-padded with '0' to width `w`. */
  function PadZeros(s: string, width: nat): (r: string)
    ensures |r| == if |s| >= width then |s| else width
    ensures r[|r| - |s|..] == s
    ensures forall i :: 0 <= i < |r| - |s| ==> r[i] == '0'
  {
    if |s| >= width then s else seq(width - |s|, _ => '0') + s
  }

  lemma {:induction false} ParseNatToString(n: nat)
    ensures ParseDigits(NatToString(n)) == n
  {
    var s := NatToString(n);
    if n >= 10 {
      ParseNatToString(n / 10);
      assert s[..|s| - 1] == NatToString(n / 10);
    }
  }

  lemma ShiftByTen(p: int, q: int)
    ensures (p * q) * 10 == p * (10 * q)
  {
  }

  lemma {:induction false} ParseDigitsAppend(a: string, b: string)
    requires AllDigits(a) && AllDigits(b)
    ensures AllDigits(a + b)
    ensures ParseDigits(a + b) == ParseDigits(a) * Pow10(|b|) + ParseDigits(b)
  {
    if |b| > 0 {
      var ab := a + b;
      var b' := b[..|b| - 1];
      assert ab[..|ab| - 1] == a + b';
      assert ab[|ab| - 1] == b[|b| - 1];
      ParseDigitsAppend(a, b');
      var d := DigitValue(b[|b| - 1]);
      var p, q := ParseDigits(a), Pow10(|b'|);
      calc {
        ParseDigits(ab);
        ParseDigits(a + b') * 10 + d;
        (p * q + ParseDigits(b')) * 10 + d;
        { ShiftByTen(p, q); }
        p * (10 * q) + (ParseDigits(b') * 10 + d);
      }
    } else {
      assert a + b == a;
    }
  }

  lemma {:induction false} ParseLeadingZeros(k: nat, s: string)
    requires AllDigits(s)
    ensures AllDigits(seq(k, _ => '0') + s)
    ensures ParseDigits(seq(k, _ => '0') + s) == ParseDigits(s)
  {
    var z: string := seq(k, _ => '0');
    ParseDigitsAppend(z, s);
    ParseZeros(k);
  }

  lemma {:induction false} ParseZeros(k: nat)
    ensures AllDigits(seq(k, _ => '0'))
    ensures ParseDigits(seq(k, _ => '0')) == 0
  {
    if k > 0 {
      var z: string := seq(k, _ => '0');
      assert z[..k - 1] == seq(k - 1, _ => '0');
      ParseZeros(k - 1);
    }
  }

  lemma {:induction false} ParseDigitsBound(s: string)
    requires AllDigits(s)
    ensures ParseDigits(s) < Pow10(|s|)
  {
    if |s| > 0 {
      ParseDigitsBound(s[..|s| - 1]);
    }
  }

  /** Zero-padding changes the text but not the number it denotes. */
  lemma PadZerosValue(n: nat, width: nat)
    ensures AllDigits(PadZeros(NatToString(n), width))
    ensures ParseDigits(PadZeros(NatToString(n), width)) == n
  {
    var s := NatToString(n);
    ParseNatToString(n);
    if |s| < width {
      ParseLeadingZeros(width - |s|, s);
    }
  }

  // ---------------------------------------------------------------- Rust integer parsing

  /**
   * `str::parse::<uN>()` where `max` is the type's largest value: an optional '+', then
   * at least one ASCII digit and nothing else; values above `max` overflow.
   */
  function ParseUnsigned(s: string, max: nat): (r: Option<nat>)
    ensures r.Some? ==> r.value <= max
    ensures r.Some? ==> (forall i :: 0 <= i < |s| ==> IsDigit(s[i]) || (i == 0 && s[i] == '+'))
                        && exists i :: 0 <= i < |s| && IsDigit(s[i])
    ensures AllDigits(s) && |s| > 0 ==> r == (if ParseDigits(s) <= max then Some(ParseDigits(s)) else None)
    ensures |s| > 1 && s[0] == '+' && AllDigits(s[1..]) ==>
      r == (if ParseDigits(s[1..]) <= max then Some(ParseDigits(s[1..])) else None)
    ensures |s| == 0 ==> r == None
  {
    var digits := if |s| > 0 && s[0] == '+' then s[1..] else s;
    if |digits| == 0 || !AllDigits(digits) then None
    else if ParseDigits(digits) > max then None
    else Some(ParseDigits(digits))
  }

  lemma ParseUnsignedNatToString(n: nat, max: nat)
    requires n <= max
    ensures ParseUnsigned(NatToString(n), max) == Some(n)
  {
    ParseNatToString(n);
  }

  // ---------------------------------------------------------------- decimal numbers

  lemma FractionBelowOne(n: real, d: real)
    requires 0.0 <= n < d
    ensures 0.0 <= n / d < 1.0
  {
    assert (n / d) * d == n;
  }

  /** The value spelled by the digits `whole`, a point, then the digits `frac`. */
  function DecimalValue(whole: string, frac: string): (v: real)
    requires AllDigits(whole) && AllDigits(frac)
    ensures v >= ParseDigits(whole) as real
    ensures v < ParseDigits(whole) as real + 1.0
  {
    ParseDigitsBound(frac);
    FractionBelowOne(ParseDigits(frac) as real, Pow10(|frac|) as real);
    ParseDigits(whole) as real + ParseDigits(frac) as real / Pow10(|frac|) as real
  }

  /** The value of "<int>.<frac>" or "<int>" without a sign; at least one digit in all. */
  function ParseUnsignedDecimal(body: string): Option<real> {
    var pieces := SplitOn(body, '.');
    if |pieces| == 1 then
      if |body| > 0 && AllDigits(body) then Some(ParseDigits(body) as real) else None
    else if |pieces| == 2 then
      var whole := pieces[0];
      var frac := pieces[1];
      if !AllDigits(whole) || !AllDigits(frac) || |whole| + |frac| == 0 then None
      else Some(DecimalValue(whole, frac))
    else None
  }

  /**
   * A decimal number: an optional leading '-' or '+', then digits with at most one '.',
   * at least one digit in all. Digit separators, exponents and every other form are
   * refused.
   */
  function ParseDecimal(s: string): Option<real> {
    if |s| > 0 && s[0] == '-' then
      match ParseUnsignedDecimal(s[1..])
      case Some(m) => Some(-m)
      case None => None
    else if |s| > 0 && s[0] == '+' then ParseUnsignedDecimal(s[1..])
    else ParseUnsignedDecimal(s)
  }

  /** A plain string of digits parses to the integer it spells. */
  lemma ParseDecimalDigits(s: string)
    requires |s| > 0 && AllDigits(s)
    ensures ParseDecimal(s) == Some(ParseDigits(s) as real)
  {
    assert forall i :: 0 <= i < |s| ==> s[i] != '.' && IsDigit(s[i]);
    SplitNoSeparator(s, '.');
    assert IsDigit(s[0]);
  }

  /** "<whole>.<frac>" parses to the whole part plus the fraction scaled by its length. */
  lemma ParseDecimalFraction(whole: string, frac: string)
    requires AllDigits(whole) && AllDigits(frac) && |whole| + |frac| > 0
    ensures ParseDecimal(whole + "." + frac) == Some(DecimalValue(whole, frac))
  {
    var s := whole + "." + frac;
    assert s == whole + ['.'] + frac;
    assert '.' !in whole by {
      assert forall i :: 0 <= i < |whole| ==> IsDigit(whole[i]);
    }
    assert '.' !in frac by {
      assert forall i :: 0 <= i < |frac| ==> IsDigit(frac[i]);
    }
    SplitAfterPiece(whole, frac, '.');
    SplitNoSeparator(frac, '.');
    assert SplitOn(s, '.') == [whole, frac];
    assert s[0] != '-' && s[0] != '+' by {
      if |whole| > 0 {
        assert IsDigit(whole[0]);
      }
    }
    assert ParseDecimal(s) == ParseUnsignedDecimal(s);
    var pieces := SplitOn(s, '.');
    assert pieces[0] == whole && pieces[1] == frac;
  }

  /** A leading '-' negates the unsigned value and a leading '+' leaves it unchanged. */
  lemma ParseDecimalSigns(body: string)
    ensures ParseDecimal("-" + body)
      == if ParseUnsignedDecimal(body).Some? then Some(-ParseUnsignedDecimal(body).value) else None
    ensures ParseDecimal("+" + body) == ParseUnsignedDecimal(body)
  {
    assert ("-" + body)[1..] == body;
    assert ("+" + body)[1..] == body;
  }

  /** Whatever parses holds only digits, at most one '.', and a sign only in front. */
  lemma ParseDecimalAccepts(s: string)
    requires ParseDecimal(s).Some?
    ensures Count(s, '.') <= 1
    ensures forall i :: 0 <= i < |s| ==> IsDigit(s[i]) || s[i] == '.' || (i == 0 && s[i] in "+-")
  {
    var body := if |s| > 0 && (s[0] == '-' || s[0] == '+') then s[1..] else s;
    assert ParseUnsignedDecimal(body).Some?;
    UnsignedDecimalAccepts(body);
    if body != s {
      assert s == [s[0]] + body;
      assert Count(s, '.') == Count(body, '.');
      forall i | 1 <= i < |s|
        ensures IsDigit(s[i]) || s[i] == '.'
      {
        assert s[i] == body[i - 1];
      }
    }
  }

  lemma UnsignedDecimalAccepts(body: string)
    requires ParseUnsignedDecimal(body).Some?
    ensures Count(body, '.') <= 1
    ensures forall i :: 0 <= i < |body| ==> IsDigit(body[i]) || body[i] == '.'
  {
    SplitCount(body, '.');
    var pieces := SplitOn(body, '.');
    if |pieces| == 2 {
      JoinSplit(body, '.');
      assert Join(pieces[1..], '.') == pieces[1];
      assert body == pieces[0] + ['.'] + pieces[1];
      forall i | 0 <= i < |body|
        ensures IsDigit(body[i]) || body[i] == '.'
      {
        if i < |pieces[0]| {
          assert body[i] == pieces[0][i];
        } else if i > |pieces[0]| {
          assert body[i] == pieces[1][i - |pieces[0]| - 1];
        }
      }
    }
  }

  lemma ParseDecimalNat(n: nat)
    ensures ParseDecimal(NatToString(n)) == Some(n as real)
  {
    ParseDecimalDigits(NatToString(n));
    ParseNatToString(n);
  }
}
