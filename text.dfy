/**
 * The JavaScript string and number operations the dashboard relies on:
 * `String.prototype.split` and `Array.prototype.join` on one separator,
 * `toUpperCase`, the decimal text of an integer (`${n}`) and the global
 * `parseInt` without a radix.
 */
module Text {
  import opened Wrappers

  /** Characters the `\s` class of a JavaScript regular expression matches
      (ECMAScript WhiteSpace and LineTerminator), which are also the ones
      `parseInt` skips at the start of its input. */
  predicate IsJsWhitespace(c: char) {
    c == '\t' || c == '\n' || c == '\U{000B}' || c == '\U{000C}' || c == '\r'
    || c == ' ' || c == '\U{00A0}' || c == '\U{1680}'
    || ('\U{2000}' <= c <= '\U{200A}')
    || c == '\U{2028}' || c == '\U{2029}' || c == '\U{202F}' || c == '\U{205F}'
    || c == '\U{3000}' || c == '\U{FEFF}'
  }

  /** JavaScript truthiness of an optional string: present and non-empty. */
  predicate Truthy(s: Option<string>) {
    s.Some? && s.value != ""
  }

  /** JavaScript's `a || b` on strings: `a` unless it is empty. */
  function OrElse(a: string, b: string): string {
    if a != "" then a else b
  }

  predicate IsAsciiLetter(c: char) {
    ('a' <= c <= 'z') || ('A' <= c <= 'Z')
  }

  predicate IsDecimalDigit(c: char) {
    '0' <= c <= '9'
  }

  // ---------------------------------------------------------------------
  // split / join

  /** `s.split(sep)`: the pieces between occurrences of `sep`; an empty
      string gives one empty piece. */
  function Split(s: string, sep: char): (parts: seq<string>)
    ensures |parts| >= 1
    ensures forall i :: 0 <= i < |parts| ==> sep !in parts[i]
  {
    if |s| == 0 then [""]
    else
      var rest := Split(s[1..], sep);
      if s[0] == sep then [""] + rest
      else [[s[0]] + rest[0]] + rest[1..]
  }

  /** `parts.join(sep)`; `[].join(sep)` is the empty string. */
  function Join(parts: seq<string>, sep: char): string {
    if |parts| == 0 then ""
    else if |parts| == 1 then parts[0]
    else parts[0] + [sep] + Join(parts[1..], sep)
  }

  /** Joining the pieces of a split gives back the original string. */
  lemma {:induction false} JoinSplit(s: string, sep: char)
    ensures Join(Split(s, sep), sep) == s
  {
    if |s| > 0 {
      var rest := Split(s[1..], sep);
      JoinSplit(s[1..], sep);
      if s[0] == sep {
        assert Split(s, sep) == [""] + rest;
        assert Join([""] + rest, sep) == "" + [sep] + Join(rest, sep);
        assert s == [s[0]] + s[1..];
      } else {
        var parts := Split(s, sep);
        assert parts == [[s[0]] + rest[0]] + rest[1..];
        if |rest| == 1 {
          assert Join(parts, sep) == [s[0]] + rest[0];
        } else {
          assert Join(parts, sep) == [s[0]] + rest[0] + [sep] + Join(rest[1..], sep);
          assert Join(rest, sep) == rest[0] + [sep] + Join(rest[1..], sep);
        }
        assert s == [s[0]] + s[1..];
      }
    }
  }

  /** Splitting a join of separator-free pieces gives back the pieces. */
  lemma {:induction false} SplitJoin(parts: seq<string>, sep: char)
    requires |parts| >= 1
    requires forall i :: 0 <= i < |parts| ==> sep !in parts[i]
    ensures Split(Join(parts, sep), sep) == parts
  {
    if |parts| == 1 {
      SplitFree(parts[0], sep);
    } else {
      SplitJoin(parts[1..], sep);
      SplitPrefix(parts[0], Join(parts[1..], sep), sep);
      assert Join(parts, sep) == parts[0] + ([sep] + Join(parts[1..], sep));
      assert [parts[0]] + parts[1..] == parts;
    }
  }

  /** A string without the separator splits into itself alone. */
  lemma {:induction false} SplitFree(s: string, sep: char)
    requires sep !in s
    ensures Split(s, sep) == [s]
  {
    if |s| > 0 {
      assert sep !in s[1..] by {
        forall k | 0 <= k < |s[1..]| ensures s[1..][k] != sep { assert s[1..][k] == s[k + 1]; }
      }
      SplitFree(s[1..], sep);
      assert s == [s[0]] + s[1..];
    }
  }

  /** Splitting `p + sep + t`, where `p` is separator-free, puts `p` first. */
  lemma {:induction false} SplitPrefix(p: string, t: string, sep: char)
    requires sep !in p
    ensures Split(p + ([sep] + t), sep) == [p] + Split(t, sep)
  {
    var s := p + ([sep] + t);
    if |p| == 0 {
      assert s == [sep] + t;
      assert s[1..] == t;
    } else {
      assert sep !in p[1..] by {
        forall k | 0 <= k < |p[1..]| ensures p[1..][k] != sep { assert p[1..][k] == p[k + 1]; }
      }
      SplitPrefix(p[1..], t, sep);
      assert s[1..] == p[1..] + ([sep] + t);
      assert s[0] == p[0];
      assert [p[0]] + p[1..] == p;
    }
  }

  // ---------------------------------------------------------------------
  // upper case

  function UpperChar(c: char): char {
    if 'a' <= c <= 'z' then (c as int - 'a' as int + 'A' as int) as char else c
  }

  /** `s.toUpperCase()` restricted to ASCII letters: each lower-case ASCII
      letter becomes its capital, every other character is kept. */
  function ToUpperAscii(s: string): (r: string)
    ensures |r| == |s|
    ensures forall i :: 0 <= i < |s| ==> r[i] == UpperChar(s[i])
  {
    seq(|s|, i requires 0 <= i < |s| => UpperChar(s[i]))
  }

  // ---------------------------------------------------------------------
  // decimal text of integers

  function DigitChar(d: nat): char
    requires d < 10
  {
    ('0' as int + d) as char
  }

  /** `${n}` for a non-negative integer: its decimal digits, without
      leading zeros. */
  function NatToString(n: nat): (r: string)
    ensures |r| >= 1
    ensures forall i :: 0 <= i < |r| ==> IsDecimalDigit(r[i])
    ensures r[0] == '0' ==> n == 0 && r == "0"
  {
    if n < 10 then [DigitChar(n)] else NatToString(n / 10) + [DigitChar(n % 10)]
  }

  /** `${i}` for an integer: a minus sign before the digits of a negative one. */
  function IntToString(i: int): string {
    if i < 0 then "-" + NatToString(-i) else NatToString(i)
  }

  // ---------------------------------------------------------------------
  // parseInt

  function HexDigitValue(c: char): (v: Option<nat>)
    ensures v.Some? ==> v.value < 16
  {
    if '0' <= c <= '9' then Some(c as int - '0' as int)
    else if 'a' <= c <= 'f' then Some(c as int - 'a' as int + 10)
    else if 'A' <= c <= 'F' then Some(c as int - 'A' as int + 10)
    else None
  }

  /** The value of `c` as a digit in base `radix` (10 or 16), if it is one. */
  function DigitValue(c: char, radix: nat): (v: Option<nat>)
    requires radix == 10 || radix == 16
    ensures v.Some? ==> v.value < radix
  {
    var h := HexDigitValue(c);
    if h.Some? && h.value < radix then h else None
  }

  /** The longest prefix of `s` made of digits in base `radix`. */
  function LeadingDigits(s: string, radix: nat): (ds: string)
    requires radix == 10 || radix == 16
    ensures |ds| <= |s| && ds == s[..|ds|]
    ensures forall i :: 0 <= i < |ds| ==> DigitValue(ds[i], radix).Some?
    ensures |ds| < |s| ==> DigitValue(s[|ds|], radix).None?
  {
    if |s| == 0 || DigitValue(s[0], radix).None? then ""
    else [s[0]] + LeadingDigits(s[1..], radix)
  }

  /** The number the digit string `ds` denotes in base `radix`. */
  function DigitsValue(ds: string, radix: nat): nat
    requires radix == 10 || radix == 16
    requires forall i :: 0 <= i < |ds| ==> DigitValue(ds[i], radix).Some?
  {
    if |ds| == 0 then 0
    else DigitsValue(ds[..|ds| - 1], radix) * radix + DigitValue(ds[|ds| - 1], radix).value
  }

  /** `s` without its leading JavaScript whitespace. */
  function TrimStart(s: string): (r: string)
    ensures |r| <= |s| && r == s[|s| - |r|..]
    ensures |r| > 0 ==> !IsJsWhitespace(r[0])
  {
    if |s| > 0 && IsJsWhitespace(s[0]) then TrimStart(s[1..]) else s
  }

  /** The global `parseInt(s)` with no radix: leading whitespace is skipped,
      one `+` or `-` sign is read, a `0x`/`0X` prefix switches to base 16,
      and the longest run of digits that follows is the value; `None`
      stands for `NaN`, the result when there is no digit at all. */
  function ParseInt(s: string): (r: Option<int>)
    ensures r.None? <==> ParseDigits(s) == ""
  {
    var ds := ParseDigits(s);
    if ds == "" then None
    else
      var magnitude: int := DigitsValue(ds, ParseRadix(s));
      var v: int := if ParseNegative(s) then -magnitude else magnitude;
      Some(v)
  }

  /** The sign read by `parseInt`. */
  predicate ParseNegative(s: string) {
    var t := TrimStart(s);
    |t| > 0 && t[0] == '-'
  }

  /** What `parseInt` reads after the whitespace and the sign. */
  function Unsigned(s: string): string {
    var t := TrimStart(s);
    if |t| > 0 && (t[0] == '-' || t[0] == '+') then t[1..] else t
  }

  /** 16 when the unsigned part starts with `0x` or `0X`, else 10. */
  function ParseRadix(s: string): (radix: nat)
    ensures radix == 10 || radix == 16
  {
    var u := Unsigned(s);
    if |u| >= 2 && u[0] == '0' && (u[1] == 'x' || u[1] == 'X') then 16 else 10
  }

  /** The digits `parseInt` converts. */
  function ParseDigits(s: string): (ds: string)
    ensures forall i :: 0 <= i < |ds| ==> DigitValue(ds[i], ParseRadix(s)).Some?
  {
    var u := Unsigned(s);
    var radix := ParseRadix(s);
    LeadingDigits(if radix == 16 then u[2..] else u, radix)
  }

  // ---------------------------------------------------------------------
  // the round trip between the two

  lemma {:induction false} DecimalDigitsValue(n: nat)
    ensures forall i :: 0 <= i < |NatToString(n)| ==> DigitValue(NatToString(n)[i], 10).Some?
    ensures DigitsValue(NatToString(n), 10) == n
  {
    var s := NatToString(n);
    forall i | 0 <= i < |s| ensures DigitValue(s[i], 10).Some? {
      assert IsDecimalDigit(s[i]);
    }
    if n >= 10 {
      DecimalDigitsValue(n / 10);
      var p := NatToString(n / 10);
      assert s == p + [DigitChar(n % 10)];
      assert s[..|s| - 1] == p;
    }
  }

  lemma {:induction false} LeadingDigitsAll(s: string, radix: nat)
    requires radix == 10 || radix == 16
    requires forall i :: 0 <= i < |s| ==> DigitValue(s[i], radix).Some?
    ensures LeadingDigits(s, radix) == s
  {
    if |s| > 0 {
      LeadingDigitsAll(s[1..], radix);
      assert [s[0]] + s[1..] == s;
    }
  }

  /** A decimal text starts with neither whitespace, nor a sign, nor `0x`,
      so `parseInt` reads it unchanged in base 10. */
  lemma DecimalTextUnsigned(s: string)
    requires |s| >= 1 && forall i :: 0 <= i < |s| ==> IsDecimalDigit(s[i])
    ensures Unsigned(s) == s && ParseRadix(s) == 10 && !ParseNegative(s)
  {
    assert IsDecimalDigit(s[0]);
    assert TrimStart(s) == s;
    assert |s| >= 2 ==> IsDecimalDigit(s[1]);
  }

  /** After a minus sign, `parseInt` reads a decimal text in base 10. */
  lemma NegativeTextUnsigned(d: string)
    requires |d| >= 1 && forall i :: 0 <= i < |d| ==> IsDecimalDigit(d[i])
    ensures Unsigned("-" + d) == d && ParseRadix("-" + d) == 10 && ParseNegative("-" + d)
  {
    var s := "-" + d;
    assert !IsJsWhitespace(s[0]);
    assert TrimStart(s) == s;
    assert s[1..] == d;
    DecimalTextUnsigned(d);
  }

  /** `parseInt` reads back the decimal text of every non-negative integer. */
  lemma ParseNatToString(n: nat)
    ensures ParseInt(NatToString(n)) == Some(n)
  {
    var s := NatToString(n);
    DecimalTextUnsigned(s);
    DecimalDigitsValue(n);
    LeadingDigitsAll(s, 10);
    assert ParseDigits(s) == s;
  }

  /** `parseInt` reads back the decimal text of every integer. */
  lemma ParseIntToString(i: int)
    ensures ParseInt(IntToString(i)) == Some(i)
  {
    if i >= 0 {
      ParseNatToString(i);
    } else {
      var d := NatToString(-i);
      var s := IntToString(i);
      NegativeTextUnsigned(d);
      DecimalDigitsValue(-i);
      LeadingDigitsAll(d, 10);
      assert ParseDigits(s) == d;
    }
  }
}
