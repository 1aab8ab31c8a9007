/**
 * The string operations of Rust's standard library that the player's parsers and formatters rely on:
 * `trim`, `lines`, `split`, `join`, integer and decimal parsing, integer formatting, ASCII lowercasing,
 * and UTF-8 byte lengths (Rust measures `str::len` in bytes).
 */
module Text {
  import opened Wrappers

  /** The Unicode White_Space property, which is what `str::trim` strips. */
  predicate IsWhitespace(c: char) {
    ('\t' <= c <= '\r') || c == ' ' || c == '\U{85}' || c == '\U{A0}' || c == '\U{1680}'
    || ('\U{2000}' <= c <= '\U{200A}') || c == '\U{2028}' || c == '\U{2029}' || c == '\U{202F}'
    || c == '\U{205F}' || c == '\U{3000}'
  }

  /** `str::trim_start`: `s` without its leading whitespace. */
  function TrimStart(s: string): (r: string)
    ensures |r| <= |s|
    ensures r != [] ==> !IsWhitespace(r[0])
  {
    if s != [] && IsWhitespace(s[0]) then TrimStart(s[1..]) else s
  }

  /** `str::trim_end`: `s` without its trailing whitespace. */
  function TrimEnd(s: string): (r: string)
    ensures |r| <= |s|
    ensures r != [] ==> !IsWhitespace(r[|r| - 1])
  {
    if s != [] && IsWhitespace(s[|s| - 1]) then TrimEnd(s[..|s| - 1]) else s
  }

  /** Trimming the start keeps a suffix of the text, and everything it drops is whitespace. */
  lemma {:induction false} TrimStartSuffix(s: string)
    ensures TrimStart(s) == s[|s| - |TrimStart(s)|..]
    ensures forall k :: 0 <= k < |s| - |TrimStart(s)| ==> IsWhitespace(s[k])
  {
    if s != [] && IsWhitespace(s[0]) {
      TrimStartSuffix(s[1..]);
      assert s[1..][|s| - 1 - |TrimStart(s)|..] == s[|s| - |TrimStart(s)|..];
    }
  }

  /** Trimming the end keeps a prefix of the text, and everything it drops is whitespace. */
  lemma {:induction false} TrimEndPrefix(s: string)
    ensures TrimEnd(s) == s[..|TrimEnd(s)|]
    ensures forall k :: |TrimEnd(s)| <= k < |s| ==> IsWhitespace(s[k])
  {
    if s != [] && IsWhitespace(s[|s| - 1]) {
      TrimEndPrefix(s[..|s| - 1]);
      assert s[..|s| - 1][..|TrimEnd(s)|] == s[..|TrimEnd(s)|];
    }
  }

  /** `str::trim`. */
  function Trim(s: string): string {
    TrimEnd(TrimStart(s))
  }

  predicate NoWhitespace(s: string) {
    forall i :: 0 <= i < |s| ==> !IsWhitespace(s[i])
  }

  lemma TrimNoWhitespace(s: string)
    requires NoWhitespace(s)
    ensures Trim(s) == s
  {
  }

  /** The index of the first `c` in `s`, or `|s|` when there is none. */
  function IndexOf(s: string, c: char): (i: nat)
    ensures i <= |s|
    ensures i < |s| ==> s[i] == c
    ensures forall j :: 0 <= j < i ==> s[j] != c
  {
    if s == [] then 0 else if s[0] == c then 0 else 1 + IndexOf(s[1..], c)
  }

  /** The first `c` is at `k` when `s[k]` is one and none comes before it. */
  lemma {:induction false} IndexOfAt(s: string, c: char, k: nat)
    requires k < |s| && s[k] == c
    requires forall j :: 0 <= j < k ==> s[j] != c
    ensures IndexOf(s, c) == k
  {
    if k > 0 {
      IndexOfAt(s[1..], c, k - 1);
    }
  }

  /** Without any `c` in `s`, `IndexOf` reports the end of `s`. */
  lemma {:induction false} IndexOfAbsent(s: string, c: char)
    requires forall j :: 0 <= j < |s| ==> s[j] != c
    ensures IndexOf(s, c) == |s|
  {
    if s != [] {
      IndexOfAbsent(s[1..], c);
    }
  }

  /**
   * `str::lines`: the text is cut after every '\n'; a line that ended with '\n' also loses one
   * '\r' before it; a final line without '\n' is kept as it is, and no empty line follows a final '\n'.
   */
  function Lines(s: string): seq<string>
    decreases |s|
  {
    if s == [] then []
    else
      var i := IndexOf(s, '\n');
      if i == |s| then [s]
      else
        var line := s[..i];
        [if line != [] && line[|line| - 1] == '\r' then line[..|line| - 1] else line] + Lines(s[i + 1..])
  }

  /** A line that holds no '\n' and does not end in '\r' comes back unchanged from `lines`. */
  lemma LinesCons(line: string, rest: string)
    requires '\n' !in line
    requires line == [] || line[|line| - 1] != '\r'
    ensures Lines(line + "\n" + rest) == [line] + Lines(rest)
  {
    var s := line + "\n" + rest;
    forall j | 0 <= j < |line| ensures s[j] != '\n' {
      assert s[j] == line[j];
    }
    IndexOfAt(s, '\n', |line|);
    assert s[..|line|] == line;
    assert s[|line| + 1..] == rest;
  }

  lemma LinesSingle(line: string)
    requires '\n' !in line && line != []
    ensures Lines(line) == [line]
  {
    assert IndexOf(line, '\n') == |line|;
  }

  /** Three lines joined by '\n', the last non-empty, come back as those three lines. */
  lemma LinesThree(a: string, b: string, c: string)
    requires '\n' !in a && '\n' !in b && '\n' !in c && c != []
    requires (a == [] || a[|a| - 1] != '\r') && (b == [] || b[|b| - 1] != '\r')
    ensures Lines(a + "\n" + b + "\n" + c) == [a, b, c]
  {
    var tail := b + "\n" + c;
    calc {
      Lines(a + "\n" + b + "\n" + c);
      { JoinRegroup(a, b, c); }
      Lines(a + "\n" + tail);
      { LinesCons(a, tail); }
      [a] + Lines(tail);
      { LinesCons(b, c); }
      [a] + ([b] + Lines(c));
      { LinesSingle(c); }
      [a] + ([b] + [c]);
    }
  }

  lemma JoinRegroup(a: string, b: string, c: string)
    ensures a + "\n" + b + "\n" + c == a + "\n" + (b + "\n" + c)
  {
  }

  /** `str::split` on a single character; the empty string splits into one empty field. */
  function Split(s: string, sep: char): (parts: seq<string>)
    ensures |parts| >= 1
    decreases |s|
  {
    var i := IndexOf(s, sep);
    if i == |s| then [s] else [s[..i]] + Split(s[i + 1..], sep)
  }

  /** `[String]::join`. */
  function Join(parts: seq<string>, sep: string): string {
    if parts == [] then ""
    else if |parts| == 1 then parts[0]
    else parts[0] + sep + Join(parts[1..], sep)
  }

  /** Splitting a join on its separator gives the fields back when no field holds the separator. */
  lemma {:induction false} SplitJoin(parts: seq<string>, sep: char)
    requires |parts| >= 1
    requires forall k :: 0 <= k < |parts| ==> sep !in parts[k]
    ensures Split(Join(parts, [sep]), sep) == parts
  {
    var p := parts[0];
    if |parts| == 1 {
      assert IndexOf(p, sep) == |p|;
    } else {
      var rest := Join(parts[1..], [sep]);
      var s := p + [sep] + rest;
      assert Join(parts, [sep]) == s;
      assert IndexOf(s, sep) == |p| by {
        assert s[|p|] == sep;
        assert forall j :: 0 <= j < |p| ==> s[j] == p[j];
      }
      assert s[..|p|] == p;
      assert s[|p| + 1..] == rest;
      SplitJoin(parts[1..], sep);
      assert [parts[0]] + parts[1..] == parts;
    }
  }

  // ----- Digits and numbers -----

  predicate IsDigit(c: char) {
    '0' <= c <= '9'
  }

  /** `char::to_digit(radix)`: decimal digits, then letters of either case from 10 up. */
  function ToDigit(c: char, radix: nat): (d: Option<nat>)
    ensures d.Some? ==> d.value < radix
    ensures radix == 10 ==> (d.Some? <==> IsDigit(c))
  {
    var v := if '0' <= c <= '9' then c as int - '0' as int
             else if 'a' <= c <= 'z' then c as int - 'a' as int + 10
             else if 'A' <= c <= 'Z' then c as int - 'A' as int + 10
             else 36;
    if v < radix then Some(v) else None
  }

  /** The value of a string made only of digits of `radix`, most significant first. */
  function DigitsValue(s: string, radix: nat): Option<nat>
  {
    if s == [] then Some(0)
    else
      match (DigitsValue(s[..|s| - 1], radix), ToDigit(s[|s| - 1], radix))
      case (Some(high), Some(low)) => Some(high * radix + low)
      case _ => None
  }

  /**
   * Unsigned `from_str_radix` / `parse`: an optional '+', then at least one digit, and a value
   * below `bound` (2^32 for `u32`, 2^64 for `usize`).
   */
  function ParseUnsigned(s: string, radix: nat, bound: nat): Option<nat> {
    var body := if s != [] && s[0] == '+' then s[1..] else s;
    if body == [] then None
    else
      match DigitsValue(body, radix)
      case Some(v) => if v < bound then Some(v) else None
      case None => None
  }

  const USIZE_BOUND: nat := 0x1_0000_0000_0000_0000
  const U32_BOUND: nat := 0x1_0000_0000

  function DigitChar(d: nat): (c: char)
    requires d < 10
    ensures IsDigit(c) && ToDigit(c, 10) == Some(d)
  {
    ('0' as int + d) as char
  }

  /** `format!("{}", n)` for an unsigned integer. */
  function NatToString(n: nat): (s: string)
    ensures s != []
    ensures forall i :: 0 <= i < |s| ==> IsDigit(s[i])
  {
    if n < 10 then [DigitChar(n)] else NatToString(n / 10) + [DigitChar(n % 10)]
  }

  lemma {:induction false} DigitsValueNatToString(n: nat)
    ensures DigitsValue(NatToString(n), 10) == Some(n)
  {
    var s := NatToString(n);
    if n < 10 {
      assert s[..0] == [];
    } else {
      DigitsValueNatToString(n / 10);
      assert s[..|s| - 1] == NatToString(n / 10);
    }
  }

  lemma {:induction false} NatToStringNoWhitespace(n: nat)
    ensures NoWhitespace(NatToString(n))
  {
    var s := NatToString(n);
    forall i | 0 <= i < |s| ensures !IsWhitespace(s[i]) {
      assert IsDigit(s[i]);
    }
  }

  /** Parsing a formatted unsigned integer gives it back, and trimming changes nothing. */
  lemma {:induction false} ParseNatToString(n: nat, bound: nat)
    requires n < bound
    ensures Trim(NatToString(n)) == NatToString(n)
    ensures ParseUnsigned(NatToString(n), 10, bound) == Some(n)
    ensures ParseUnsigned(Trim(NatToString(n)), 10, bound) == Some(n)
  {
    var s := NatToString(n);
    NatToStringNoWhitespace(n);
    TrimNoWhitespace(s);
    assert s[0] != '+' by { assert IsDigit(s[0]); }
    DigitsValueNatToString(n);
  }

  /** `f` divided by ten `k` times: the value of `k` digits after the decimal point. */
  function Fraction(f: nat, k: nat): (r: real)
    ensures r >= 0.0
  {
    if k == 0 then f as real else Fraction(f, k - 1) / 10.0
  }

  /**
   * Decimal float parsing: an optional sign, digits, and an optional '.' with more digits, at least
   * one digit in all ("1", "-1.5", "+.5", "2." are accepted; "", ".", "1e3" and "nan" are not).
   */
  function ParseDecimal(s: string): Option<real> {
    var body := if s != [] && (s[0] == '-' || s[0] == '+') then s[1..] else s;
    match UnsignedDecimal(body)
    case Some(v) => Some(if s != [] && s[0] == '-' then -v else v)
    case None => None
  }

  /** The unsigned part of a decimal float: digits and an optional '.' with more digits, at least one digit in all. */
  function UnsignedDecimal(body: string): (r: Option<real>)
    ensures r.Some? ==> r.value >= 0.0
  {
    var dot := IndexOf(body, '.');
    var whole := if dot < |body| then body[..dot] else body;
    var frac := if dot < |body| then body[dot + 1..] else "";
    if |whole| + |frac| == 0 then None
    else
      match (DigitsValue(whole, 10), DigitsValue(frac, 10))
      case (Some(w), Some(f)) => Some(w as real + Fraction(f, |frac|))
      case _ => None
  }

  /** `format!("{}", g)` for a float holding a whole number. */
  function FormatWhole(g: int): (s: string)
    ensures s != [] && NoWhitespace(s) && ',' !in s && '\n' !in s && s[|s| - 1] != '\r'
  {
    var digits := NatToString(if g < 0 then -g else g);
    assert forall i :: 0 <= i < |digits| ==> IsDigit(digits[i]);
    if g < 0 then "-" + digits else digits
  }

  /** A nonempty run of decimal digits is a whole number. */
  lemma UnsignedDecimalDigits(digits: string, n: nat)
    requires digits != [] && forall i :: 0 <= i < |digits| ==> IsDigit(digits[i])
    requires DigitsValue(digits, 10) == Some(n)
    ensures UnsignedDecimal(digits) == Some(n as real)
  {
    IndexOfAbsent(digits, '.');
  }

  /** A whole number written in decimal, with or without a leading '-', parses back to itself. */
  lemma ParseSignedNat(sign: string, n: nat)
    requires sign == "" || sign == "-"
    ensures ParseDecimal(sign + NatToString(n)) == Some(if sign == "" then n as real else -(n as real))
  {
    var digits := NatToString(n);
    DigitsValueNatToString(n);
    UnsignedDecimalDigits(digits, n);
    StripSign(sign, digits);
  }

  /** `ParseDecimal` takes a leading '-' as the sign and leaves the digits after it as the body. */
  lemma StripSign(sign: string, digits: string)
    requires sign == "" || sign == "-"
    requires digits != [] && IsDigit(digits[0])
    ensures var s := sign + digits;
      (if s != [] && (s[0] == '-' || s[0] == '+') then s[1..] else s) == digits
      && (s != [] && s[0] == '-' <==> sign == "-")
  {
    var s := sign + digits;
    if sign == "" {
      assert s == digits;
    } else {
      assert s[1..] == digits;
    }
  }

  lemma ParseFormatWhole(g: int)
    ensures ParseDecimal(FormatWhole(g)) == Some(g as real)
  {
    var sign := if g < 0 then "-" else "";
    var n: nat := if g < 0 then -g else g;
    ParseSignedNat(sign, n);
    assert FormatWhole(g) == sign + NatToString(n);
  }

  // ----- Characters -----

  /** `char::to_ascii_lowercase`. */
  function AsciiLower(c: char): char {
    if 'A' <= c <= 'Z' then (c as int + 32) as char else c
  }

  /** `str::to_ascii_lowercase`. */
  function Lower(s: string): (r: string)
    ensures |r| == |s|
    ensures forall i :: 0 <= i < |s| ==> r[i] == AsciiLower(s[i])
  {
    seq(|s|, i requires 0 <= i < |s| => AsciiLower(s[i]))
  }

  /** The number of bytes of a character's UTF-8 encoding. */
  function Utf8Len(c: char): nat {
    if c as int < 0x80 then 1 else if c as int < 0x800 then 2 else if c as int < 0x1_0000 then 3 else 4
  }

  /** `str::len`: the length in UTF-8 bytes. */
  function ByteLen(s: string): (n: nat)
    ensures n >= |s|
  {
    if s == [] then 0 else ByteLen(s[..|s| - 1]) + Utf8Len(s[|s| - 1])
  }

  lemma {:induction false} AsciiByteLen(s: string)
    requires forall i :: 0 <= i < |s| ==> s[i] as int < 0x80
    ensures ByteLen(s) == |s|
  {
    if s != [] {
      AsciiByteLen(s[..|s| - 1]);
    }
  }

  /** `format!("{:<n}", s)`: pad with spaces on the right to at least `n` characters. */
  function PadRight(s: string, n: nat): (r: string)
    ensures |r| == if |s| >= n then |s| else n
    ensures r[..|s|] == s
    ensures forall i :: |s| <= i < |r| ==> r[i] == ' '
  {
    if |s| >= n then s else s + seq(n - |s|, _ => ' ')
  }
}
