/**
 * The JavaScript string operations the editor relies on: `Array.prototype.join`,
 * rendering an integer with `${n}`, `parseInt` without a radix, and the ASCII part
 * of `toLowerCase` / `toUpperCase`.
 */
module Text {
  import opened Wrappers

  /** `parts.join(sep)`. */
  function Join(parts: seq<string>, sep: string): string
  {
    if |parts| == 0 then ""
    else if |parts| == 1 then parts[0]
    else parts[0] + sep + Join(parts[1..], sep)
  }

  /** Joining one more part appends the separator and then that part, so the
      parts appear in the result in their order. */
  lemma {:induction false} JoinSnoc(parts: seq<string>, sep: string, last: string)
    requires |parts| > 0
    ensures Join(parts + [last], sep) == Join(parts, sep) + sep + last
  {
    if |parts| == 1 {
      assert parts + [last] == [parts[0], last];
      assert [parts[0], last][1..] == [last];
    } else {
      assert (parts + [last])[1..] == parts[1..] + [last];
      JoinSnoc(parts[1..], sep, last);
    }
  }

  /** `sub` occurs in `s` starting at index `i`. */
  ghost predicate OccursAt(sub: string, s: string, i: int)
  {
    0 <= i <= |s| - |sub| && s[i..i + |sub|] == sub
  }

  /** `s.includes(sub)`. */
  ghost predicate IsInfix(sub: string, s: string)
  {
    exists i :: OccursAt(sub, s, i)
  }

  /** A string occurs in any string that has it between two others. */
  lemma InfixBetween(a: string, sub: string, b: string)
    ensures IsInfix(sub, a + sub + b)
  {
    var s := a + sub + b;
    assert s[|a|..|a| + |sub|] == sub;
    assert OccursAt(sub, s, |a|);
  }

  /** Occurrence survives adding text on either side. */
  lemma InfixWiden(sub: string, s: string, a: string, b: string)
    requires IsInfix(sub, s)
    ensures IsInfix(sub, a + s + b)
  {
    var i :| OccursAt(sub, s, i);
    var t := a + s + b;
    assert t[|a| + i..|a| + i + |sub|] == s[i..i + |sub|];
    assert OccursAt(sub, t, |a| + i);
  }

  /** Occurrence survives adding text in front. */
  lemma InfixAfter(sub: string, s: string, a: string)
    requires IsInfix(sub, s)
    ensures IsInfix(sub, a + s)
  {
    var i :| OccursAt(sub, s, i);
    var t := a + s;
    assert t[|a| + i..|a| + i + |sub|] == s[i..i + |sub|];
    assert OccursAt(sub, t, |a| + i);
  }

  /** Every part of a join occurs in the joined string. */
  lemma {:induction false} InfixOfJoin(parts: seq<string>, sep: string, k: nat)
    requires k < |parts|
    ensures IsInfix(parts[k], Join(parts, sep))
  {
    if |parts| == 1 {
      InfixBetween("", parts[0], "");
      assert "" + parts[0] + "" == parts[0];
    } else if k == 0 {
      InfixBetween("", parts[0], sep + Join(parts[1..], sep));
      assert "" + parts[0] + (sep + Join(parts[1..], sep)) == Join(parts, sep);
    } else {
      InfixOfJoin(parts[1..], sep, k - 1);
      InfixWiden(parts[k], Join(parts[1..], sep), parts[0] + sep, "");
      assert parts[0] + sep + Join(parts[1..], sep) + "" == Join(parts, sep);
    }
  }

  /** Every part of a join occurs in it, whichever part. */
  lemma JoinHasEveryPart(parts: seq<string>, sep: string)
    ensures forall k :: 0 <= k < |parts| ==> IsInfix(parts[k], Join(parts, sep))
  {
    forall k | 0 <= k < |parts| ensures IsInfix(parts[k], Join(parts, sep)) {
      InfixOfJoin(parts, sep, k);
    }
  }

  /** A prefix of a string is a prefix of anything that string starts. */
  lemma PrefixOfAppend(p: string, a: string, b: string)
    requires p <= a
    ensures p <= a + b
  {
    assert (a + b)[..|p|] == a[..|p|];
  }

  /** The parts written one after the other: a template string with its
      placeholders filled in. */
  function Concat(parts: seq<string>): string
  {
    Join(parts, "")
  }

  /** A concatenation starts with its first part. */
  lemma ConcatStartsWith(parts: seq<string>)
    requires |parts| > 0
    ensures parts[0] <= Concat(parts)
  {
    if |parts| > 1 {
      PrefixOfAppend(parts[0], parts[0], "" + Join(parts[1..], ""));
      assert Concat(parts) == parts[0] + ("" + Join(parts[1..], ""));
    }
  }

  // ---------------------------------------------------------------------------
  // Integers as text

  predicate IsDigit(c: char) {
    '0' <= c <= '9'
  }

  function DigitChar(d: int): (c: char)
    requires 0 <= d < 10
    ensures IsDigit(c) && c as int - '0' as int == d
  {
    (48 + d) as char
  }

  /** The decimal digits of `n`, most significant first, without leading zeros. */
  function NatToString(n: nat): (r: string)
    ensures |r| > 0 && forall i :: 0 <= i < |r| ==> IsDigit(r[i])
    ensures n > 0 ==> r[0] != '0'
  {
    if n < 10 then [DigitChar(n)] else NatToString(n / 10) + [DigitChar(n % 10)]
  }

  /** `${n}` for an integer-valued JavaScript number. */
  function IntToString(n: int): string
  {
    if n < 0 then "-" + NatToString(-n) else NatToString(n)
  }

  // ---------------------------------------------------------------------------
  // parseInt(s) with no radix argument

  /** JavaScript's StrWhiteSpaceChar: white space and line terminators. */
  predicate IsJsWhitespace(c: char) {
    c == ' ' || c == '\t' || c == '\n' || c == '\r' || c == '\U{000B}' || c == '\U{000C}'
    || c == '\U{00A0}' || c == '\U{1680}' || ('\U{2000}' <= c <= '\U{200A}')
    || c == '\U{2028}' || c == '\U{2029}' || c == '\U{202F}' || c == '\U{205F}'
    || c == '\U{3000}' || c == '\U{FEFF}'
  }

  /** `s` without its leading white space. */
  function TrimStart(s: string): (r: string)
    ensures |r| <= |s| && r == s[|s| - |r|..]
    ensures r == [] || !IsJsWhitespace(r[0])
    ensures forall i :: 0 <= i < |s| - |r| ==> IsJsWhitespace(s[i])
  {
    if |s| > 0 && IsJsWhitespace(s[0]) then TrimStart(s[1..]) else s
  }

  /** The value of `c` as a digit of radix up to 36, or 36 when it is no digit. */
  function CharValue(c: char): (v: int)
    ensures 0 <= v <= 36
  {
    if '0' <= c <= '9' then c as int - '0' as int
    else if 'a' <= c <= 'z' then c as int - 'a' as int + 10
    else if 'A' <= c <= 'Z' then c as int - 'A' as int + 10
    else 36
  }

  /** The length of the longest prefix of `s` made of digits of `radix`. */
  function DigitRun(s: string, radix: int): (n: nat)
    ensures n <= |s|
    ensures forall i :: 0 <= i < n ==> CharValue(s[i]) < radix
    ensures n < |s| ==> CharValue(s[n]) >= radix
  {
    if |s| > 0 && CharValue(s[0]) < radix then 1 + DigitRun(s[1..], radix) else 0
  }

  /** The number that the digits `ds` denote in `radix`. */
  function DigitsValue(ds: string, radix: int): int
  {
    if |ds| == 0 then 0
    else DigitsValue(ds[..|ds| - 1], radix) * radix + CharValue(ds[|ds| - 1])
  }

  /** The longest run of `radix` digits at the start of `body`, as a number;
      None when there is none. */
  function ParseDigits(body: string, radix: int): Option<int>
  {
    var n := DigitRun(body, radix);
    if n == 0 then None else Some(DigitsValue(body[..n], radix))
  }

  /** An unsigned number: a `0x`/`0X` prefix selects hexadecimal, otherwise decimal. */
  function ParseUnsigned(u: string): Option<int>
  {
    if |u| >= 2 && u[0] == '0' && (u[1] == 'x' || u[1] == 'X') then ParseDigits(u[2..], 16)
    else ParseDigits(u, 10)
  }

  /** An optional sign, then an unsigned number. */
  function ParseSigned(t: string): Option<int>
  {
    if |t| > 0 && t[0] == '-' then
      match ParseUnsigned(t[1..])
      case Some(v) => Some(-v)
      case None => None
    else if |t| > 0 && t[0] == '+' then ParseUnsigned(t[1..])
    else ParseUnsigned(t)
  }

  /** `parseInt(s)`: skip white space, read an optional sign, then a `0x`/`0X`
      prefix selects hexadecimal; the longest run of digits after that is the
      number. None stands for NaN, which is what a string without any digit gives. */
  function ParseInt(s: string): Option<int>
  {
    ParseSigned(TrimStart(s))
  }

  lemma {:induction false} DigitsValueOfNatToString(n: nat)
    ensures DigitsValue(NatToString(n), 10) == n
  {
    var s := NatToString(n);
    if n >= 10 {
      DigitsValueOfNatToString(n / 10);
      assert s[..|s| - 1] == NatToString(n / 10);
    }
  }

  lemma {:induction false} DigitRunWhole(s: string, radix: int)
    requires forall i :: 0 <= i < |s| ==> CharValue(s[i]) < radix
    ensures DigitRun(s, radix) == |s|
  {
    if |s| > 0 {
      DigitRunWhole(s[1..], radix);
    }
  }

  /** The decimal digits of a natural number, with no prefix, parse back to it. */
  lemma ParseUnsignedOfNatToString(n: nat)
    ensures ParseUnsigned(NatToString(n)) == Some(n)
  {
    var digits := NatToString(n);
    DigitsValueOfNatToString(n);
    DigitRunWhole(digits, 10);
    assert digits[..|digits|] == digits;
    assert |digits| >= 2 ==> digits[1] != 'x' && digits[1] != 'X' by {
      if |digits| >= 2 { assert IsDigit(digits[1]); }
    }
  }

  lemma ParseSignedOfNatToString(n: nat)
    ensures ParseSigned(NatToString(n)) == Some(n)
    ensures ParseSigned("-" + NatToString(n)) == Some(-(n as int))
  {
    var digits := NatToString(n);
    ParseUnsignedOfNatToString(n);
    assert IsDigit(digits[0]);
    assert ("-" + digits)[1..] == digits;
  }

  /** Reading back what `${n}` wrote gives `n`. */
  lemma ParseIntOfIntToString(n: int)
    ensures ParseInt(IntToString(n)) == Some(n)
  {
    var s := IntToString(n);
    if n < 0 {
      ParseSignedOfNatToString(-n);
      assert s == "-" + NatToString(-n);
      assert !IsJsWhitespace(s[0]);
    } else {
      ParseSignedOfNatToString(n);
      assert IsDigit(s[0]);
      assert !IsJsWhitespace(s[0]);
    }
    assert TrimStart(s) == s;
  }

  // ---------------------------------------------------------------------------
  // Case mapping (ASCII letters)

  function LowerChar(c: char): char {
    if 'A' <= c <= 'Z' then (c as int + 32) as char else c
  }

  function UpperChar(c: char): char {
    if 'a' <= c <= 'z' then (c as int - 32) as char else c
  }

  /** `s.toLowerCase()`. */
  function ToLower(s: string): (r: string)
    ensures |r| == |s|
    ensures forall i :: 0 <= i < |s| ==> r[i] == LowerChar(s[i])
    ensures forall i :: 0 <= i < |r| ==> !('A' <= r[i] <= 'Z')
  {
    if |s| == 0 then [] else [LowerChar(s[0])] + ToLower(s[1..])
  }

  /** `s.charAt(0).toUpperCase() + s.slice(1)`. */
  function Capitalize(s: string): (r: string)
    ensures |r| == |s|
    ensures |s| > 0 ==> r[0] == UpperChar(s[0]) && !('a' <= r[0] <= 'z') && r[1..] == s[1..]
  {
    if |s| == 0 then "" else [UpperChar(s[0])] + s[1..]
  }
}
