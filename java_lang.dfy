/**
 * The parts of the Java runtime that the core relies on: `int` and `byte`, `String.trim`,
 * `toLowerCase` on provider names, the decimal text of an `int`, `Integer.parseInt`
 * and the narrowing of a long integer to a 32-bit `int`.
 */
module JavaLang {
  import opened Wrappers

  const IntMin: int := -0x8000_0000
  const IntMax: int := 0x7fff_ffff

  /** A value of Java's 32-bit `int`. */
  type Int32 = n: int | IntMin <= n <= IntMax

  /**
   * A Java `double`, kept as the text `Double.toString` writes for it: the core only stores,
   * reads back and appends doubles, and never computes with them.
   */
  datatype Double = Double(text: string)

  /** An element of a `byte[]`, read as the unsigned octet it carries. */
  type byte = b: int | 0 <= b < 256

  /** Characters that `String.trim` removes: every code point up to and including the space. */
  predicate IsTrimmed(c: char) {
    c <= ' '
  }

  /** `s` with its leading trimmable characters removed. */
  function DropLeading(s: string): (r: string)
    ensures |r| <= |s| && r == s[|s| - |r|..]
    ensures r != [] ==> !IsTrimmed(r[0])
    ensures forall i :: 0 <= i < |s| - |r| ==> IsTrimmed(s[i])
  {
    if s != [] && IsTrimmed(s[0]) then DropLeading(s[1..]) else s
  }

  /** `s` with its trailing trimmable characters removed. */
  function DropTrailing(s: string): (r: string)
    ensures |r| <= |s| && r == s[..|r|]
    ensures r != [] ==> !IsTrimmed(r[|r| - 1])
    ensures forall i :: |r| <= i < |s| ==> IsTrimmed(s[i])
  {
    if s != [] && IsTrimmed(s[|s| - 1]) then DropTrailing(s[..|s| - 1]) else s
  }

  /** Java's `String.trim()`. */
  function Trim(s: string): string {
    DropTrailing(DropLeading(s))
  }

  /** Java's `s == null || s.trim().isEmpty()`, for a non-null `s`. */
  predicate IsBlank(s: string) {
    Trim(s) == []
  }

  /** A string is blank exactly when every one of its characters is one that `trim` removes. */
  lemma BlankIffAllTrimmed(s: string)
    ensures IsBlank(s) <==> forall i :: 0 <= i < |s| ==> IsTrimmed(s[i])
  {
    var d := DropLeading(s);
    if d != [] {
      assert d[0] == s[|s| - |d|];
    }
  }

  /** A string with no trimmable character at either end is its own trim. */
  lemma TrimOfUntrimmed(s: string)
    requires s != [] && !IsTrimmed(s[0]) && !IsTrimmed(s[|s| - 1])
    ensures Trim(s) == s
  {
  }

  /** `Character.toLowerCase` restricted to ASCII letters. */
  function LowerChar(c: char): char {
    if 'A' <= c <= 'Z' then (c as int + 32) as char else c
  }

  /** `toLowerCase` on a string, letter by letter, for ASCII upper case. */
  function LowerAscii(s: string): (r: string)
    ensures |r| == |s|
  {
    if s == [] then [] else [LowerChar(s[0])] + LowerAscii(s[1..])
  }

  /** `s` spells the lower-case word `t`, each letter in either case. */
  predicate EqualsIgnoringCase(s: string, t: string) {
    |s| == |t| && forall i :: 0 <= i < |s| ==> s[i] == t[i] || s[i] as int == t[i] as int - 32
  }

  predicate IsLowerWord(t: string) {
    forall i :: 0 <= i < |t| ==> 'a' <= t[i] <= 'z'
  }

  /**
   * Case-insensitive matching: for a lower-case word `t`, `s` lower-cases to `t` exactly when
   * `s` has the length of `t` and each of its characters is the letter of `t` or its capital.
   */
  lemma {:induction false} LowerAsciiMatches(s: string, t: string)
    requires IsLowerWord(t)
    ensures LowerAscii(s) == t <==> EqualsIgnoringCase(s, t)
  {
    if s != [] && t != [] {
      LowerAsciiMatches(s[1..], t[1..]);
      var rest := LowerAscii(s[1..]);
      assert LowerAscii(s) == [LowerChar(s[0])] + rest;
      if LowerAscii(s) == t {
        assert LowerChar(s[0]) == t[0] && rest == t[1..];
        forall i | 0 <= i < |s|
          ensures s[i] == t[i] || s[i] as int == t[i] as int - 32
        {
          if i > 0 { assert s[1..][i - 1] == s[i] && t[1..][i - 1] == t[i]; }
        }
      }
      if |s| == |t| && forall i :: 0 <= i < |s| ==> s[i] == t[i] || s[i] as int == t[i] as int - 32 {
        forall i | 0 <= i < |s| - 1
          ensures s[1..][i] == t[1..][i] || s[1..][i] as int == t[1..][i] as int - 32
        {
          assert s[1..][i] == s[i + 1] && t[1..][i] == t[i + 1];
        }
        assert LowerChar(s[0]) == t[0];
        assert LowerAscii(s) == [t[0]] + t[1..] == t;
      }
    }
  }

  function DigitChar(d: nat): (c: char)
    requires d < 10
    ensures '0' <= c <= '9'
  {
    ('0' as int + d) as char
  }

  predicate IsDigit(c: char) {
    '0' <= c <= '9'
  }

  predicate AllDigits(s: string) {
    forall i :: 0 <= i < |s| ==> IsDigit(s[i])
  }

  /** The decimal digits of `n`, most significant first, with no leading zero. */
  function NatText(n: nat): (r: string)
    ensures |r| >= 1 && AllDigits(r)
    ensures r[0] == '0' ==> n == 0
  {
    if n < 10 then [DigitChar(n)] else NatText(n / 10) + [DigitChar(n % 10)]
  }

  /** What Java's string concatenation or `%d` writes for an integer. */
  function IntText(n: int): (r: string)
    ensures r != [] && !IsTrimmed(r[0]) && !IsTrimmed(r[|r| - 1])
  {
    if n < 0 then "-" + NatText(-n) else NatText(n)
  }

  /** The value of a string of decimal digits. */
  function DigitsValue(s: string): nat
    requires AllDigits(s)
  {
    if s == [] then 0 else DigitsValue(s[..|s| - 1]) * 10 + (s[|s| - 1] as int - '0' as int)
  }

  lemma {:induction false} NatTextValue(n: nat)
    ensures DigitsValue(NatText(n)) == n
  {
    if n >= 10 {
      NatTextValue(n / 10);
      var r := NatText(n);
      assert r[..|r| - 1] == NatText(n / 10);
    }
  }

  /** Java's `Integer.parseInt` on a string holding an optional minus sign and digits. */
  function ParseInt(s: string): (r: Option<Int32>)
    ensures r.Some? ==> s != [] && s != "-"
  {
    var digits := if s != [] && s[0] == '-' then s[1..] else s;
    if digits == [] || !AllDigits(digits) then None
    else
      var v: int := if s[0] == '-' then -(DigitsValue(digits) as int) else DigitsValue(digits);
      if IntMin <= v <= IntMax then Some(v) else None
  }

  /** Parsing reads back the decimal text of every 32-bit integer. */
  lemma ParseIntText(n: Int32)
    ensures ParseInt(IntText(n)) == Some(n)
  {
    var s := IntText(n);
    if n < 0 {
      var m: nat := -(n as int);
      NatTextValue(m);
      assert s == "-" + NatText(m);
      assert s[0] == '-' && s[1..] == NatText(m);
      assert -(DigitsValue(s[1..]) as int) == n;
    } else {
      NatTextValue(n);
      assert s == NatText(n) && IsDigit(s[0]);
      assert DigitsValue(s) == n;
    }
  }

  /** The `(int)` narrowing of a long or big integer: the low 32 bits, read as signed. */
  function Wrap32(n: int): (r: Int32)
    ensures (r - n) % 0x1_0000_0000 == 0
    ensures IntMin <= n <= IntMax ==> r == n
  {
    (n - IntMin) % 0x1_0000_0000 + IntMin
  }
}
