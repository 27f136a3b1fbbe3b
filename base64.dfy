/**
 * The base 64 encoding of section 4 of RFC 4648, as `java.util.Base64.getEncoder()`
 * produces it (standard alphabet, `=` padding, no line breaks), and its decoding.
 */
module Base64 {
  import opened Wrappers
  import opened JavaLang

  /** The character for a 6-bit value, by Table 1 of RFC 4648. */
  function CharOf(v: nat): (c: char)
    requires v < 64
    ensures c != '='
  {
    if v < 26 then ('A' as int + v) as char
    else if v < 52 then ('a' as int + (v - 26)) as char
    else if v < 62 then ('0' as int + (v - 52)) as char
    else if v == 62 then '+'
    else '/'
  }

  /** The 6-bit value of an alphabet character; `None` for any other character, `=` included. */
  function ValueOf(c: char): (r: Option<nat>)
    ensures r.Some? ==> r.value < 64
  {
    if 'A' <= c <= 'Z' then Some(c as int - 'A' as int)
    else if 'a' <= c <= 'z' then Some(c as int - 'a' as int + 26)
    else if '0' <= c <= '9' then Some(c as int - '0' as int + 52)
    else if c == '+' then Some(62)
    else if c == '/' then Some(63)
    else None
  }

  lemma ValueOfCharOf(v: nat)
    requires v < 64
    ensures ValueOf(CharOf(v)) == Some(v)
  {
  }

  /** The four characters of a full group of three octets. */
  function EncodeGroup(b0: byte, b1: byte, b2: byte): string {
    [CharOf(b0 / 4), CharOf(b0 % 4 * 16 + b1 / 16), CharOf(b1 % 16 * 4 + b2 / 64), CharOf(b2 % 64)]
  }

  /** Four characters for each group of three octets; a final group of one or two is padded. */
  function Encode(b: seq<byte>): string {
    if |b| == 0 then []
    else if |b| == 1 then
      [CharOf(b[0] / 4), CharOf(b[0] % 4 * 16), '=', '=']
    else if |b| == 2 then
      [CharOf(b[0] / 4), CharOf(b[0] % 4 * 16 + b[1] / 16), CharOf(b[1] % 16 * 4), '=']
    else
      EncodeGroup(b[0], b[1], b[2]) + Encode(b[3..])
  }

  /** The encoding of n octets is 4 * ceil(n / 3) characters long. */
  lemma {:induction false} EncodeLength(b: seq<byte>)
    ensures |Encode(b)| == 4 * ((|b| + 2) / 3)
  {
    if |b| >= 3 {
      EncodeLength(b[3..]);
      assert |EncodeGroup(b[0], b[1], b[2])| == 4;
      assert |Encode(b)| == 4 + |Encode(b[3..])|;
      assert (|b| + 2) / 3 == (|b[3..]| + 2) / 3 + 1;
    }
  }

  /** The octets of one group of four characters, or `None` when the group is not well formed. */
  function DecodeGroup(c0: char, c1: char, c2: char, c3: char, last: bool): Option<seq<byte>> {
    var v0 :- ValueOf(c0);
    var v1 :- ValueOf(c1);
    if last && c2 == '=' && c3 == '=' then
      Some([v0 * 4 + v1 / 16])
    else
      var v2 :- ValueOf(c2);
      if last && c3 == '=' then
        Some([v0 * 4 + v1 / 16, v1 % 16 * 16 + v2 / 4])
      else
        var v3 :- ValueOf(c3);
        Some([v0 * 4 + v1 / 16, v1 % 16 * 16 + v2 / 4, v2 % 4 * 64 + v3])
  }

  /** Decoding: groups of four characters, padding allowed only in the final group. */
  function Decode(s: string): Option<seq<byte>>
    decreases |s|
  {
    if s == [] then Some([])
    else if |s| < 4 then None
    else
      var head :- DecodeGroup(s[0], s[1], s[2], s[3], |s| == 4);
      var tail :- Decode(s[4..]);
      Some(head + tail)
  }

  /** Splitting `hi * 16 + lo` by 16 gives back its two parts. */
  lemma DivMod16(hi: nat, lo: nat)
    requires lo < 16
    ensures (hi * 16 + lo) / 16 == hi && (hi * 16 + lo) % 16 == lo
  {
  }

  /** Splitting `hi * 4 + lo` by 4 gives back its two parts. */
  lemma DivMod4(hi: nat, lo: nat)
    requires lo < 4
    ensures (hi * 4 + lo) / 4 == hi && (hi * 4 + lo) % 4 == lo
  {
  }

  /** The four 6-bit values of three octets recombine into those octets. */
  lemma GroupValues(b0: byte, b1: byte, b2: byte)
    ensures var v0, v1, v2, v3 := b0 / 4, b0 % 4 * 16 + b1 / 16, b1 % 16 * 4 + b2 / 64, b2 % 64;
      v0 * 4 + v1 / 16 == b0 && v1 % 16 * 16 + v2 / 4 == b1 && v2 % 4 * 64 + v3 == b2
  {
    DivMod16(b0 % 4, b1 / 16);
    DivMod4(b1 % 16, b2 / 64);
  }

  lemma DecodeOneOctet(b0: byte)
    ensures DecodeGroup(CharOf(b0 / 4), CharOf(b0 % 4 * 16), '=', '=', true) == Some([b0])
  {
    ValueOfCharOf(b0 / 4);
    ValueOfCharOf(b0 % 4 * 16);
    GroupValues(b0, 0, 0);
  }

  lemma DecodeTwoOctets(b0: byte, b1: byte)
    ensures DecodeGroup(CharOf(b0 / 4), CharOf(b0 % 4 * 16 + b1 / 16), CharOf(b1 % 16 * 4), '=', true)
      == Some([b0, b1])
  {
    ValueOfCharOf(b0 / 4);
    ValueOfCharOf(b0 % 4 * 16 + b1 / 16);
    ValueOfCharOf(b1 % 16 * 4);
    GroupValues(b0, b1, 0);
  }

  lemma DecodeThreeOctets(b0: byte, b1: byte, b2: byte, last: bool)
    ensures DecodeGroup(CharOf(b0 / 4), CharOf(b0 % 4 * 16 + b1 / 16),
      CharOf(b1 % 16 * 4 + b2 / 64), CharOf(b2 % 64), last) == Some([b0, b1, b2])
  {
    ValueOfCharOf(b0 / 4);
    ValueOfCharOf(b0 % 4 * 16 + b1 / 16);
    ValueOfCharOf(b1 % 16 * 4 + b2 / 64);
    ValueOfCharOf(b2 % 64);
    GroupValues(b0, b1, b2);
  }

  lemma DecodeEncodeOne(b: seq<byte>)
    requires |b| == 1
    ensures Decode(Encode(b)) == Some(b)
  {
    DecodeOneOctet(b[0]);
    var e := [CharOf(b[0] / 4), CharOf(b[0] % 4 * 16), '=', '='];
    assert Encode(b) == e;
    assert e[4..] == [];
    assert [b[0]] + [] == b;
  }

  lemma DecodeEncodeTwo(b: seq<byte>)
    requires |b| == 2
    ensures Decode(Encode(b)) == Some(b)
  {
    DecodeTwoOctets(b[0], b[1]);
    var e := [CharOf(b[0] / 4), CharOf(b[0] % 4 * 16 + b[1] / 16), CharOf(b[1] % 16 * 4), '='];
    assert Encode(b) == e;
    assert e[4..] == [];
    assert [b[0], b[1]] + [] == b;
  }

  /** Decoding a group followed by more text decodes the group, then the rest. */
  lemma DecodeConcat(g: string, rest: string, head: seq<byte>, tail: seq<byte>)
    requires |g| == 4
    requires DecodeGroup(g[0], g[1], g[2], g[3], rest == []) == Some(head)
    requires Decode(rest) == Some(tail)
    ensures Decode(g + rest) == Some(head + tail)
  {
    var e := g + rest;
    assert e[0] == g[0] && e[1] == g[1] && e[2] == g[2] && e[3] == g[3];
    assert e[4..] == rest;
  }

  /** A full group decodes to its three octets in front of whatever the rest decodes to. */
  lemma DecodeGroupThenRest(b: seq<byte>, rest: string)
    requires |b| >= 3
    requires Decode(rest) == Some(b[3..])
    ensures Decode(EncodeGroup(b[0], b[1], b[2]) + rest) == Some(b)
  {
    DecodeThreeOctets(b[0], b[1], b[2], rest == []);
    DecodeConcat(EncodeGroup(b[0], b[1], b[2]), rest, [b[0], b[1], b[2]], b[3..]);
    assert [b[0], b[1], b[2]] + b[3..] == b;
  }

  /** Decoding an encoding gives back the original octets. */
  lemma {:induction false} DecodeEncode(b: seq<byte>)
    ensures Decode(Encode(b)) == Some(b)
  {
    if |b| == 1 {
      DecodeEncodeOne(b);
    } else if |b| == 2 {
      DecodeEncodeTwo(b);
    } else if |b| >= 3 {
      DecodeEncode(b[3..]);
      DecodeGroupThenRest(b, Encode(b[3..]));
    }
  }
}
