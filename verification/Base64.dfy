/** Standard base64 with padding (section 4 of RFC 4648), as Go's base64.StdEncoding reads and writes it. */
module Base64 {
  import opened Prelude

  type byte = x: int | 0 <= x < 256

  function CharOf(v: int): char
    requires 0 <= v < 64
  {
    if v < 26 then ('A' as int + v) as char
    else if v < 52 then ('a' as int + v - 26) as char
    else if v < 62 then ('0' as int + v - 52) as char
    else if v == 62 then '+' else '/'
  }

  function ValueOf(c: char): (r: Option<int>)
    ensures r.Some? ==> 0 <= r.value < 64
  {
    if 'A' <= c <= 'Z' then Some(c as int - 'A' as int)
    else if 'a' <= c <= 'z' then Some(c as int - 'a' as int + 26)
    else if '0' <= c <= '9' then Some(c as int - '0' as int + 52)
    else if c == '+' then Some(62)
    else if c == '/' then Some(63)
    else None
  }

  function EncodeThree(x: byte, y: byte, z: byte): (r: string)
    ensures |r| == 4
  {
    [CharOf(x / 4), CharOf(x % 4 * 16 + y / 16), CharOf(y % 16 * 4 + z / 64), CharOf(z % 64)]
  }

  function Encode(s: seq<byte>): string {
    if s == [] then ""
    else if |s| == 1 then [CharOf(s[0] / 4), CharOf(s[0] % 4 * 16), '=', '=']
    else if |s| == 2 then [CharOf(s[0] / 4), CharOf(s[0] % 4 * 16 + s[1] / 16), CharOf(s[1] % 16 * 4), '=']
    else EncodeThree(s[0], s[1], s[2]) + Encode(s[3..])
  }

  /** Line breaks anywhere in the input are skipped. */
  function DropLineBreaks(s: string): string {
    if s == "" then ""
    else if s[0] == '\n' || s[0] == '\r' then DropLineBreaks(s[1..])
    else [s[0]] + DropLineBreaks(s[1..])
  }

  /** Four characters at a time; padding only ends the input, and left-over bits are ignored. */
  function DecodeGroups(s: string): Option<seq<byte>> {
    if s == "" then Some([])
    else if |s| < 4 then None
    else
      match (ValueOf(s[0]), ValueOf(s[1]))
      case (Some(a), Some(b)) =>
        if s[2..] == "==" then Some([a * 4 + b / 16])
        else
          (match ValueOf(s[2])
           case None => None
           case Some(c) =>
             if s[3..] == "=" then Some([a * 4 + b / 16, b % 16 * 16 + c / 4])
             else
               (match (ValueOf(s[3]), DecodeGroups(s[4..]))
                case (Some(d), Some(rest)) => Some([a * 4 + b / 16, b % 16 * 16 + c / 4, c % 4 * 64 + d] + rest)
                case _ => None))
      case _ => None
  }

  function Decode(s: string): Option<seq<byte>> {
    DecodeGroups(DropLineBreaks(s))
  }

  lemma ValueOfChar(v: int)
    requires 0 <= v < 64
    ensures ValueOf(CharOf(v)) == Some(v)
    ensures CharOf(v) != '=' && CharOf(v) != '\n' && CharOf(v) != '\r'
  {
  }

  lemma {:induction false} DropNothing(s: string)
    requires '\n' !in s && '\r' !in s
    ensures DropLineBreaks(s) == s
  {
    if s != "" {
      DropNothing(s[1..]);
      assert s == [s[0]] + s[1..];
    }
  }

  lemma {:induction false} EncodeLength(s: seq<byte>)
    ensures |Encode(s)| == (|s| + 2) / 3 * 4
  {
    if |s| >= 3 {
      EncodeLength(s[3..]);
      assert |Encode(s)| == 4 + |Encode(s[3..])|;
      assert (|s| + 2) / 3 == 1 + (|s[3..]| + 2) / 3;
    }
  }

  lemma ThreeArePlain(x: byte, y: byte, z: byte)
    ensures forall c :: c in EncodeThree(x, y, z) ==> c != '=' && c != '\n' && c != '\r'
  {
    Regroup(x, y, z);
    ValueOfChar(x / 4);
    ValueOfChar(x % 4 * 16 + y / 16);
    ValueOfChar(y % 16 * 4 + z / 64);
    ValueOfChar(z % 64);
  }

  lemma {:induction false} EncodeIsPlain(s: seq<byte>)
    ensures '\n' !in Encode(s) && '\r' !in Encode(s)
  {
    if |s| >= 3 {
      EncodeIsPlain(s[3..]);
      ThreeArePlain(s[0], s[1], s[2]);
    } else if |s| == 2 {
      ThreeArePlain(s[0], s[1], 0);
      assert forall i :: 0 <= i < 3 ==> Encode(s)[i] == EncodeThree(s[0], s[1], 0)[i];
    } else if |s| == 1 {
      ThreeArePlain(s[0], 0, 0);
      assert forall i :: 0 <= i < 2 ==> Encode(s)[i] == EncodeThree(s[0], 0, 0)[i];
    }
  }

  /** Three bytes cut into four groups of six bits, and put together again. */
  predicate Regrouped(x: byte, y: byte, z: byte) {
    var a, b, c, d := x / 4, x % 4 * 16 + y / 16, y % 16 * 4 + z / 64, z % 64;
    && 0 <= a < 64 && 0 <= b < 64 && 0 <= c < 64 && 0 <= d < 64
    && a * 4 + b / 16 == x && b % 16 * 16 + c / 4 == y && c % 4 * 64 + d == z
  }

  lemma Regroup(x: byte, y: byte, z: byte)
    ensures Regrouped(x, y, z)
  {
  }

  lemma DecodeFour(a: int, b: int, c: int, d: int, rest: string)
    requires 0 <= a < 64 && 0 <= b < 64 && 0 <= c < 64 && 0 <= d < 64
    ensures var r := DecodeGroups(rest);
      DecodeGroups([CharOf(a), CharOf(b), CharOf(c), CharOf(d)] + rest) ==
        if r.Some? then Some([a * 4 + b / 16, b % 16 * 16 + c / 4, c % 4 * 64 + d] + r.value) else None
  {
    var e := [CharOf(a), CharOf(b), CharOf(c), CharOf(d)] + rest;
    ValueOfChar(a);
    ValueOfChar(b);
    ValueOfChar(c);
    ValueOfChar(d);
    assert e[2..][0] == e[2] && e[3..][0] == e[3];
    assert e[2..] != "==" && e[3..] != "=";
    assert e[4..] == rest;
  }

  /** A full group decodes to its three bytes, whatever follows. */
  lemma DecodeThree(x: byte, y: byte, z: byte, rest: string)
    ensures var r := DecodeGroups(rest);
      DecodeGroups(EncodeThree(x, y, z) + rest) == if r.Some? then Some([x, y, z] + r.value) else None
  {
    Regroup(x, y, z);
    var a, b, c, d := x / 4, x % 4 * 16 + y / 16, y % 16 * 4 + z / 64, z % 64;
    DecodeFour(a, b, c, d, rest);
    assert [a * 4 + b / 16, b % 16 * 16 + c / 4, c % 4 * 64 + d] == [x, y, z];
  }

  lemma DecodePadded(a: int, b: int, c: int)
    requires 0 <= a < 64 && 0 <= b < 64 && 0 <= c < 64
    ensures DecodeGroups([CharOf(a), CharOf(b), '=', '=']) == Some([a * 4 + b / 16])
    ensures DecodeGroups([CharOf(a), CharOf(b), CharOf(c), '=']) == Some([a * 4 + b / 16, b % 16 * 16 + c / 4])
  {
    ValueOfChar(a);
    ValueOfChar(b);
    ValueOfChar(c);
    var e, f := [CharOf(a), CharOf(b), '=', '='], [CharOf(a), CharOf(b), CharOf(c), '='];
    assert e[2..] == "==";
    assert f[2..][0] == f[2] && f[2..] != "==" && f[3..] == "=";
  }

  lemma EncodeShort(x: byte, y: byte)
    ensures Regrouped(x, y, 0)
    ensures Encode([x]) == [CharOf(x / 4), CharOf(x % 4 * 16), '=', '=']
    ensures Encode([x, y]) == [CharOf(x / 4), CharOf(x % 4 * 16 + y / 16), CharOf(y % 16 * 4), '=']
  {
    Regroup(x, y, 0);
  }

  lemma DecodeOne(x: byte)
    ensures DecodeGroups(Encode([x])) == Some([x])
  {
    EncodeShort(x, 0);
    DecodePadded(x / 4, x % 4 * 16, 0);
  }

  lemma DecodeTwo(x: byte, y: byte)
    ensures DecodeGroups(Encode([x, y])) == Some([x, y])
  {
    EncodeShort(x, y);
    var a, b, c := x / 4, x % 4 * 16 + y / 16, y % 16 * 4;
    DecodePadded(a, b, c);
    assert [a * 4 + b / 16, b % 16 * 16 + c / 4] == [x, y];
  }

  lemma ThreeAndTheRest(s: seq<byte>)
    requires |s| >= 3
    ensures s == [s[0], s[1], s[2]] + s[3..]
  {
  }

  lemma {:induction false} DecodeGroupsOfEncode(s: seq<byte>)
    ensures DecodeGroups(Encode(s)) == Some(s)
  {
    if |s| == 1 {
      DecodeOne(s[0]);
      assert s == [s[0]];
    } else if |s| == 2 {
      DecodeTwo(s[0], s[1]);
      assert s == [s[0], s[1]];
    } else if |s| >= 3 {
      DecodeGroupsOfEncode(s[3..]);
      DecodeThree(s[0], s[1], s[2], Encode(s[3..]));
      ThreeAndTheRest(s);
    }
  }

  lemma DecodeEncode(s: seq<byte>)
    ensures Decode(Encode(s)) == Some(s)
  {
    EncodeIsPlain(s);
    DropNothing(Encode(s));
    DecodeGroupsOfEncode(s);
  }
}
