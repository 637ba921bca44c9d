/**
 * The base64 transport encoding of section 4 of RFC 4648 (standard alphabet,
 * "=" padding), as Python's `base64.b64encode` and `base64.b64decode` apply it
 * to audio buffers.
 */
module Base64 {
  import opened Common

  /** The character of the standard alphabet that stands for the 6-bit value `v`. */
  function CharOf(v: nat): (c: char)
    requires v < 64
  {
    if v < 26 then ('A' as int + v) as char
    else if v < 52 then ('a' as int + (v - 26)) as char
    else if v < 62 then ('0' as int + (v - 52)) as char
    else if v == 62 then '+'
    else '/'
  }

  /** The 6-bit value of an alphabet character, or None for any other character. */
  function ValueOf(c: char): (r: Option<nat>)
    ensures r.Some? ==> r.value < 64
  {
    if 'A' <= c <= 'Z' then Some(c as int - 'A' as int)
    else if 'a' <= c <= 'z' then Some(c as int - 'a' as int + 26)
    else if '0' <= c <= '9' then Some(c as int - '0' as int + 52)
    else if c == '+' then Some(62)
    else if c == '/' then Some(63)
    else None
  }

  lemma ValueOfCharOf(v: nat)
    requires v < 64
    ensures ValueOf(CharOf(v)) == Some(v)
  {
  }

  predicate InAlphabet(c: char) {
    ValueOf(c).Some?
  }

  /** Three bytes become four characters, six bits each, most significant first. */
  function EncodeGroup(a: byte, b: byte, c: byte): string {
    var x, y, z := a as int, b as int, c as int;
    [CharOf(x / 4), CharOf((x % 4) * 16 + y / 16), CharOf((y % 16) * 4 + z / 64), CharOf(z % 64)]
  }

  /** A final single byte: two characters and two pad characters. */
  function EncodeOne(a: byte): string {
    var x := a as int;
    [CharOf(x / 4), CharOf((x % 4) * 16), '=', '=']
  }

  /** A final pair of bytes: three characters and one pad character. */
  function EncodeTwo(a: byte, b: byte): string {
    var x, y := a as int, b as int;
    [CharOf(x / 4), CharOf((x % 4) * 16 + y / 16), CharOf((y % 16) * 4), '=']
  }

  /** `base64.b64encode(data).decode("utf-8")`. */
  function Encode(data: seq<byte>): (s: string)
    ensures |s| == 4 * ((|data| + 2) / 3)
    ensures forall i :: 0 <= i < |s| ==> InAlphabet(s[i]) || s[i] == '='
    decreases |data|
  {
    if |data| == 0 then ""
    else if |data| == 1 then EncodeOne(data[0])
    else if |data| == 2 then EncodeTwo(data[0], data[1])
    else EncodeGroup(data[0], data[1], data[2]) + Encode(data[3..])
  }

  /** Four alphabet characters without padding become three bytes. */
  function DecodeGroup(s: string): (r: Option<seq<byte>>)
    requires |s| == 4
    ensures r.Some? ==> |r.value| == 3
  {
    var v0, v1, v2, v3 := ValueOf(s[0]), ValueOf(s[1]), ValueOf(s[2]), ValueOf(s[3]);
    if v0.None? || v1.None? || v2.None? || v3.None? then None
    else
      var p, q, t, u := v0.value, v1.value, v2.value, v3.value;
      Some([(p * 4 + q / 16) as byte, ((q % 16) * 16 + t / 4) as byte, ((t % 4) * 64 + u) as byte])
  }

  /**
   * The last group of an encoding, which may end in one or two pad characters.
   * Like CPython, bits left over below a pad are dropped, not checked.
   */
  function DecodeFinal(s: string): (r: Option<seq<byte>>)
    requires |s| == 4
  {
    if s[2] == '=' && s[3] == '=' then
      var v0, v1 := ValueOf(s[0]), ValueOf(s[1]);
      if v0.None? || v1.None? then None
      else Some([(v0.value * 4 + v1.value / 16) as byte])
    else if s[3] == '=' then
      var v0, v1, v2 := ValueOf(s[0]), ValueOf(s[1]), ValueOf(s[2]);
      if v0.None? || v1.None? || v2.None? then None
      else
        var p, q, t := v0.value, v1.value, v2.value;
        Some([(p * 4 + q / 16) as byte, ((q % 16) * 16 + t / 4) as byte])
    else DecodeGroup(s)
  }

  /**
   * `base64.b64decode(s)` on well-formed input: groups of four characters,
   * padding only in the last group. Anything else is rejected (None), where
   * Python raises `binascii.Error`.
   */
  function Decode(s: string): (r: Option<seq<byte>>)
    decreases |s|
  {
    if |s| == 0 then Some([])
    else if |s| < 4 then None
    else if |s| == 4 then DecodeFinal(s)
    else
      match DecodeGroup(s[..4])
      case None => None
      case Some(head) =>
        match Decode(s[4..])
        case None => None
        case Some(tail) => Some(head + tail)
  }

  /** The four 6-bit values of a group put back together give the three bytes. */
  lemma GroupBits(x: int, y: int, z: int)
    requires 0 <= x < 256 && 0 <= y < 256 && 0 <= z < 256
    ensures (x / 4) * 4 + ((x % 4) * 16 + y / 16) / 16 == x
    ensures (((x % 4) * 16 + y / 16) % 16) * 16 + ((y % 16) * 4 + z / 64) / 4 == y
    ensures (((y % 16) * 4 + z / 64) % 4) * 64 + z % 64 == z
  {
    var x0, y1, y0, z1 := x % 4, y / 16, y % 16, z / 64;
    assert (x0 * 16 + y1) / 16 == x0 && (x0 * 16 + y1) % 16 == y1;
    assert (y0 * 4 + z1) / 4 == y0 && (y0 * 4 + z1) % 4 == z1;
  }

  lemma GroupRoundTrip(a: byte, b: byte, c: byte)
    ensures DecodeGroup(EncodeGroup(a, b, c)) == Some([a, b, c])
    ensures DecodeFinal(EncodeGroup(a, b, c)) == Some([a, b, c])
  {
    var x, y, z := a as int, b as int, c as int;
    GroupBits(x, y, z);
    ValueOfCharOf(x / 4);
    ValueOfCharOf((x % 4) * 16 + y / 16);
    ValueOfCharOf((y % 16) * 4 + z / 64);
    ValueOfCharOf(z % 64);
    var s := EncodeGroup(a, b, c);
    assert s[2] != '=' && s[3] != '=';
  }

  lemma OneRoundTrip(a: byte)
    ensures Decode(EncodeOne(a)) == Some([a])
  {
    var x := a as int;
    ValueOfCharOf(x / 4);
    ValueOfCharOf((x % 4) * 16);
  }

  lemma TwoRoundTrip(a: byte, b: byte)
    ensures Decode(EncodeTwo(a, b)) == Some([a, b])
  {
    var x, y := a as int, b as int;
    ValueOfCharOf(x / 4);
    ValueOfCharOf((x % 4) * 16 + y / 16);
    ValueOfCharOf((y % 16) * 4);
    var s := EncodeTwo(a, b);
    assert s[2] != '=';
  }

  /** Decoding an encoding gives back the bytes exactly, for every byte sequence. */
  lemma {:induction false} DecodeEncode(data: seq<byte>)
    ensures Decode(Encode(data)) == Some(data)
    decreases |data|
  {
    if |data| == 0 {
    } else if |data| == 1 {
      OneRoundTrip(data[0]);
      assert data == [data[0]];
    } else if |data| == 2 {
      TwoRoundTrip(data[0], data[1]);
      assert data == [data[0], data[1]];
    } else if |data| == 3 {
      ThreeRoundTrip(data);
    } else {
      DecodeEncode(data[3..]);
      LongRoundTrip(data);
    }
  }

  lemma ThreeRoundTrip(data: seq<byte>)
    requires |data| == 3
    ensures Decode(Encode(data)) == Some(data)
  {
    var g := EncodeGroup(data[0], data[1], data[2]);
    GroupRoundTrip(data[0], data[1], data[2]);
    assert Encode(data) == g + Encode([]);
    assert Encode(data) == g;
    assert data == [data[0], data[1], data[2]];
  }

  /** The step of the induction: a leading group, then the rest, which already round-trips. */
  lemma LongRoundTrip(data: seq<byte>)
    requires |data| > 3
    requires Decode(Encode(data[3..])) == Some(data[3..])
    ensures Decode(Encode(data)) == Some(data)
  {
    var head, tail := [data[0], data[1], data[2]], data[3..];
    var g, rest := EncodeGroup(data[0], data[1], data[2]), Encode(tail);
    GroupRoundTrip(data[0], data[1], data[2]);
    assert |rest| > 0;
    DecodeGroups(g, rest, head, tail);
    assert Encode(data) == g + rest;
    SplitThree(data);
  }

  lemma SplitThree<T>(xs: seq<T>)
    requires |xs| >= 3
    ensures xs == [xs[0], xs[1], xs[2]] + xs[3..]
  {
  }

  /** A full group followed by a non-empty encoding decodes group by group. */
  lemma DecodeGroups(g: string, rest: string, head: seq<byte>, tail: seq<byte>)
    requires |g| == 4 && |rest| > 0
    requires DecodeGroup(g) == Some(head)
    requires Decode(rest) == Some(tail)
    ensures Decode(g + rest) == Some(head + tail)
  {
    var s := g + rest;
    assert s[..4] == g;
    assert s[4..] == rest;
  }

  /** Encoding is one-to-one: distinct buffers never share a transport text. */
  lemma EncodeInjective(a: seq<byte>, b: seq<byte>)
    requires Encode(a) == Encode(b)
    ensures a == b
  {
    DecodeEncode(a);
    DecodeEncode(b);
  }
}
