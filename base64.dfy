/**
 * Base 64 encoding with the standard alphabet and '=' padding (section 4 of
 * RFC 4648), as `encoding/base64.StdEncoding` uses it to store e-mail bodies.
 */
module Base64 {
  import opened Wrappers
  import opened Strings

  /** The 6-bit value a character of the alphabet stands for. */
  function Index(c: char): Option<int>
  {
    if 'A' <= c <= 'Z' then Some(c as int - 'A' as int)
    else if 'a' <= c <= 'z' then Some(c as int - 'a' as int + 26)
    else if '0' <= c <= '9' then Some(c as int - '0' as int + 52)
    else if c == '+' then Some(62)
    else if c == '/' then Some(63)
    else None
  }

  /** The alphabet character for a 6-bit value (table 1 of RFC 4648). */
  function Char(i: int): (c: char)
    requires 0 <= i < 64
    ensures Index(c) == Some(i)
  {
    if i < 26 then ('A' as int + i) as char
    else if i < 52 then ('a' as int + i - 26) as char
    else if i < 62 then ('0' as int + i - 52) as char
    else if i == 62 then '+'
    else '/'
  }

  function EncodeGroup(x: byte, y: byte, z: byte): string
  {
    var x, y, z := x as int, y as int, z as int;
    [Char(x / 4), Char(x % 4 * 16 + y / 16), Char(y % 16 * 4 + z / 64), Char(z % 64)]
  }

  /** `StdEncoding.EncodeToString`: three bytes to four characters, a short tail padded with '='. */
  function Encode(b: Bytes): (s: string)
    ensures |s| % 4 == 0
  {
    if |b| == 0 then ""
    else if |b| == 1 then
      var x := b[0] as int;
      [Char(x / 4), Char(x % 4 * 16), '=', '=']
    else if |b| == 2 then
      var x, y := b[0] as int, b[1] as int;
      [Char(x / 4), Char(x % 4 * 16 + y / 16), Char(y % 16 * 4), '=']
    else EncodeGroup(b[0], b[1], b[2]) + Encode(b[3..])
  }

  /** Decoding of one 4-character quantum; `last` says whether padding may appear. */
  function DecodeQuantum(q: string, last: bool): Option<Bytes>
    requires |q| == 4
  {
    match (Index(q[0]), Index(q[1]), Index(q[2]), Index(q[3]))
    case (Some(a), Some(b), Some(c), Some(d)) =>
      Some([(a * 4 + b / 16) as byte, (b % 16 * 16 + c / 4) as byte, (c % 4 * 64 + d) as byte])
    case (Some(a), Some(b), Some(c), None) =>
      if last && q[3] == '=' then Some([(a * 4 + b / 16) as byte, (b % 16 * 16 + c / 4) as byte]) else None
    case (Some(a), Some(b), None, None) =>
      if last && q[2] == '=' && q[3] == '=' then Some([(a * 4 + b / 16) as byte]) else None
    case _ => None
  }

  /** `StdEncoding.DecodeString`: `None` where Go reports a corrupt input. */
  function Decode(s: string): Option<Bytes>
  {
    if s == [] then Some([])
    else if |s| < 4 then None
    else
      match (DecodeQuantum(s[..4], |s| == 4), Decode(s[4..]))
      case (Some(g), Some(rest)) => Some(g + rest)
      case _ => None
  }

  lemma GroupRoundTrip(x: byte, y: byte, z: byte, last: bool)
    ensures DecodeQuantum(EncodeGroup(x, y, z), last) == Some([x, y, z])
  {
    var x', y', z' := x as int, y as int, z as int;
    var a, b, c, d := x' / 4, x' % 4 * 16 + y' / 16, y' % 16 * 4 + z' / 64, z' % 64;
    assert a * 4 + b / 16 == x';
    assert b % 16 * 16 + c / 4 == y';
    assert c % 4 * 64 + d == z';
  }

  lemma OneByteRoundTrip(x: byte)
    ensures DecodeQuantum(Encode([x]), true) == Some([x])
  {
    var x' := x as int;
    assert x' / 4 * 4 + x' % 4 * 16 / 16 == x';
  }

  lemma TwoBytesRoundTrip(x: byte, y: byte)
    ensures DecodeQuantum(Encode([x, y]), true) == Some([x, y])
  {
    var x', y' := x as int, y as int;
    assert x' / 4 * 4 + (x' % 4 * 16 + y' / 16) / 16 == x';
    assert (x' % 4 * 16 + y' / 16) % 16 * 16 + y' % 16 * 4 / 4 == y';
    assert Index(Encode([x, y])[3]) == None;
  }

  /** Decoding what was encoded gives back the original bytes. */
  lemma {:induction false} DecodeEncode(b: Bytes)
    ensures Decode(Encode(b)) == Some(b)
  {
    if 1 <= |b| <= 2 {
      var q := Encode(b);
      assert q[..4] == q && q[4..] == [];
      if |b| == 1 {
        assert b == [b[0]];
        OneByteRoundTrip(b[0]);
      } else {
        assert b == [b[0], b[1]];
        TwoBytesRoundTrip(b[0], b[1]);
      }
      assert b + [] == b;
    } else if |b| >= 3 {
      var g := EncodeGroup(b[0], b[1], b[2]);
      var s := g + Encode(b[3..]);
      assert s[..4] == g && s[4..] == Encode(b[3..]);
      GroupRoundTrip(b[0], b[1], b[2], |s| == 4);
      DecodeEncode(b[3..]);
      assert b == [b[0], b[1], b[2]] + b[3..];
    }
  }
}
