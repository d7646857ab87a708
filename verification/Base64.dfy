/** Unpadded base64url (section 5 of RFC 4648), over bytes. */
module Base64 {
  import opened Text

  type byte = b: int | 0 <= b < 256
  type sextet = x: int | 0 <= x < 64

  function Digit(x: sextet): (c: char)
    ensures Value(c) == Some(x)
  {
    if x < 26 then (65 + x) as char
    else if x < 52 then (71 + x) as char
    else if x < 62 then (x - 4) as char
    else if x == 62 then '-' else '_'
  }

  function Value(c: char): Option<sextet>
  {
    var n := c as int;
    if 65 <= n <= 90 then Some(n - 65)
    else if 97 <= n <= 122 then Some(n - 71)
    else if 48 <= n <= 57 then Some(n + 4)
    else if c == '-' then Some(62)
    else if c == '_' then Some(63)
    else None
  }

  predicate IsDigit(c: char) { Value(c).Some? }

  function Encode(data: seq<byte>): (s: string)
    ensures forall c :: c in s ==> IsDigit(c)
    decreases |data|
  {
    if data == [] then ""
    else if |data| == 1 then [Digit(data[0] / 4), Digit(data[0] % 4 * 16)]
    else if |data| == 2 then
      [Digit(data[0] / 4), Digit(data[0] % 4 * 16 + data[1] / 16), Digit(data[1] % 16 * 4)]
    else
      [Digit(data[0] / 4), Digit(data[0] % 4 * 16 + data[1] / 16),
       Digit(data[1] % 16 * 4 + data[2] / 64), Digit(data[2] % 64)] + Encode(data[3..])
  }

  /** The decoder skips line breaks and does not look at the unused low bits of the last digit. */
  function Decode(s: string): Option<seq<byte>>
  {
    DecodeDigits(DropBreaks(s))
  }

  function DropBreaks(s: string): (r: string)
    ensures |r| <= |s|
    ensures '\r' !in s && '\n' !in s ==> r == s
  {
    if s == "" then ""
    else
      assert s[0] in s && s == [s[0]] + s[1..];
      if s[0] == '\r' || s[0] == '\n' then DropBreaks(s[1..]) else [s[0]] + DropBreaks(s[1..])
  }

  function DecodeDigits(s: string): (r: Option<seq<byte>>)
    ensures r.Some? ==> |r.value| <= |s|
  {
    if s == "" then Some([])
    else if |s| == 1 || Value(s[0]).None? || Value(s[1]).None? then None
    else
      var a, b := Value(s[0]).value, Value(s[1]).value;
      var b0: byte := a * 4 + b / 16;
      if |s| == 2 then Some([b0])
      else if Value(s[2]).None? then None
      else
        var c := Value(s[2]).value;
        var b1: byte := b % 16 * 16 + c / 4;
        if |s| == 3 then Some([b0, b1])
        else if Value(s[3]).None? then None
        else
          var d := Value(s[3]).value;
          var b2: byte := c % 4 * 64 + d;
          var rest := DecodeDigits(s[4..]);
          if rest.None? then None else Some([b0, b1, b2] + rest.value)
  }

  /** The first digit pair of a byte, and of a byte followed by another, gives back the byte. */
  lemma FirstByte(a: byte, b: byte)
    ensures a / 4 * 4 + (a % 4 * 16 + b / 16) / 16 == a
    ensures (a % 4 * 16 + b / 16) % 16 == b / 16
    ensures a / 4 * 4 + (a % 4 * 16) / 16 == a
  {
  }

  lemma SecondByte(b: byte, c: byte)
    ensures b / 16 * 16 + (b % 16 * 4 + c / 64) / 4 == b
    ensures (b % 16 * 4 + c / 64) % 4 == c / 64
    ensures b / 16 * 16 + (b % 16 * 4) / 4 == b
  {
  }

  lemma DecodeOne(a: byte)
    ensures DecodeDigits(Encode([a])) == Some([a])
  {
    FirstByte(a, 0);
    var s := Encode([a]);
    assert |s| == 2 && Value(s[0]) == Some(a / 4) && Value(s[1]) == Some(a % 4 * 16);
  }

  lemma DecodeTwo(a: byte, b: byte)
    ensures DecodeDigits(Encode([a, b])) == Some([a, b])
  {
    FirstByte(a, b);
    SecondByte(b, 0);
    var s := Encode([a, b]);
    assert |s| == 3 && Value(s[0]) == Some(a / 4) && Value(s[1]) == Some(a % 4 * 16 + b / 16)
        && Value(s[2]) == Some(b % 16 * 4);
  }

  /** Four digits decode to three bytes. */
  lemma DecodeFour(s: string, w: sextet, x: sextet, y: sextet, z: sextet, rest: seq<byte>)
    requires |s| >= 4 && Value(s[0]) == Some(w) && Value(s[1]) == Some(x) && Value(s[2]) == Some(y)
        && Value(s[3]) == Some(z)
    requires DecodeDigits(s[4..]) == Some(rest)
    ensures DecodeDigits(s) == Some([w * 4 + x / 16, x % 16 * 16 + y / 4, y % 4 * 64 + z] + rest)
  {
    if |s| == 4 { assert s[4..] == ""; }
  }

  /** Three bytes encode to four digits that hold them. */
  lemma EncodeThree(data: seq<byte>) returns (w: sextet, x: sextet, y: sextet, z: sextet)
    requires |data| >= 3
    ensures var s := Encode(data);
      && |s| >= 4 && s[4..] == Encode(data[3..])
      && Value(s[0]) == Some(w) && Value(s[1]) == Some(x) && Value(s[2]) == Some(y) && Value(s[3]) == Some(z)
    ensures data[..3] == [w * 4 + x / 16, x % 16 * 16 + y / 4, y % 4 * 64 + z]
  {
    var a, b, c := data[0], data[1], data[2];
    w, x, y, z := a / 4, a % 4 * 16 + b / 16, b % 16 * 4 + c / 64, c % 64;
    FirstByte(a, b);
    SecondByte(b, c);
    assert data[..3] == [a, b, c];
  }

  lemma {:induction false} DecodeDigitsEncode(data: seq<byte>)
    ensures DecodeDigits(Encode(data)) == Some(data)
    decreases |data|
  {
    if |data| >= 3 {
      DecodeDigitsEncode(data[3..]);
      var w, x, y, z := EncodeThree(data);
      DecodeFour(Encode(data), w, x, y, z, data[3..]);
      assert data == data[..3] + data[3..];
    } else if |data| == 2 {
      assert data == [data[0], data[1]];
      DecodeTwo(data[0], data[1]);
    } else if |data| == 1 {
      assert data == [data[0]];
      DecodeOne(data[0]);
    }
  }

  lemma RoundTrip(data: seq<byte>)
    ensures Decode(Encode(data)) == Some(data)
  {
    DecodeDigitsEncode(data);
    assert DropBreaks(Encode(data)) == Encode(data) by { assert !IsDigit('\r') && !IsDigit('\n'); }
  }
}
