/** UTF-8 as RFC 3629 defines it: the bytes a Rust `String` is made of, and the
    check `std::str::from_utf8` makes before it will treat bytes as text.

    A Dafny `char` is a Unicode scalar value, exactly as a Rust `char` is. */
module Utf8 {
  import opened Basics

  /** The encoding of one scalar value. */
  function EncodeChar(c: char): (r: seq<byte>)
    ensures 1 <= |r| <= 4
  {
    var n := c as int;
    if n < 0x80 then [n]
    else if n < 0x800 then [0xC0 + n / 64, 0x80 + n % 64]
    else if n < 0x10000 then [0xE0 + n / 4096, 0x80 + n / 64 % 64, 0x80 + n % 64]
    else [0xF0 + n / 262144, 0x80 + n / 4096 % 64, 0x80 + n / 64 % 64, 0x80 + n % 64]
  }

  function Encode(text: string): seq<byte> {
    if text == [] then [] else EncodeChar(text[0]) + Encode(text[1..])
  }

  predicate IsTail(b: byte) { 0x80 <= b < 0xC0 }

  predicate IsScalar(n: int) { 0 <= n < 0xD800 || 0xE000 <= n < 0x110000 }

  /** How many continuation bytes a lead byte announces, and the bits it carries. */
  function Lead(b: byte): Option<(nat, nat)> {
    if b < 0x80 then Some((0, b))
    else if 0xC0 <= b < 0xE0 then Some((1, b - 0xC0))
    else if 0xE0 <= b < 0xF0 then Some((2, b - 0xE0))
    else if 0xF0 <= b < 0xF8 then Some((3, b - 0xF0))
    else None
  }

  /** The smallest value that may be written with so many continuation bytes:
      anything less is an overlong form. */
  function Least(tails: nat): nat {
    if tails == 0 then 0 else if tails == 1 then 0x80 else if tails == 2 then 0x800 else 0x10000
  }

  /** The value spelled by `acc` followed by `count` continuation bytes. */
  function Gather(acc: nat, count: nat, bytes: seq<byte>): Option<nat>
    decreases count
  {
    if count == 0 then Some(acc)
    else if bytes == [] || !IsTail(bytes[0]) then None
    else Gather(acc * 64 + (bytes[0] - 0x80), count - 1, bytes[1..])
  }

  /** The first character of `bytes` and the number of bytes it took. */
  function DecodeChar(bytes: seq<byte>): Option<(char, nat)> {
    if bytes == [] then None else
    match Lead(bytes[0])
    case None => None
    case Some((tails, bits)) =>
      match Gather(bits, tails, bytes[1..])
      case None => None
      case Some(n) =>
        if Least(tails) <= n && IsScalar(n) then Some((n as char, tails + 1)) else None
  }

  /** `std::str::from_utf8`: the text, or nothing at all. */
  function Decode(bytes: seq<byte>): Option<string> {
    if bytes == [] then Some("") else
    match DecodeChar(bytes)
    case None => None
    case Some((c, n)) =>
      if n > |bytes| then None else
      match Decode(bytes[n..])
      case None => None
      case Some(rest) => Some([c] + rest)
  }

  lemma GatherThree(acc: nat, bytes: seq<byte>)
    ensures |bytes| >= 1 && IsTail(bytes[0]) ==>
              Gather(acc, 1, bytes) == Some(acc * 64 + (bytes[0] - 0x80))
    ensures |bytes| >= 2 && IsTail(bytes[0]) && IsTail(bytes[1]) ==>
              Gather(acc, 2, bytes) == Some((acc * 64 + (bytes[0] - 0x80)) * 64 + (bytes[1] - 0x80))
    ensures |bytes| >= 3 && IsTail(bytes[0]) && IsTail(bytes[1]) && IsTail(bytes[2]) ==>
              Gather(acc, 3, bytes)
              == Some(((acc * 64 + (bytes[0] - 0x80)) * 64 + (bytes[1] - 0x80)) * 64 + (bytes[2] - 0x80))
  {
    if |bytes| >= 1 && IsTail(bytes[0]) {
      var acc1 := acc * 64 + (bytes[0] - 0x80);
      assert Gather(acc, 1, bytes) == Gather(acc1, 0, bytes[1..]);
      if |bytes| >= 2 && IsTail(bytes[1]) {
        var acc2 := acc1 * 64 + (bytes[1] - 0x80);
        assert Gather(acc1, 1, bytes[1..]) == Gather(acc2, 0, bytes[1..][1..]);
        assert Gather(acc1, 2, bytes[1..]) == Gather(acc2, 1, bytes[1..][1..]);
        if |bytes| >= 3 && IsTail(bytes[2]) {
          assert Gather(acc2, 1, bytes[1..][1..]) == Gather(acc2 * 64 + (bytes[2] - 0x80), 0, bytes[1..][1..][1..]);
        }
      }
    }
  }

  /** Splitting a number into base-64 digits and putting it back together. */
  lemma Digits(n: nat)
    ensures n / 64 * 64 + n % 64 == n
    ensures (n / 4096 * 64 + n / 64 % 64) * 64 + n % 64 == n
    ensures ((n / 262144 * 64 + n / 4096 % 64) * 64 + n / 64 % 64) * 64 + n % 64 == n
  {
    assert n / 4096 == n / 64 / 64;
    assert n / 262144 == n / 4096 / 64;
  }

  /** What was encoded is the first thing decoded, whatever follows it. */
  lemma DecodeEncodedChar(c: char, rest: seq<byte>)
    ensures DecodeChar(EncodeChar(c) + rest) == Some((c, |EncodeChar(c)|))
  {
    var n := c as int;
    var code := EncodeChar(c);
    var bytes := code + rest;
    Digits(n);
    assert bytes[1..] == code[1..] + rest;
    if n < 0x80 {
      assert Gather(n, 0, bytes[1..]) == Some(n);
    } else if n < 0x800 {
      GatherThree(n / 64, bytes[1..]);
    } else if n < 0x10000 {
      GatherThree(n / 4096, bytes[1..]);
    } else {
      GatherThree(n / 262144, bytes[1..]);
    }
  }

  /** Base-64 digits are unique. */
  lemma DigitsUnique(hi: nat, lo: nat)
    requires lo < 64
    ensures (hi * 64 + lo) / 64 == hi && (hi * 64 + lo) % 64 == lo
  {}

  lemma GatherTails(acc: nat, count: nat, bytes: seq<byte>)
    requires Gather(acc, count, bytes).Some?
    ensures count <= |bytes| && forall i :: 0 <= i < count ==> IsTail(bytes[i])
    decreases count
  {
    if count > 0 {
      GatherTails(acc * 64 + (bytes[0] - 0x80), count - 1, bytes[1..]);
      forall i | 0 <= i < count ensures IsTail(bytes[i]) {
        if i > 0 { assert bytes[i] == bytes[1..][i - 1]; }
      }
    }
  }

  lemma EncodeTwo(a: nat, b: byte)
    requires a < 32 && IsTail(b) && IsScalar(a * 64 + (b - 0x80)) && a * 64 + (b - 0x80) >= 0x80
    ensures EncodeChar((a * 64 + (b - 0x80)) as char) == [0xC0 + a, b]
  {
    DigitsUnique(a, b - 0x80);
  }

  lemma EncodeThree(a: nat, b: byte, c: byte)
    requires a < 16 && IsTail(b) && IsTail(c)
    requires var n := (a * 64 + (b - 0x80)) * 64 + (c - 0x80); IsScalar(n) && n >= 0x800
    ensures EncodeChar(((a * 64 + (b - 0x80)) * 64 + (c - 0x80)) as char) == [0xE0 + a, b, c]
  {
    var hi := a * 64 + (b - 0x80);
    var n := hi * 64 + (c - 0x80);
    DigitsUnique(hi, c - 0x80);
    DigitsUnique(a, b - 0x80);
    assert n / 4096 == n / 64 / 64;
  }

  lemma EncodeFour(a: nat, b: byte, c: byte, d: byte)
    requires a < 8 && IsTail(b) && IsTail(c) && IsTail(d)
    requires var n := ((a * 64 + (b - 0x80)) * 64 + (c - 0x80)) * 64 + (d - 0x80); IsScalar(n) && n >= 0x10000
    ensures EncodeChar((((a * 64 + (b - 0x80)) * 64 + (c - 0x80)) * 64 + (d - 0x80)) as char) == [0xF0 + a, b, c, d]
  {
    var hi := a * 64 + (b - 0x80);
    var mid := hi * 64 + (c - 0x80);
    var n := mid * 64 + (d - 0x80);
    DigitsUnique(mid, d - 0x80);
    DigitsUnique(hi, c - 0x80);
    DigitsUnique(a, b - 0x80);
    assert n / 4096 == n / 64 / 64;
    assert n / 262144 == n / 4096 / 64;
  }

  /** Only the one shortest form of a character decodes to it. */
  lemma DecodedCharIsEncoded(bytes: seq<byte>)
    requires DecodeChar(bytes).Some?
    ensures var (c, n) := DecodeChar(bytes).value; n <= |bytes| && bytes[..n] == EncodeChar(c)
  {
    var (tails, bits) := Lead(bytes[0]).value;
    var rest := bytes[1..];
    GatherTails(bits, tails, rest);
    GatherThree(bits, rest);
    if tails == 0 {
      assert bytes[..1] == [bytes[0]];
    } else if tails == 1 {
      hide EncodeChar, Gather;
      EncodeTwo(bits, rest[0]);
      assert bytes[..2] == [bytes[0], rest[0]];
    } else if tails == 2 {
      hide EncodeChar, Gather;
      EncodeThree(bits, rest[0], rest[1]);
      assert bytes[..3] == [bytes[0], rest[0], rest[1]];
    } else {
      hide EncodeChar, Gather;
      EncodeFour(bits, rest[0], rest[1], rest[2]);
      assert bytes[..4] == [bytes[0], rest[0], rest[1], rest[2]];
    }
  }

  /** Decoding is exactly the inverse of encoding: a byte string is text in at
      most one way, and is refused unless it is the encoding of that text. */
  lemma {:induction false} DecodeIffEncoded(bytes: seq<byte>, text: string)
    ensures Decode(bytes) == Some(text) <==> bytes == Encode(text)
    decreases |bytes| + |text|
  {
    if text != [] && bytes == Encode(text) {
      DecodeEncodedChar(text[0], Encode(text[1..]));
      assert bytes[|EncodeChar(text[0])|..] == Encode(text[1..]);
      DecodeIffEncoded(Encode(text[1..]), text[1..]);
      assert text == [text[0]] + text[1..];
    }
    if bytes != [] && Decode(bytes) == Some(text) {
      DecodedCharIsEncoded(bytes);
      var (c, n) := DecodeChar(bytes).value;
      assert text == [c] + Decode(bytes[n..]).value;
      DecodeIffEncoded(bytes[n..], text[1..]);
      assert bytes == bytes[..n] + bytes[n..];
    }
  }

  lemma {:induction false} EncodeConcat(a: string, b: string)
    ensures Encode(a + b) == Encode(a) + Encode(b)
  {
    if a == [] {
      assert a + b == b;
    } else {
      assert (a + b)[1..] == a[1..] + b;
      EncodeConcat(a[1..], b);
    }
  }

  /** An ASCII byte in an encoding is an ASCII character of the text. */
  lemma {:induction false} AsciiIsItself(text: string, i: nat) returns (k: nat)
    requires i < |Encode(text)| && Encode(text)[i] < 0x80
    ensures k < |text| && text[k] as int == Encode(text)[i]
  {
    var head := EncodeChar(text[0]);
    if i < |head| {
      k := 0;
    } else {
      k := AsciiIsItself(text[1..], i - |head|);
      k := k + 1;
    }
  }

  lemma {:induction false} LongEncode(text: string)
    ensures |Encode(text)| >= |text|
  {
    if text != [] { LongEncode(text[1..]); }
  }

  lemma {:induction false} ShortEncode(text: string)
    ensures |Encode(text)| <= 4 * |text|
  {
    if text != [] { ShortEncode(text[1..]); }
  }

  lemma DecodeStep(c: char, tail: seq<byte>)
    ensures Decode(EncodeChar(c) + tail) == match Decode(tail) case None => None case Some(rest) => Some([c] + rest)
  {
    DecodeEncodedChar(c, tail);
    hide DecodeChar, EncodeChar;
    assert (EncodeChar(c) + tail)[|EncodeChar(c)|..] == tail;
  }

  /** Text followed by bytes is text exactly when the bytes are. */
  lemma {:induction false} DecodeAfter(text: string, bytes: seq<byte>)
    ensures Decode(Encode(text) + bytes) == match Decode(bytes) case None => None case Some(rest) => Some(text + rest)
    decreases |text|
  {
    hide Decode, EncodeChar;
    if text == "" {
      assert Encode(text) + bytes == bytes;
      assert forall rest: string :: "" + rest == rest;
    } else {
      var tail := Encode(text[1..]) + bytes;
      assert Encode(text) + bytes == EncodeChar(text[0]) + tail;
      hide Encode;
      DecodeStep(text[0], tail);
      DecodeAfter(text[1..], bytes);
      assert text == [text[0]] + text[1..];
      assert forall rest: string :: [text[0]] + (text[1..] + rest) == [text[0]] + text[1..] + rest;
    }
  }

  /** What a continuation byte is worth after what came before it. */
  function Worth(lead: int, b: byte): int { lead * 64 + (b as int - 0x80) }

  /** The four forms of section 3 of RFC 3629, by what their bytes are worth. */
  lemma EncodedForms(c: char)
    ensures var n, b := c as int, EncodeChar(c);
            && (n < 0x80 <==> |b| == 1) && (0x80 <= n < 0x800 <==> |b| == 2)
            && (0x800 <= n < 0x10000 <==> |b| == 3) && (0x10000 <= n <==> |b| == 4)
            && (|b| == 1 ==> b[0] as int == n)
            && (|b| == 2 ==> 0xC2 <= b[0] < 0xE0 && n == Worth(b[0] as int - 0xC0, b[1]))
            && (|b| == 3 ==> 0xE0 <= b[0] < 0xF0 && n == Worth(Worth(b[0] as int - 0xE0, b[1]), b[2]))
            && (|b| == 4 ==> 0xF0 <= b[0] < 0xF5 && n == Worth(Worth(Worth(b[0] as int - 0xF0, b[1]), b[2]), b[3]))
            && forall k :: 1 <= k < |b| ==> 0x80 <= b[k] < 0xC0
  {
    var n := c as int;
    assert n / 64 % 64 + n / 4096 * 64 == n / 64;
    assert n / 4096 % 64 + n / 262144 * 64 == n / 4096;
  }
}
