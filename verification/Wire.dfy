/** Frames on the wire: their encoding (devpipe/src/proto.rs) and the length
    prefix that cuts a unix stream back into them (devpipe/src/keeper.rs). */
module Wire {
  import opened Basics

  const HEADER: nat := 5

  /** The longest frame a reader will take, 8 MiB. */
  const CEILING: nat := 8388608

  const WORD: nat := 0x1_0000_0000

  type u32 = n: int | 0 <= n < WORD

  datatype Op = Data | Event | Close

  datatype Frame = Frame(channel: u32, op: Op, payload: seq<byte>)

  datatype Error = Short | UnknownOp(code: byte) | TooLong(len: nat) | CutOff

  // --------------------------------------------------------------- one frame

  function OpCode(op: Op): byte { match op case Data => 0 case Event => 1 case Close => 2 }

  function OpFrom(b: byte): Result<Op, Error> {
    if b == 0 then Ok(Data) else if b == 1 then Ok(Event) else if b == 2 then Ok(Close) else Err(UnknownOp(b))
  }

  /** `u32::to_be_bytes`. */
  function BigEndian(n: u32): (r: seq<byte>)
    ensures |r| == 4
  {
    [n / 16777216, n / 65536 % 256, n / 256 % 256, n % 256]
  }

  /** `u32::from_be_bytes`. */
  function FromBigEndian(b: seq<byte>): u32
    requires |b| == 4
  {
    b[0] as int * 16777216 + b[1] as int * 65536 + b[2] as int * 256 + b[3] as int
  }

  function Encoded(f: Frame): (r: seq<byte>)
    ensures |r| == HEADER + |f.payload|
  {
    BigEndian(f.channel) + [OpCode(f.op)] + f.payload
  }

  function Decode(bytes: seq<byte>): Result<Frame, Error> {
    if |bytes| < HEADER then Err(Short) else
    match OpFrom(bytes[4])
    case Err(e) => Err(e)
    case Ok(op) => Ok(Frame(FromBigEndian(bytes[..4]), op, bytes[HEADER..]))
  }

  method Encode(f: Frame) returns (out: seq<byte>)
    ensures out == Encoded(f)
  {
    out := [];
    out := out + BigEndian(f.channel);
    out := out + [OpCode(f.op)];
    out := out + f.payload;
  }

  lemma BigEndianRoundTrip(n: u32)
    ensures FromBigEndian(BigEndian(n)) == n
  {
    assert n / 65536 == n / 16777216 * 256 + n / 65536 % 256;
    assert n / 256 == n / 65536 * 256 + n / 256 % 256;
    assert n == n / 256 * 256 + n % 256;
  }

  lemma FromBigEndianUnique(b: seq<byte>)
    requires |b| == 4
    ensures BigEndian(FromBigEndian(b)) == b
  {
    var n := FromBigEndian(b);
    var n3 := b[0] as int * 256 + b[1] as int;
    var n2 := n3 * 256 + b[2] as int;
    assert n == n2 * 256 + b[3] as int;
    assert n / 256 == n2 && n % 256 == b[3];
    assert n2 / 256 == n3 && n2 % 256 == b[2];
    assert n3 / 256 == b[0] && n3 % 256 == b[1];
    assert n / 65536 == n2 / 256 && n / 16777216 == n3 / 256;
  }

  /** Decoding and encoding are inverse: a byte string is a frame exactly when it
      is the encoding of that frame. */
  lemma DecodeIffEncoded(bytes: seq<byte>, f: Frame)
    ensures Decode(bytes) == Ok(f) <==> bytes == Encoded(f)
  {
    if bytes == Encoded(f) {
      BigEndianRoundTrip(f.channel);
      assert bytes[..4] == BigEndian(f.channel) && bytes[HEADER..] == f.payload;
    }
    if Decode(bytes) == Ok(f) {
      FromBigEndianUnique(bytes[..4]);
      assert bytes == bytes[..4] + [bytes[4]] + bytes[HEADER..];
    }
  }

  // ---------------------------------------------------------------- the stream

  /** The length prefix is a cast: it keeps the length modulo 2^32. */
  function Prefix(n: nat): u32 { n % WORD }

  function Written(f: Frame): seq<byte> { BigEndian(Prefix(|Encoded(f)|)) + Encoded(f) }

  function AllWritten(frames: seq<Frame>): seq<byte> {
    if frames == [] then [] else Written(frames[0]) + AllWritten(frames[1..])
  }

  /** What one read of a stream yields: nothing more to come, or a frame and what
      is left. A header that is cut off counts as the end of the stream; a
      payload that is cut off is an error. */
  function ReadOne(bytes: seq<byte>): Result<Option<(Frame, seq<byte>)>, Error> {
    if |bytes| < 4 then Ok(None) else
    var len := FromBigEndian(bytes[..4]);
    if len > CEILING then Err(TooLong(len))
    else if |bytes| < 4 + len then Err(CutOff)
    else match Decode(bytes[4..4 + len])
      case Err(e) => Err(e)
      case Ok(f) => Ok(Some((f, bytes[4 + len..])))
  }

  /** Reading until something other than a frame comes back. */
  function ReadAll(bytes: seq<byte>): (seq<Frame>, Result<(), Error>)
    decreases |bytes|
  {
    match ReadOne(bytes)
    case Err(e) => ([], Err(e))
    case Ok(None) => ([], Ok(()))
    case Ok(Some((f, rest))) =>
      var (more, end) := ReadAll(rest);
      ([f] + more, end)
  }

  /** One direction of a unix stream. */
  class Pipe {
    var bytes: seq<byte>

    constructor ()
      ensures bytes == []
    {
      bytes := [];
    }

    method WriteFrame(f: Frame)
      modifies this
      ensures bytes == old(bytes) + Written(f)
    {
      var encoded := Encode(f);
      bytes := bytes + BigEndian(Prefix(|encoded|));
      bytes := bytes + encoded;
    }

    /** Takes `n` bytes, or all there are when there are fewer. */
    method ReadExact(n: nat) returns (buffer: Option<seq<byte>>)
      modifies this
      ensures n <= |old(bytes)| ==> buffer == Some(old(bytes)[..n]) && bytes == old(bytes)[n..]
      ensures n > |old(bytes)| ==> buffer == None && bytes == []
    {
      if n <= |bytes| {
        buffer := Some(bytes[..n]);
        bytes := bytes[n..];
      } else {
        buffer := None;
        bytes := [];
      }
    }

    method ReadFrame() returns (r: Result<Option<Frame>, Error>)
      modifies this
      ensures match ReadOne(old(bytes))
              case Err(e) => r == Err(e)
              case Ok(None) => r == Ok(None) && bytes == []
              case Ok(Some((f, rest))) => r == Ok(Some(f)) && bytes == rest
    {
      var header := ReadExact(4);
      if header == None {
        return Ok(None);
      }
      var len := FromBigEndian(header.value);
      if len > CEILING {
        return Err(TooLong(len));
      }
      var payload := ReadExact(len);
      if payload == None {
        return Err(CutOff);
      }
      assert old(bytes)[4..][..len] == old(bytes)[4..4 + len];
      assert old(bytes)[4..][len..] == old(bytes)[4 + len..];
      match Decode(payload.value)
      case Err(e) => r := Err(e);
      case Ok(f) => r := Ok(Some(f));
    }
  }

  predicate Fits(f: Frame) { |Encoded(f)| <= CEILING }

  lemma Slices(head: seq<byte>, body: seq<byte>, rest: seq<byte>)
    requires |head| == 4
    ensures var bytes := head + body + rest;
            bytes[..4] == head && bytes[4..4 + |body|] == body && bytes[4 + |body|..] == rest
  {}

  /** A header, as many bytes as it says, and whatever follows. */
  lemma ReadWhole(head: seq<byte>, body: seq<byte>, rest: seq<byte>)
    requires |head| == 4 && FromBigEndian(head) == |body|
    ensures ReadOne(head + body + rest)
            == if |body| > CEILING then Err(TooLong(|body|))
               else match Decode(body) case Err(e) => Err(e) case Ok(f) => Ok(Some((f, rest)))
  {
    hide Decode, FromBigEndian;
    Slices(head, body, rest);
  }

  /** What a reader gets back of a frame that was written whole. */
  lemma ReadWritten(f: Frame, rest: seq<byte>)
    requires Fits(f)
    ensures ReadOne(Written(f) + rest) == Ok(Some((f, rest)))
  {
    var len := |Encoded(f)|;
    hide Encoded, Decode, BigEndian, FromBigEndian, ReadOne;
    BigEndianRoundTrip(len);
    DecodeIffEncoded(Encoded(f), f);
    ReadWhole(BigEndian(len), Encoded(f), rest);
  }

  /** A frame that was read had the length its prefix said. */
  lemma ReadFits(bytes: seq<byte>, f: Frame, rest: seq<byte>)
    requires ReadOne(bytes) == Ok(Some((f, rest)))
    ensures Fits(f)
  {
    DecodeIffEncoded(bytes[4..4 + FromBigEndian(bytes[..4])], f);
  }

  /** A frame comes back as itself exactly when it fits: a longer one is refused
      by its length or, past 2^32, read as something shorter. */
  lemma ReadsBackIffFits(f: Frame, rest: seq<byte>)
    ensures (exists r :: ReadOne(Written(f) + rest) == Ok(Some((f, r)))) <==> Fits(f)
  {
    if Fits(f) {
      ReadWritten(f, rest);
    }
    if r :| ReadOne(Written(f) + rest) == Ok(Some((f, r))) {
      ReadFits(Written(f) + rest, f, r);
    }
  }

  /** A frame past 8 MiB, and short of 2^32, is refused by the length it was
      written with. */
  lemma LongIsRefused(f: Frame, rest: seq<byte>)
    requires CEILING < |Encoded(f)| < WORD
    ensures ReadOne(Written(f) + rest) == Err(TooLong(|Encoded(f)|))
  {
    hide Encoded, Decode, BigEndian, FromBigEndian, ReadOne;
    BigEndianRoundTrip(|Encoded(f)|);
    ReadWhole(BigEndian(|Encoded(f)|), Encoded(f), rest);
  }

  /** Such as one of 8 MiB of payload: written without complaint, and not read. */
  lemma LongHappens(channel: u32, rest: seq<byte>)
    ensures var f := Frame(channel, Data, seq(CEILING, _ => 0));
            ReadOne(Written(f) + rest) == Err(TooLong(CEILING + HEADER))
  {
    LongIsRefused(Frame(channel, Data, seq(CEILING, _ => 0)), rest);
  }

  /** A stream cut anywhere inside a frame ends there. */
  lemma ReadCut(f: Frame, k: nat)
    requires Fits(f) && k < |Written(f)|
    ensures ReadAll(Written(f)[..k]) == ([], if k < 4 then Ok(()) else Err(CutOff))
  {
    OneCut(f, k);
    hide ReadOne, Written;
  }

  lemma OneCut(f: Frame, k: nat)
    requires Fits(f) && k < |Written(f)|
    ensures ReadOne(Written(f)[..k]) == if k < 4 then Ok(None) else Err(CutOff)
  {
    var cut := Written(f)[..k];
    if k >= 4 {
      CutPrefix(f, k);
      assert |Written(f)| == 4 + |Encoded(f)|;
      hide Written, Encoded, Decode, FromBigEndian;
      assert |cut| == k && |cut| < 4 + |Encoded(f)|;
    }
  }

  lemma CutPrefix(f: Frame, k: nat)
    requires Fits(f) && 4 <= k < |Written(f)|
    ensures FromBigEndian(Written(f)[..k][..4]) == |Encoded(f)|
  {
    hide Encoded, FromBigEndian;
    BigEndianRoundTrip(|Encoded(f)|);
    assert Written(f)[..k][..4] == BigEndian(|Encoded(f)|);
  }

  lemma ReadAllOf(bytes: seq<byte>, f: Frame, rest: seq<byte>)
    requires ReadOne(bytes) == Ok(Some((f, rest)))
    ensures ReadAll(bytes) == ([f] + ReadAll(rest).0, ReadAll(rest).1)
  {
    hide ReadOne;
  }

  /** How many frames lie wholly before a cut, and how far into the next it is. */
  function Whole(frames: seq<Frame>, k: nat): (nat, nat) {
    if frames == [] || k < |Written(frames[0])| then (0, k)
    else var (n, left) := Whole(frames[1..], k - |Written(frames[0])|); (n + 1, left)
  }

  lemma {:induction false} WholeIs(frames: seq<Frame>, k: nat)
    requires k <= |AllWritten(frames)|
    ensures var (n, left) := Whole(frames, k);
            && n <= |frames| && |AllWritten(frames[..n])| + left == k
            && (n < |frames| ==> left < |Written(frames[n])|) && (n == |frames| ==> left == 0)
  {
    if frames != [] && k >= |Written(frames[0])| {
      WholeIs(frames[1..], k - |Written(frames[0])|);
      var n := Whole(frames, k).0;
      assert frames[..n][1..] == frames[1..][..n - 1];
      assert frames[..n][0] == frames[0];
    }
  }

  /** Reading back a stream of written frames, cut at any byte, gives exactly the
      frames that lie wholly before the cut, and then the end of the stream, or
      an error when the cut is inside a payload. */
  lemma {:induction false} ReadPrefix(frames: seq<Frame>, k: nat)
    requires k <= |AllWritten(frames)| && forall f :: f in frames ==> Fits(f)
    ensures var (n, left) := Whole(frames, k);
            && n <= |frames|
            && ReadAll(AllWritten(frames)[..k]) == (frames[..n], if left < 4 then Ok(()) else Err(CutOff))
    decreases |frames|
  {
    hide Written, Encoded, ReadAll, ReadOne, Fits;
    WholeIs(frames, k);
    if frames == [] {
      NothingRead();
    } else if k < |Written(frames[0])| {
      assert AllWritten(frames)[..k] == Written(frames[0])[..k];
      ReadCut(frames[0], k);
    } else {
      var left := k - |Written(frames[0])|;
      assert AllWritten(frames)[..k] == Written(frames[0]) + AllWritten(frames[1..])[..left];
      ReadPrefix(frames[1..], left);
      ReadNext(frames[0], AllWritten(frames[1..])[..left]);
      var n := Whole(frames, k).0;
      assert frames[..n] == [frames[0]] + frames[1..][..n - 1];
    }
  }

  lemma ReadNext(f: Frame, left: seq<byte>)
    requires Fits(f)
    ensures ReadAll(Written(f) + left) == ([f] + ReadAll(left).0, ReadAll(left).1)
  {
    hide Written, ReadAll, ReadOne, Fits;
    ReadWritten(f, left);
    ReadAllOf(Written(f) + left, f, left);
  }

  lemma NothingRead()
    ensures ReadAll([]) == ([], Ok(()))
  {}

  // ------------------------------------------------------------- to the byte

  /** Four bytes of channel, the most significant first; one that is 0 for data, 1 for an
      event and 2 for a close; and the payload. */
  lemma HeaderIs(f: Frame)
    ensures var b := Encoded(f);
            && |b| == 5 + |f.payload| && b[5..] == f.payload
            && f.channel == b[0] as int * 0x1000000 + b[1] as int * 0x10000 + b[2] as int * 0x100 + b[3] as int
            && b[4] == (match f.op case Data => 0 case Event => 1 case Close => 2)
  {
    BigEndianRoundTrip(f.channel);
  }

  /** The same four bytes of length, modulo 2^32, go before it; and 8 MiB is the most
      that is read. */
  lemma PrefixIs(f: Frame, rest: seq<byte>)
    ensures var b := Written(f);
            && |b| == 9 + |f.payload| && b[4..] == Encoded(f)
            && b[0] as int * 0x1000000 + b[1] as int * 0x10000 + b[2] as int * 0x100 + b[3] as int
               == (5 + |f.payload|) % 0x1_0000_0000
    ensures ReadOne(Written(f) + rest) == Ok(Some((f, rest))) <==> 5 + |f.payload| <= 8 * 1024 * 1024
  {
    BigEndianRoundTrip(Prefix(|Encoded(f)|));
    ReadsBackIffFits(f, rest);
    hide Encoded, Decode, ReadOne;
  }
}
