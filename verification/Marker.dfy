/** The scanner that watches a pty's output for requests to open a browser
    (devpipe/src/marker.rs), and the shell shim that prints them. */
module Marker {
  import opened Basics
  import opened Utf8
  import opened Text

  datatype Marker = Open(url: string)

  const CEILING: nat := 4096
  const ESC: byte := 0x1B
  const BEL: byte := 0x07

  /** `9998;devpipe;` */
  const PREFIX: seq<byte> :=
    ['9' as int, '9' as int, '9' as int, '8' as int, ';' as int, 'd' as int, 'e' as int, 'v' as int,
     'p' as int, 'i' as int, 'p' as int, 'e' as int, ';' as int]

  // ------------------------------------------------------ reading a payload

  function StripPrefix(s: string, prefix: string): Option<string> {
    if prefix <= s then Some(s[|prefix|..]) else None
  }

  const HTTPS := "https://"
  const HTTP := "http://"

  /** What a client may be asked to open. */
  function SafeUrl(raw: string): Option<string> {
    var url := Trim(raw);
    if |Encode(url)| > 2048 then None else
    var rest := match StripPrefix(url, HTTPS) case Some(r) => Some(r) case None => StripPrefix(url, HTTP);
    if rest.None? || rest.value == "" then None
    else if exists i :: 0 <= i < |url| && IsControl(url[i]) then None
    else Some(url)
  }

  /** `parse`: the marker a complete payload asks for, if it asks for one. */
  function Parse(payload: seq<byte>): Option<Marker> {
    if !(PREFIX <= payload) then None else
    match Decode(payload[|PREFIX|..])
    case None => None
    case Some(text) =>
      match SplitOnce(text, ';')
      case None => None
      case Some((verb, rest)) =>
        if verb != "open" then None else
        match SafeUrl(rest)
        case None => None
        case Some(url) => Some(Open(url))
  }

  // -------------------------------------------------------- one byte at a time

  datatype State = Text | Escaped | Payload(collected: seq<byte>, skipping: bool)

  predicate Ends(b: byte) { b == BEL || b == ESC }

  /** Too long, or already known not to be ours. */
  predicate GivenUp(payload: seq<byte>) {
    |payload| > CEILING || (|payload| <= |PREFIX| && payload != PREFIX[..|payload|])
  }

  function Next(s: State, b: byte): (State, seq<Marker>) {
    match s
    case Text => (if b == ESC then Escaped else Text, [])
    case Escaped =>
      (if b == ']' as int then Payload([], false) else if b == ESC then Escaped else Text, [])
    case Payload(collected, skipping) =>
      if Ends(b) then (if b == ESC then Escaped else Text, if skipping then [] else Listed(Parse(collected)))
      else if skipping then (s, [])
      else if GivenUp(collected + [b]) then (Payload([], true), [])
      else (Payload(collected + [b], false), [])
  }

  function Scan(s: State, bytes: seq<byte>): (State, seq<Marker>)
    decreases |bytes|
  {
    if bytes == [] then (s, []) else
    var (s1, found) := Next(s, bytes[0]);
    var (s2, more) := Scan(s1, bytes[1..]);
    (s2, found + more)
  }

  /** A scanner, fed whatever chunks the pty produces. */
  class Scanner {
    var state: State

    constructor ()
      ensures state == Text
    {
      state := Text;
    }

    method Step(byte: byte, found: seq<Marker>) returns (out: seq<Marker>)
      modifies this
      ensures state == Next(old(state), byte).0 && out == found + Next(old(state), byte).1
    {
      out := found;
      match state
      case Text =>
        if byte == ESC {
          state := Escaped;
        }
      case Escaped =>
        state := if byte == ']' as int then Payload([], false) else if byte == ESC then Escaped else Text;
      case Payload(collected, skipping) =>
        if byte == BEL || byte == ESC {
          if !skipping {
            var marker := Parse(collected);
            if marker.Some? {
              out := out + [marker.value];
            }
          }
          state := if byte == ESC then Escaped else Text;
          return;
        }
        if skipping {
          return;
        }
        var grown := collected + [byte];
        var far := |grown|;
        if far > CEILING || (far <= |PREFIX| && grown != PREFIX[..far]) {
          state := Payload([], true);
        } else {
          state := Payload(grown, false);
        }
    }

    method Feed(bytes: seq<byte>) returns (found: seq<Marker>)
      modifies this
      ensures (state, found) == Scan(old(state), bytes)
    {
      found := [];
      for i := 0 to |bytes|
        invariant (state, found) == Scan(old(state), bytes[..i])
      {
        ScanConcat(old(state), bytes[..i], [bytes[i]]);
        ScanOne(state, bytes[i]);
        found := Step(bytes[i], found);
        assert bytes[..i] + [bytes[i]] == bytes[..i + 1];
      }
      assert bytes[..|bytes|] == bytes;
    }
  }

  lemma ScanOne(s: State, b: byte)
    ensures Scan(s, [b]) == Next(s, b)
  {
    assert Scan(Next(s, b).0, [b][1..]) == (Next(s, b).0, []);
    assert Next(s, b).1 + [] == Next(s, b).1;
  }

  lemma {:induction false} ScanConcat(s: State, a: seq<byte>, b: seq<byte>)
    ensures var (s1, found) := Scan(s, a);
            var (s2, more) := Scan(s1, b);
            Scan(s, a + b) == (s2, found + more)
    decreases |a|
  {
    hide Next;
    if a == [] {
      assert a + b == b;
      assert [] + Scan(s, b).1 == Scan(s, b).1;
    } else {
      assert (a + b)[1..] == a[1..] + b;
      var (s1, found) := Next(s, a[0]);
      ScanConcat(s1, a[1..], b);
      var (s2, more) := Scan(s1, a[1..]);
      assert found + more + Scan(s2, b).1 == found + (more + Scan(s2, b).1);
    }
  }

  // -------------------------------------------------- the whole stream at once

  /** ESC ]. */
  predicate OpensAt(s: seq<byte>, i: nat) { i + 1 < |s| && s[i] == ESC && s[i + 1] == ']' as int }

  /** The first place an OSC is introduced, or the length if nowhere. */
  function Introducer(s: seq<byte>): (i: nat)
    ensures i <= |s| && (i < |s| ==> OpensAt(s, i)) && forall j :: 0 <= j < i ==> !OpensAt(s, j)
  {
    if |s| < 2 then |s|
    else if OpensAt(s, 0) then 0
    else
      var i := 1 + Introducer(s[1..]);
      assert forall j :: 0 < j < i ==> OpensAt(s, j) == OpensAt(s[1..], j - 1);
      i
  }

  /** The first byte that ends an OSC, or the length. */
  function Terminator(s: seq<byte>): (j: nat)
    ensures j <= |s| && (j < |s| ==> Ends(s[j])) && forall k :: 0 <= k < j ==> !Ends(s[k])
  {
    if s == [] || Ends(s[0]) then 0 else 1 + Terminator(s[1..])
  }

  /** The payloads of all the complete OSC strings of a stream. */
  function Payloads(s: seq<byte>): seq<seq<byte>>
    decreases |s|, 0
  {
    var i := Introducer(s);
    if i == |s| then [] else PayloadsIn([], s[i + 2..])
  }

  /** The same from inside one that begins with `start`. An ESC that ends one may
      introduce the next. */
  function PayloadsIn(start: seq<byte>, s: seq<byte>): seq<seq<byte>>
    decreases |s|, 1
  {
    var j := Terminator(s);
    if j == |s| then [] else
    [start + s[..j]] + Payloads(if s[j] == BEL then s[j + 1..] else s[j..])
  }

  function Reported(payload: seq<byte>): seq<Marker> {
    if |payload| <= CEILING then Listed(Parse(payload)) else []
  }

  function MarkersOf(payloads: seq<seq<byte>>): seq<Marker> {
    if payloads == [] then [] else
    Reported(payloads[0]) + MarkersOf(payloads[1..])
  }

  /** What a scanner is for, without a scanner: the markers of a whole stream. */
  function Markers(s: seq<byte>): seq<Marker> { MarkersOf(Payloads(s)) }

  // ---------------------------------------------------------------- refinement

  /** What is remembered of a payload read so far. */
  function Remembered(payload: seq<byte>): State {
    if |payload| > CEILING || !Compatible(payload) then Payload([], true) else Payload(payload, false)
  }

  /** It agrees with the prefix as far as both go. */
  predicate Compatible(payload: seq<byte>) {
    payload <= PREFIX || PREFIX <= payload
  }

  lemma CompatibleGrows(p: seq<byte>, b: byte)
    requires Compatible(p) && |p| <= CEILING
    ensures GivenUp(p + [b]) <==> |p + [b]| > CEILING || !Compatible(p + [b])
  {
    var q := p + [b];
    if |q| <= |PREFIX| {
      assert q <= PREFIX <==> q == PREFIX[..|q|];
      assert PREFIX <= q ==> q == PREFIX;
    } else {
      assert PREFIX <= p;
      assert q[..|PREFIX|] == p[..|PREFIX|];
    }
  }

  lemma CompatibleShrinks(p: seq<byte>, b: byte)
    requires Compatible(p + [b])
    ensures Compatible(p)
  {
    var q := p + [b];
    assert PREFIX <= q && |q| <= |PREFIX| ==> q == PREFIX;
    if q <= PREFIX {
      assert p == q[..|p|];
    } else if |q| > |PREFIX| {
      assert PREFIX == q[..|PREFIX|] == p[..|PREFIX|];
    }
  }

  /** Reading on in a payload remembers exactly that much of it. */
  lemma {:induction false} ScanPayload(start: seq<byte>, body: seq<byte>, j: nat)
    requires j <= |body| && forall k :: 0 <= k < j ==> !Ends(body[k])
    ensures Scan(Remembered(start), body[..j]) == (Remembered(start + body[..j]), [])
    decreases j
  {
    if j == 0 {
      assert start + body[..0] == start;
    } else {
      var p, b := start + body[..j - 1], body[j - 1];
      ScanPayload(start, body, j - 1);
      assert body[..j] == body[..j - 1] + [b] && start + body[..j] == p + [b];
      ScanConcat(Remembered(start), body[..j - 1], [b]);
      ScanOne(Remembered(p), b);
      RememberedGrows(p, b);
    }
  }

  lemma RememberedGrows(p: seq<byte>, b: byte)
    requires !Ends(b)
    ensures Next(Remembered(p), b) == (Remembered(p + [b]), [])
  {
    if |p| > CEILING || !Compatible(p) {
      if Compatible(p + [b]) { CompatibleShrinks(p, b); }
    } else {
      CompatibleGrows(p, b);
    }
  }

  /** Text up to the next introducer means nothing to a scanner. */
  lemma {:induction false} ScanText(s: seq<byte>)
    ensures var i := Introducer(s);
            if i == |s| then Scan(Text, s).1 == [] && !Scan(Text, s).0.Payload?
            else Scan(Text, s[..i + 2]) == (Payload([], false), [])
    decreases |s|
  {
    if s == [] {
    } else if |s| == 1 {
      ScanOne(Text, s[0]);
      assert s == [s[0]];
    } else if s[0] == ESC && s[1] == ']' as int {
      assert s[..2] == [s[0]] + [s[1]];
      ScanConcat(Text, [s[0]], [s[1]]);
      ScanOne(Text, s[0]);
      ScanOne(Escaped, s[1]);
    } else {
      var i := Introducer(s);
      ScanText(s[1..]);
      var upto := if i == |s| then s else s[..i + 2];
      assert upto[1..] == if i == |s| then s[1..] else s[1..][..i + 1];
      if s[0] == ESC {
        EscapedIsText(upto[1..]);
      }
    }
  }

  /** After an ESC, and before anything but `]`, a scanner is as if in text. */
  lemma EscapedIsText(s: seq<byte>)
    requires s != [] && s[0] != ']' as int
    ensures Scan(Escaped, s) == Scan(Text, s)
  {}

  /** Ending a payload reports it if it is ours and small enough, and goes on
      as if with the rest of the stream alone. */
  lemma ScanTerminator(payload: seq<byte>, rest: seq<byte>)
    requires rest != [] && Ends(rest[0])
    ensures var next := Scan(Text, if rest[0] == BEL then rest[1..] else rest);
            Scan(Remembered(payload), rest) == (next.0, Reported(payload) + next.1)
  {
    PendingIsReported(payload);
    var (s1, more) := Scan(Next(Text, rest[0]).0, rest[1..]);
    assert [] + more == more;
  }

  /** What a scanner would report if its payload ended now. */
  function Pending(s: State): seq<Marker> {
    if s.Payload? && !s.skipping then Listed(Parse(s.collected)) else []
  }

  lemma PendingIsReported(payload: seq<byte>)
    ensures Pending(Remembered(payload)) == Reported(payload)
  {
    if PREFIX <= payload { assert Compatible(payload); }
  }

  /** A payload, from its first byte: unfinished, or ended by `rest[0]`. */
  lemma ScanFromPayload(payload: seq<byte>, rest: seq<byte>)
    requires (forall k :: 0 <= k < |payload| ==> !Ends(payload[k])) && (rest != [] ==> Ends(rest[0]))
    ensures Scan(Payload([], false), payload + rest).1
            == if rest == [] then []
               else Reported(payload) + Scan(Text, if rest[0] == BEL then rest[1..] else rest).1
  {
    assert Remembered([]) == Payload([], false);
    hide Next, Remembered, Reported;
    ScanPayload([], payload, |payload|);
    assert [] + payload[..|payload|] == payload[..|payload|] == payload;
    ScanConcat(Payload([], false), payload, rest);
    if rest != [] {
      ScanTerminator(payload, rest);
    }
  }

  /** One whole OSC of a stream, from text to text. */
  lemma ScanOsc(s: seq<byte>, body: seq<byte>, j: nat)
    requires Introducer(s) < |s| && body == s[Introducer(s) + 2..] && j == Terminator(body)
    ensures j < |body| ==>
              Scan(Text, s).1 == Reported(body[..j]) + Scan(Text, if body[j] == BEL then body[j + 1..] else body[j..]).1
    ensures j == |body| ==> Scan(Text, s).1 == []
  {
    hide Scan, Reported, Ends, Terminator;
    var i := Introducer(s);
    ScanText(s);
    ScanConcat(Text, s[..i + 2], body);
    assert s == s[..i + 2] + body && body == body[..j] + body[j..];
    ScanFromPayload(body[..j], body[j..]);
  }

  lemma NoMarkers(s: seq<byte>)
    requires Introducer(s) == |s|
    ensures Markers(s) == []
  {
    hide Introducer;
  }

  /** The same of the specification. */
  lemma MarkersOsc(s: seq<byte>, body: seq<byte>, j: nat)
    requires Introducer(s) < |s| && body == s[Introducer(s) + 2..] && j == Terminator(body)
    ensures j < |body| ==>
              Markers(s) == Reported(body[..j]) + Markers(if body[j] == BEL then body[j + 1..] else body[j..])
    ensures j == |body| ==> Markers(s) == []
  {
    hide Introducer, Terminator, Reported;
    assert Payloads(s) == PayloadsIn([], body);
    if j < |body| {
      var rest := Payloads(if body[j] == BEL then body[j + 1..] else body[j..]);
      assert [] + body[..j] == body[..j] && Payloads(s) == [body[..j]] + rest;
      assert ([body[..j]] + rest)[1..] == rest;
      hide Payloads, PayloadsIn;
    }
  }

  /** The scanner, from its first byte, reports exactly the markers of the whole
      stream. */
  lemma {:induction false} ScanIsMarkers(s: seq<byte>)
    ensures Scan(Text, s).1 == Markers(s)
    decreases |s|
  {
    var i := Introducer(s);
    assert i < |s| ==> i + 2 <= |s|;
    hide *;
    if i == |s| {
      ScanText(s);
      NoMarkers(s);
    } else {
      var body := s[i + 2..];
      var j := Terminator(body);
      ScanOsc(s, body, j);
      MarkersOsc(s, body, j);
      if j < |body| { ScanIsMarkers(if body[j] == BEL then body[j + 1..] else body[j..]); }
    }
  }

  function Flatten(chunks: seq<seq<byte>>): seq<byte> {
    if chunks == [] then [] else chunks[0] + Flatten(chunks[1..])
  }

  lemma {:induction false} FlattenConcat(a: seq<seq<byte>>, b: seq<seq<byte>>)
    ensures Flatten(a + b) == Flatten(a) + Flatten(b)
  {
    if a == [] {
      assert a + b == b;
    } else {
      assert (a + b)[1..] == a[1..] + b;
      FlattenConcat(a[1..], b);
    }
  }

  /** A scanner fed chunk by chunk: its state after each, and all it found. */
  function FeedAll(s: State, chunks: seq<seq<byte>>): (State, seq<Marker>)
    decreases |chunks|
  {
    if chunks == [] then (s, []) else
    var (s1, found) := Scan(s, chunks[0]);
    var (s2, more) := FeedAll(s1, chunks[1..]);
    (s2, found + more)
  }

  lemma {:induction false} FeedAllIsScan(s: State, chunks: seq<seq<byte>>)
    ensures FeedAll(s, chunks) == Scan(s, Flatten(chunks))
    decreases |chunks|
  {
    if chunks != [] {
      FeedAllIsScan(Scan(s, chunks[0]).0, chunks[1..]);
      ScanConcat(s, chunks[0], Flatten(chunks[1..]));
    }
  }

  /** However the pty cuts the stream, the markers reported are those of the
      whole stream, in order. */
  lemma ChunksDoNotMatter(chunks: seq<seq<byte>>)
    ensures FeedAll(Text, chunks).1 == Markers(Flatten(chunks))
  {
    FeedAllIsScan(Text, chunks);
    ScanIsMarkers(Flatten(chunks));
  }

  // ------------------------------------------------------------ across a gap

  /** A payload left unfinished, ended by what comes after it. */
  function Joined(collected: seq<byte>, rest: seq<byte>): seq<Marker> {
    var j := Terminator(rest);
    if j == |rest| then [] else Reported(collected + rest[..j])
  }

  /** What a scanner in some state makes of a stretch of bytes over and above the
      markers the stretch itself holds: one at most, begun before it. */
  function Carry(s: State, rest: seq<byte>): seq<Marker> {
    match s
    case Text => []
    case Escaped => if rest != [] && rest[0] == ']' as int then Joined([], rest[1..]) else []
    case Payload(collected, skipping) => if skipping then [] else Joined(collected, rest)
  }

  lemma {:induction false} ScanPlain(s: seq<byte>)
    requires ESC !in s
    ensures Scan(Text, s) == (Text, [])
  {
    if s != [] {
      assert s[0] in s && Next(Text, s[0]) == (Text, []);
      ScanPlain(s[1..]);
      assert [] + Scan(Text, s[1..]).1 == [];
    }
  }

  lemma ScanJoins(start: seq<byte>, rest: seq<byte>)
    ensures Scan(Remembered(start), rest).1 == Joined(start, rest) + Scan(Text, rest).1
  {
    var j := Terminator(rest);
    var inside, outside := rest[..j], rest[j..];
    assert rest == inside + outside;
    assert forall k :: 0 <= k < j ==> inside[k] == rest[k];
    ScanPayload(start, rest, j);
    ScanPlain(inside);
    ScanConcat(Remembered(start), inside, outside);
    ScanConcat(Text, inside, outside);
    ScanOutside(start + inside, outside);
    hide Scan, Remembered, Reported, Ends;
    var next := Scan(Text, outside).1;
    assert [] + next == next;
  }

  lemma ScanOutside(payload: seq<byte>, outside: seq<byte>)
    requires outside == [] || Ends(outside[0])
    ensures Scan(Remembered(payload), outside).1
            == (if outside == [] then [] else Reported(payload)) + Scan(Text, outside).1
  {
    hide Remembered, Reported;
    if outside == [] {
      assert Scan(Text, outside).1 == [] && Scan(Remembered(payload), outside).1 == [];
    } else {
      ScanTerminator(payload, outside);
      if outside[0] == BEL { BellIsText(outside); }
    }
  }

  lemma BellIsText(s: seq<byte>)
    requires s != [] && s[0] == BEL
    ensures Scan(Text, s) == Scan(Text, s[1..])
  {
    assert [] + Scan(Text, s[1..]).1 == Scan(Text, s[1..]).1;
  }

  /** From any state a scanner can be in, a stretch of bytes yields its own
      markers, and before them at most the one that was unfinished. */
  lemma ScanCarries(s: State, rest: seq<byte>)
    requires Frugal(s)
    ensures Scan(s, rest).1 == Carry(s, rest) + Markers(rest)
  {
    ScanIsMarkers(rest);
    match s
    case Text =>
    case Escaped => EscapedCarries(rest);
    case Payload(collected, skipping) =>
      if skipping {
        ForeignIsNothing(rest);
        ScanJoins([0], rest);
      } else {
        assert Remembered(collected) == s;
        ScanJoins(collected, rest);
      }
  }

  /** A payload that is not ours is never reported, however it ends. */
  lemma ForeignIsNothing(rest: seq<byte>)
    ensures Remembered([0]) == Payload([], true) && Joined([0], rest) == []
  {
    hide Terminator;
    var payload := [0] + rest[..Terminator(rest)];
    assert payload[0] != PREFIX[0] && !(PREFIX <= payload);
  }

  lemma EscapedCarries(rest: seq<byte>)
    ensures Scan(Escaped, rest).1 == Carry(Escaped, rest) + Scan(Text, rest).1
  {
    if rest != [] && rest[0] == ']' as int {
      var tail := rest[1..];
      assert Remembered([]) == Payload([], false);
      assert Next(Escaped, rest[0]) == (Payload([], false), []) && Next(Text, rest[0]) == (Text, []);
      assert Scan(Escaped, rest).1 == [] + Scan(Payload([], false), tail).1;
      assert Scan(Text, rest).1 == [] + Scan(Text, tail).1;
      hide Remembered, Scan, Next, Joined;
      ScanJoins([], tail);
      assert forall m: seq<Marker> :: [] + m == m;
    } else if rest != [] {
      EscapedIsText(rest);
    }
  }

  /** The markers of any stretch of a stream are markers of the stream, together
      and in order. */
  lemma StretchIsWithin(a: seq<byte>, b: seq<byte>, c: seq<byte>) returns (before: seq<Marker>, after: seq<Marker>)
    ensures Markers(a + b + c) == before + Markers(b) + after
  {
    hide Scan, Carry, Markers;
    ScanIsMarkers(a + b + c);
    ScanConcat(Text, a + b, c);
    ScanConcat(Text, a, b);
    var s := Scan(Text, a).0;
    ScanIsFrugal(Text, a);
    ScanCarries(s, b);
    before := Scan(Text, a).1 + Carry(s, b);
    after := Scan(Scan(s, b).0, c).1;
    assert Scan(Text, a).1 + (Carry(s, b) + Markers(b)) == before + Markers(b);
  }

  /** The stretches of a stream, one after the other, through one scanner: what
      each was heard to ask for. */
  function Stretched(s: State, parts: seq<seq<byte>>): seq<Marker>
    decreases |parts|
  {
    if parts == [] then [] else Carry(s, parts[0]) + Markers(parts[0]) + Stretched(Scan(s, parts[0]).0, parts[1..])
  }

  /** What each stretch asks for by itself. */
  function Apart(parts: seq<seq<byte>>): seq<Marker> {
    if parts == [] then [] else Markers(parts[0]) + Apart(parts[1..])
  }

  /** Nothing unfinished at the end of one stretch is finished by the next. */
  predicate NothingCarried(s: State, parts: seq<seq<byte>>)
    decreases |parts|
  {
    parts == [] || (Carry(s, parts[0]) == [] && NothingCarried(Scan(s, parts[0]).0, parts[1..]))
  }

  lemma {:induction false} FeedAllStretches(s: State, parts: seq<seq<byte>>)
    requires Frugal(s)
    ensures FeedAll(s, parts).1 == Stretched(s, parts)
    decreases |parts|
  {
    if parts != [] {
      hide Carry, Scan, Markers, Frugal;
      ScanCarries(s, parts[0]);
      ScanIsFrugal(s, parts[0]);
      FeedAllStretches(Scan(s, parts[0]).0, parts[1..]);
    }
  }

  lemma {:induction false} StretchedIffNothingCarried(s: State, parts: seq<seq<byte>>)
    ensures |Apart(parts)| <= |Stretched(s, parts)|
    ensures Stretched(s, parts) == Apart(parts) <==> NothingCarried(s, parts)
    decreases |parts|
  {
    hide Carry, Scan, Markers;
    if parts != [] {
      var rest, next := parts[1..], Scan(s, parts[0]).0;
      StretchedIffNothingCarried(next, rest);
      if Carry(s, parts[0]) == [] {
        var own := Markers(parts[0]);
        assert [] + own == own;
        assert (own + Stretched(next, rest))[|own|..] == Stretched(next, rest);
        assert (own + Apart(rest))[|own|..] == Apart(rest);
      } else {
        assert |Stretched(s, parts)| > |Apart(parts)|;
      }
    }
  }

  /** A stream in pieces, some of which never reached a scanner. */
  datatype Piece = Piece(bytes: seq<byte>, heard: bool)

  function Bytes(pieces: seq<Piece>): seq<byte> {
    if pieces == [] then [] else pieces[0].bytes + Bytes(pieces[1..])
  }

  /** What the pieces that were heard ask for, each by itself. */
  function OwnOf(pieces: seq<Piece>): seq<Marker> {
    if pieces == [] then [] else (if pieces[0].heard then Markers(pieces[0].bytes) else []) + OwnOf(pieces[1..])
  }

  /** No request lies in a piece that was not heard, or across the end of a piece. */
  predicate NothingMissed(s: State, pieces: seq<Piece>)
    decreases |pieces|
  {
    pieces == []
    || (&& Carry(s, pieces[0].bytes) == [] && (pieces[0].heard || Markers(pieces[0].bytes) == [])
        && NothingMissed(Scan(s, pieces[0].bytes).0, pieces[1..]))
  }

  /** The pieces that were heard ask for all that the whole stream does exactly when
      nothing was missed. */
  lemma {:induction false} OwnIffNothingMissed(s: State, pieces: seq<Piece>)
    requires Frugal(s)
    ensures |OwnOf(pieces)| <= |Scan(s, Bytes(pieces)).1|
    ensures OwnOf(pieces) == Scan(s, Bytes(pieces)).1 <==> NothingMissed(s, pieces)
    decreases |pieces|
  {
    if pieces != [] {
      var p, rest := pieces[0], pieces[1..];
      var next := Scan(s, p.bytes).0;
      ScanIsFrugal(s, p.bytes);
      ScanCarries(s, p.bytes);
      ScanConcat(s, p.bytes, Bytes(rest));
      OwnIffNothingMissed(next, rest);
      hide Scan, Carry, Markers, Frugal;
      PieceCounts(Carry(s, p.bytes), Markers(p.bytes), p.heard, OwnOf(rest), Scan(next, Bytes(rest)).1);
    }
  }

  lemma PieceCounts(carried: seq<Marker>, own: seq<Marker>, heard: bool, few: seq<Marker>, all: seq<Marker>)
    requires |few| <= |all|
    ensures var a, b := (if heard then own else []) + few, carried + own + all;
            |a| <= |b| && (a == b <==> carried == [] && (heard || own == []) && few == all)
  {
    var a, b := (if heard then own else []) + few, carried + own + all;
    if |a| == |b| {
      assert carried == [] && (heard || own == []) && |few| == |all|;
      assert a[|own|..] == few && b[|own|..] == all;
      assert a[..|own|] == own == b[..|own|];
    }
  }

  // ------------------------------------------------------ what it costs, and loses

  /** What a scanner holds on to: no more than the ceiling, and nothing of an
      OSC that cannot be one of ours. */
  predicate Frugal(s: State) {
    s.Payload? ==> |s.collected| <= CEILING && Compatible(s.collected) && (s.skipping ==> s.collected == [])
  }

  lemma {:induction false} ScanIsFrugal(s: State, bytes: seq<byte>)
    requires Frugal(s)
    ensures Frugal(Scan(s, bytes).0)
    decreases |bytes|
  {
    hide Parse;
    if bytes != [] {
      if s.Payload? && !s.skipping && !Ends(bytes[0]) {
        CompatibleGrows(s.collected, bytes[0]);
      }
      assert [] <= PREFIX;
      ScanIsFrugal(Next(s, bytes[0]).0, bytes[1..]);
    }
  }

  // -------------------------------------------- a scanner that never gives up

  /** The same scanner without a ceiling, and without giving up on a payload that
      cannot be ours. */
  function NextFree(s: State, b: byte): (State, seq<Marker>) {
    if s.Payload? then
      if Ends(b) then (if b == ESC then Escaped else Text, Listed(Parse(s.collected)))
      else (Payload(s.collected + [b], false), [])
    else Next(s, b)
  }

  function ScanFree(s: State, bytes: seq<byte>): (State, seq<Marker>)
    decreases |bytes|
  {
    if bytes == [] then (s, []) else
    var (s1, found) := NextFree(s, bytes[0]);
    var (s2, more) := ScanFree(s1, bytes[1..]);
    (s2, found + more)
  }

  /** The markers of all payloads, however long. */
  function Unbounded(payloads: seq<seq<byte>>): seq<Marker> {
    if payloads == [] then [] else Listed(Parse(payloads[0])) + Unbounded(payloads[1..])
  }

  function PayloadsFrom(state: State, s: seq<byte>): seq<seq<byte>> {
    match state
    case Text => Payloads(s)
    case Escaped => if s != [] && s[0] == ']' as int then PayloadsIn([], s[1..]) else Payloads(s)
    case Payload(collected, _) => PayloadsIn(collected, s)
  }

  /** A byte of text introduces nothing unless it is an ESC before a `]`. */
  lemma PayloadsText(s: seq<byte>)
    requires s != []
    ensures Payloads(s) == if s[0] == ESC then PayloadsFrom(Escaped, s[1..]) else Payloads(s[1..])
  {
    if OpensAt(s, 0) {
      PayloadsOpen(s);
    } else {
      PayloadsSkip(s);
    }
  }

  lemma PayloadsOpen(s: seq<byte>)
    requires OpensAt(s, 0)
    ensures Payloads(s) == PayloadsIn([], s[1..][1..])
  {
    hide PayloadsIn;
    assert Introducer(s) == 0 && s[0 + 2..] == s[1..][1..];
  }

  lemma PayloadsSkip(s: seq<byte>)
    requires s != [] && !OpensAt(s, 0)
    ensures Payloads(s) == Payloads(s[1..])
  {
    hide PayloadsIn, Introducer;
    IntroducerSkip(s);
    var i := Introducer(s);
    if i < |s| { assert s[i + 2..] == s[1..][i - 1 + 2..]; }
  }

  lemma IntroducerSkip(s: seq<byte>)
    requires s != [] && !OpensAt(s, 0)
    ensures Introducer(s) == 1 + Introducer(s[1..])
  {}

  lemma PayloadsGrow(start: seq<byte>, s: seq<byte>)
    requires s != [] && !Ends(s[0])
    ensures PayloadsIn(start, s) == PayloadsIn(start + [s[0]], s[1..])
  {
    hide Payloads;
    var j := Terminator(s);
    if j < |s| {
      assert start + s[..j] == start + [s[0]] + s[1..][..j - 1];
      assert s[j..] == s[1..][j - 1..] && s[j + 1..] == s[1..][j..];
    }
  }

  /** It reports every payload that is a marker. */
  lemma {:induction false} FreeIsUnbounded(state: State, s: seq<byte>)
    ensures ScanFree(state, s).1 == Unbounded(PayloadsFrom(state, s))
    decreases |s|
  {
    if s == [] {
      assert Payloads(s) == [];
    } else {
      var (next, found) := NextFree(state, s[0]);
      FreeIsUnbounded(next, s[1..]);
      PayloadsText(s);
      hide Payloads, Parse, Unbounded;
      assert s[0..] == s;
      FreeStep(state, s, next, found);
    }
  }

  lemma FreeStep(state: State, s: seq<byte>, next: State, found: seq<Marker>)
    requires s != [] && NextFree(state, s[0]) == (next, found)
    ensures found + Unbounded(PayloadsFrom(next, s[1..])) == Unbounded(PayloadsFrom(state, s))
  {
    hide Payloads, Parse;
    PayloadsText(s);
    var more := Unbounded(PayloadsFrom(next, s[1..]));
    if state.Payload? && Ends(s[0]) {
      assert state.collected + s[..0] == state.collected && s[0..] == s;
      var rest := Payloads(if s[0] == BEL then s[1..] else s);
      assert PayloadsIn(state.collected, s) == [state.collected] + rest;
      assert ([state.collected] + rest)[1..] == rest;
    } else {
      assert [] + more == more;
      if state.Payload? { PayloadsGrow(state.collected, s); }
    }
  }

  /** Everything between ESC ] and the terminator, as the shim prints it. */
  function Payloaded(raw: string): seq<byte> { PREFIX + Encode("open;" + raw) }

  /** A payload is a request exactly when it is what the shim would print for some
      argument that is a safe URL but for the white space around it. */
  lemma RequestIffPayloaded(payload: seq<byte>)
    ensures Parse(payload).Some? <==> exists raw :: payload == Payloaded(raw) && SafeUrl(raw).Some?
  {
    if Parse(payload).Some? {
      var raw := RequestIsPayloaded(payload);
    }
    hide Parse, SafeUrl, Payloaded;
    if raw :| payload == Payloaded(raw) && SafeUrl(raw).Some? {
      ParsePayloaded(raw);
    }
  }

  lemma RequestIsPayloaded(payload: seq<byte>) returns (raw: string)
    requires Parse(payload).Some?
    ensures payload == Payloaded(raw) && SafeUrl(raw).Some?
  {
    hide SafeUrl, Decode, Encode, SplitOnce;
    var text := Decode(payload[|PREFIX|..]).value;
    DecodeIffEncoded(payload[|PREFIX|..], text);
    raw := SplitOnce(text, ';').value.1;
    SplitIsJoined(text, raw);
    assert payload == PREFIX + payload[|PREFIX|..];
  }

  lemma SplitIsJoined(text: string, raw: string)
    requires SplitOnce(text, ';') == Some(("open", raw))
    ensures text == "open;" + raw
  {
    hide Find;
    var i := Find(text, ';');
    assert text == text[..i] + [text[i]] + text[i + 1..];
  }

  /** A request whose argument makes its payload too long to be collected. */
  predicate TooLong(raw: string) { |Payloaded(raw)| > CEILING }

  predicate Safe(raw: string) { SafeUrl(raw).Some? }

  /** No request in the stream is too long. */
  ghost predicate AllFit(payloads: seq<seq<byte>>) {
    forall raw :: Safe(raw) && Payloaded(raw) in payloads ==> !TooLong(raw)
  }

  lemma {:induction false} BoundedIffAllFit(payloads: seq<seq<byte>>)
    ensures |MarkersOf(payloads)| <= |Unbounded(payloads)|
    ensures MarkersOf(payloads) == Unbounded(payloads) <==> AllFit(payloads)
    decreases |payloads|
  {
    hide Parse, SafeUrl, Payloaded;
    if payloads != [] {
      var p, rest := payloads[0], payloads[1..];
      BoundedIffAllFit(rest);
      assert payloads == [p] + rest;
      RequestIffPayloaded(p);
      if |p| > CEILING && Parse(p).Some? {
        var raw :| p == Payloaded(raw) && SafeUrl(raw).Some?;
        assert Safe(raw) && Payloaded(raw) in payloads && TooLong(raw);
        assert |MarkersOf(payloads)| < |Unbounded(payloads)|;
      } else {
        var head := Listed(Parse(p));
        assert Reported(p) == head;
        assert (head + MarkersOf(rest))[|head|..] == MarkersOf(rest);
        assert (head + Unbounded(rest))[|head|..] == Unbounded(rest);
        assert forall raw :: Safe(raw) && Payloaded(raw) == p ==> !TooLong(raw);
      }
    }
  }

  /** Giving up early is lossless exactly when no request in the stream is over
      the ceiling: the scanner then reports what one that never gives up would. */
  lemma GivingUpLoses(s: seq<byte>)
    ensures Scan(Text, s).1 == ScanFree(Text, s).1 <==> AllFit(Payloads(s))
  {
    ScanIsMarkers(s);
    FreeIsUnbounded(Text, s);
    BoundedIffAllFit(Payloads(s));
  }

  /** And such a request is white space for the most part. */
  lemma LostIsPadded(raw: string)
    requires Safe(raw) && TooLong(raw)
    ensures |Encode(raw)| - |Encode(SafeUrl(raw).value)| > 2030
  {
    EncodeConcat("open;", raw);
    EncodeOpen();
  }

  // ---------------------------------------------------------------- the shim

  const OPEN: seq<byte> := [ESC, ']' as int]
  const CLOSE: seq<byte> := [ESC, '\\' as int]

  /** What the shim prints for its argument, whatever bytes that is
      (deploy/docker/devpipe-open). */
  function Printed(arg: seq<byte>): seq<byte> { OPEN + PayloadOf(arg) + CLOSE }

  function PayloadOf(arg: seq<byte>): seq<byte> { PREFIX + Encode("open;") + arg }

  /** For an argument that is text. */
  function Shim(raw: string): seq<byte> { OPEN + Payloaded(raw) + CLOSE }

  lemma ShimIsPrinted(raw: string)
    ensures PayloadOf(Encode(raw)) == Payloaded(raw) && Shim(raw) == Printed(Encode(raw))
  {
    EncodeConcat("open;", raw);
    hide Encode;
  }

  function Asked(raw: string): Option<Marker> {
    match SafeUrl(raw) case None => None case Some(url) => Some(Open(url))
  }

  /** What an argument comes to: nothing, when it is not text. */
  function AskedOf(arg: seq<byte>): Option<Marker> {
    match Decode(arg) case None => None case Some(raw) => Asked(raw)
  }

  lemma ParsePayloadOf(arg: seq<byte>)
    ensures Parse(PayloadOf(arg)) == AskedOf(arg)
  {
    hide SafeUrl, Decode, Encode, SplitOnce, PayloadOf;
    PayloadOfStarts(arg);
    DecodeAfter("open;", arg);
    if Decode(arg).Some? { SplitOpen(Decode(arg).value); }
  }

  lemma PayloadOfStarts(arg: seq<byte>)
    ensures PREFIX <= PayloadOf(arg) && PayloadOf(arg)[|PREFIX|..] == Encode("open;") + arg
  {
    hide Encode;
  }

  lemma ParsePayloaded(raw: string)
    ensures Parse(Payloaded(raw)) == Asked(raw)
  {
    hide SafeUrl, Decode, Encode, SplitOnce;
    var text := "open;" + raw;
    DecodeIffEncoded(Encode(text), text);
    assert Payloaded(raw)[|PREFIX|..] == Encode(text) && PREFIX <= Payloaded(raw);
    SplitOpen(raw);
  }

  lemma SplitOpen(raw: string)
    ensures SplitOnce("open;" + raw, ';') == Some(("open", raw))
  {
    var text := "open;" + raw;
    FindIs(text, ';', 4);
    hide Find;
    assert text[..4] == "open" && text[5..] == raw;
  }

  /** A safe URL is never too long to be heard when nothing pads it. */
  lemma UnpaddedFits(url: string)
    requires SafeUrl(url) == Some(url)
    ensures |Payloaded(url)| <= |PREFIX| + 5 + 2048 <= CEILING
  {
    EncodeConcat("open;", url);
    EncodeOpen();
  }

  lemma EncodeOpen()
    ensures |Encode("open;")| == 5
  {
    assert "open;"[1..] == "pen;" && "pen;"[1..] == "en;" && "en;"[1..] == "n;" && "n;"[1..] == ";" && ";"[1..] == "";
    assert |Encode(";")| == 1 && |Encode("n;")| == 2 && |Encode("en;")| == 3 && |Encode("pen;")| == 4;
  }

  /** From any state, a string terminator leads back to plain text. */
  lemma TerminatorRecovers(s: State, rest: seq<byte>)
    ensures var next := Scan(Text, rest);
            Scan(s, CLOSE + rest) == (next.0, Pending(s) + next.1)
  {
    hide Parse;
    var bytes := CLOSE + rest;
    assert bytes[1..] == ['\\' as int] + rest && bytes[1..][1..] == rest;
    assert Next(s, ESC) == (Escaped, Pending(s));
    assert Scan(Escaped, bytes[1..]) == (Scan(Text, rest).0, [] + Scan(Text, rest).1);
    assert [] + Scan(Text, rest).1 == Scan(Text, rest).1;
  }

  predicate EndsText(c: char) { c as int == ESC || c as int == BEL }

  /** It neither ends a payload nor begins a control sequence. */
  predicate Plain(s: string) { forall i :: 0 <= i < |s| ==> !EndsText(s[i]) }

  /** An encoding's bytes end a payload only where its text has an ESC or a BEL. */
  lemma EncodePlain(text: string)
    requires Plain(text)
    ensures forall k :: 0 <= k < |Encode(text)| ==> !Ends(Encode(text)[k])
  {
    forall k | 0 <= k < |Encode(text)| ensures !Ends(Encode(text)[k]) {
      if Encode(text)[k] < 0x80 { var _ := AsciiIsItself(text, k); }
    }
  }

  lemma PayloadOfEnds(arg: seq<byte>)
    requires forall k :: 0 <= k < |arg| ==> !Ends(arg[k])
    ensures forall k :: 0 <= k < |PayloadOf(arg)| ==> !Ends(PayloadOf(arg)[k])
  {
    EncodePlain("open;");
    hide Encode;
  }

  lemma PayloadedEnds(raw: string)
    requires Plain(raw)
    ensures forall k :: 0 <= k < |Payloaded(raw)| ==> !Ends(Payloaded(raw)[k])
  {
    EncodePlain(raw);
    ShimIsPrinted(raw);
    hide Payloaded, Encode;
    PayloadOfEnds(Encode(raw));
  }

  /** What the shim prints, cut where its sequence ends. */
  lemma PrintedParts(arg: seq<byte>, i: nat)
    requires i <= |arg|
    ensures Printed(arg) == OPEN + (PayloadOf(arg[..i]) + (arg[i..] + CLOSE))
  {
    var head := PREFIX + Encode("open;");
    assert arg == arg[..i] + arg[i..];
    hide Encode;
    Assoc(head, arg[..i], arg[i..]);
    Assoc(OPEN, head + arg[..i] + arg[i..], CLOSE);
    Assoc(head + arg[..i], arg[i..], CLOSE);
  }

  /** Whatever came before, and whatever bytes its argument is: the shim's output
      finishes one pending payload at most, asks for what its argument comes to as
      far as the first ESC or BEL in it, then for whatever the rest of the argument
      spells by itself, and leaves plain text. */
  lemma ShimIsHeard(s: State, arg: seq<byte>)
    ensures var i := Terminator(arg);
            Scan(s, Printed(arg))
            == (Text, Pending(s) + (ReportedOf(arg[..i]) + Markers(arg[i..] + CLOSE)))
  {
    var i := Terminator(arg);
    var payload, tail := PayloadOf(arg[..i]), arg[i..] + CLOSE;
    PrintedParts(arg, i);
    assert Ends(tail[0]);
    assert forall k :: 0 <= k < i ==> arg[..i][k] == arg[k];
    PayloadOfEnds(arg[..i]);
    ParsePayloadOf(arg[..i]);
    hide *;
    assert Reported(payload) == ReportedOf(arg[..i]) by { ReportedIsOf(arg[..i]); }
    OpenIntroduces(s);
    ScanConcat(s, OPEN, payload + tail);
    ScanBody(payload, arg[i..]);
  }

  /** What an argument without an ESC or a BEL is heard to ask for. */
  function ReportedOf(arg: seq<byte>): seq<Marker> {
    if |PayloadOf(arg)| > CEILING then [] else Listed(AskedOf(arg))
  }

  lemma ReportedIsOf(arg: seq<byte>)
    ensures Reported(PayloadOf(arg)) == ReportedOf(arg)
  {
    hide Parse, PayloadOf, AskedOf;
    ParsePayloadOf(arg);
  }

  lemma ReportedIs(raw: string)
    ensures Reported(Payloaded(raw)) == if TooLong(raw) then [] else Listed(Asked(raw))
  {
    hide Parse, Payloaded, SafeUrl;
    ParsePayloaded(raw);
  }

  lemma ScanBody(payload: seq<byte>, mid: seq<byte>)
    requires (forall k :: 0 <= k < |payload| ==> !Ends(payload[k])) && Ends((mid + CLOSE)[0])
    ensures var tail := mid + CLOSE;
            Scan(Payload([], false), payload + tail) == (Text, Reported(payload) + Markers(tail))
  {
    var tail := mid + CLOSE;
    ScanTail(payload, mid);
    hide Parse, Markers, Next;
    ScanPayload([], payload, |payload|);
    assert [] + payload[..|payload|] == payload[..|payload|] == payload;
    ScanConcat(Payload([], false), payload, tail);
    assert [] <= PREFIX && Remembered([]) == Payload([], false);
    hide Scan, Remembered, Reported;
    var heard := Reported(payload) + Markers(tail);
    assert [] + heard == heard;
  }

  lemma OpenIntroduces(s: State)
    ensures Scan(s, OPEN) == (Payload([], false), Pending(s))
  {
    hide Parse;
    assert OPEN == [ESC] + [']' as int];
    ScanConcat(s, [ESC], [']' as int]);
    ScanOne(s, ESC);
    ScanOne(Escaped, ']' as int);
    assert Pending(s) + [] == Pending(s);
  }

  lemma ScanTail(payload: seq<byte>, mid: seq<byte>)
    requires Ends((mid + CLOSE)[0])
    ensures var tail := mid + CLOSE; Scan(Remembered(payload), tail) == (Text, Reported(payload) + Markers(tail))
  {
    var tail := mid + CLOSE;
    hide Remembered, Reported, Next;
    ScanTerminator(payload, tail);
    if tail[0] == BEL { BellIsText(tail); }
    ScanIsMarkers(tail);
    hide Markers;
    ScanConcat(Text, mid, CLOSE);
    TerminatorRecovers(Scan(Text, mid).0, []);
    assert CLOSE + [] == CLOSE;
  }

  /** The round trip: a URL the daemon would pass on unchanged arrives unchanged. */
  lemma ShimRoundTrip(s: State, url: string)
    requires SafeUrl(url) == Some(url)
    ensures Scan(s, Shim(url)) == (Text, Pending(s) + [Open(url)])
  {
    UnpaddedFits(url);
    SafeUrlPlain(url);
    ShimPlain(s, url);
  }

  lemma ShimPlain(s: State, raw: string)
    requires Plain(raw)
    ensures Scan(s, Shim(raw)) == (Text, Pending(s) + if TooLong(raw) then [] else Listed(Asked(raw)))
  {
    hide SafeUrl, Payloaded, Markers, Encode, Decode, Scan, Plain, PayloadOf, Ends, Pending;
    var arg := Encode(raw);
    EncodePlain(raw);
    ShimIsPrinted(raw);
    DecodeIffEncoded(arg, raw);
    CloseAlone();
    ShimIsHeard(s, arg);
    assert arg[..|arg|] == arg && arg[|arg|..] + CLOSE == CLOSE;
    var heard := if TooLong(raw) then [] else Listed(Asked(raw));
    assert heard + [] == heard;
  }

  lemma CloseAlone()
    ensures Markers(CLOSE) == []
  {
    assert CLOSE[1..] == ['\\' as int];
  }

  // ---------------------------------------------------------------- padding

  function Spaces(n: nat): (s: string)
    ensures |s| == n
  {
    if n == 0 then "" else [' '] + Spaces(n - 1)
  }

  lemma SpacesCons(n: nat, url: string)
    requires n > 0
    ensures (Spaces(n) + url)[0] == ' ' && (Spaces(n) + url)[1..] == Spaces(n - 1) + url
  {}

  lemma {:induction false} TrimSpaces(n: nat, url: string)
    requires url != [] && !IsWhite(url[0])
    ensures TrimStart(Spaces(n) + url) == url
    decreases n
  {
    if n == 0 {
      hide IsWhite;
      assert Spaces(0) + url == url;
    } else {
      hide TrimStart, IsWhite, Spaces;
      SpacesCons(n, url);
      SpaceIsWhite();
      TrimStartOnce(Spaces(n) + url);
      TrimSpaces(n - 1, url);
    }
  }

  lemma TrimStartOnce(s: string)
    requires s != "" && IsWhite(s[0])
    ensures TrimStart(s) == TrimStart(s[1..])
  {
    hide IsWhite;
  }

  lemma SpaceIsWhite()
    ensures IsWhite(' ')
  {}

  lemma TrimPadding(n: nat, url: string)
    requires url != [] && !IsWhite(url[0]) && !IsWhite(url[|url| - 1])
    ensures Trim(Spaces(n) + url) == url
  {
    hide IsWhite, TrimStart, Spaces;
    TrimSpaces(n, url);
  }

  lemma {:induction false} SpacesPlain(n: nat)
    ensures forall i :: 0 <= i < n ==> Spaces(n)[i] == ' '
    ensures |Encode(Spaces(n))| == n
  {
    if n > 0 {
      SpacesPlain(n - 1);
      assert Spaces(n)[1..] == Spaces(n - 1);
    }
  }

  /** The losing family: a safe URL behind spaces is one `safe_url` accepts, and is
      heard exactly when the two together leave room for the eighteen bytes before
      them. */
  lemma PaddedIsLost(n: nat, url: string)
    requires SafeUrl(url) == Some(url)
    ensures SafeUrl(Spaces(n) + url) == Some(url)
    ensures Scan(Text, Shim(Spaces(n) + url))
            == (Text, if n + |Encode(url)| > CEILING - 18 then [] else [Open(url)])
  {
    hide *;
    var raw := Spaces(n) + url;
    PaddedIsSafe(n, url);
    PaddedLength(n, url);
    PaddedIsPlain(n, url);
    ShimPlain(Text, raw);
    PendingInText(raw);
  }

  lemma PendingInText(raw: string)
    requires SafeUrl(raw).Some?
    ensures Listed(Asked(raw)) == [Open(SafeUrl(raw).value)] && Pending(Text) == []
    ensures forall m: seq<Marker> :: Pending(Text) + m == m
  {
    hide SafeUrl;
  }

  lemma PaddedIsSafe(n: nat, url: string)
    requires SafeUrl(url) == Some(url)
    ensures SafeUrl(Spaces(n) + url) == Some(url)
  {
    hide Encode, Spaces;
    SafeUrlTrimmed(url);
    TrimPadding(n, url);
  }

  lemma PaddedLength(n: nat, url: string)
    ensures TooLong(Spaces(n) + url) <==> n + |Encode(url)| > CEILING - 18
  {
    SpacesPlain(n);
    EncodeConcat("open;", Spaces(n) + url);
    EncodeConcat(Spaces(n), url);
    EncodeOpen();
    hide Encode, Spaces;
  }

  lemma PaddedIsPlain(n: nat, url: string)
    requires SafeUrl(url) == Some(url)
    ensures Plain(Spaces(n) + url)
  {
    SafeUrlPlain(url);
    SpacesPlain(n);
    hide SafeUrl, Encode, Spaces;
    var raw := Spaces(n) + url;
    forall i | 0 <= i < |raw| ensures !EndsText(raw[i]) {
      if i < n { assert raw[i] == Spaces(n)[i]; } else { assert raw[i] == url[i - n]; }
    }
  }

  lemma SafeUrlPlain(url: string)
    requires SafeUrl(url) == Some(url)
    ensures Plain(url)
  {
    hide SafeUrl, Trim, EndsText;
    SafeUrlIsTrimmed(url);
    SafeUrlTrimmed(url);
  }

  lemma SafeUrlTrimmed(url: string)
    requires SafeUrl(url) == Some(url)
    ensures Trim(url) == url && url != [] && !IsWhite(url[0]) && !IsWhite(url[|url| - 1])
  {}

  lemma PlainTrim()
    ensures Trim("http://a") == "http://a"
  {
    TrimFixed("http://a");
  }

  /** There are such URLs. */
  lemma PlainUrl()
    ensures SafeUrl("http://a") == Some("http://a")
  {
    var url := "http://a";
    PlainTrim();
    ShortEncode(url);
    hide Trim, Encode;
    assert HTTP <= url && url[|HTTP|..] == "a" && url[4] != HTTPS[4];
  }

  // ---------------------------------------------------- what can be finished

  /** A state from which some bytes could make a request that is not all theirs:
      an ESC just seen, or the beginning of a request. */
  ghost predicate Hopeful(s: State) {
    match s
    case Text => false
    case Escaped => true
    case Payload(collected, skipping) =>
      !skipping && exists raw :: Safe(raw) && !TooLong(raw) && collected <= Payloaded(raw)
  }

  /** A stretch can be misheard exactly after such a state. */
  lemma MisheardIffHopeful(s: State)
    ensures (exists rest :: Carry(s, rest) != []) <==> Hopeful(s)
  {
    hide Parse, SafeUrl, Payloaded, Terminator;
    if rest :| Carry(s, rest) != [] {
      if s.Payload? {
        var p := s.collected + rest[..Terminator(rest)];
        RequestIffPayloaded(p);
        var raw :| p == Payloaded(raw) && SafeUrl(raw).Some?;
        assert Safe(raw) && !TooLong(raw) && s.collected <= Payloaded(raw);
      }
    }
    if Hopeful(s) {
      if s.Escaped? {
        PlainUrl();
        UnpaddedFits("http://a");
        var rest := FinishesWith([], "http://a");
        assert ([']' as int] + rest)[1..] == rest;
        assert Carry(s, [']' as int] + rest) != [];
      } else {
        var raw :| Safe(raw) && !TooLong(raw) && s.collected <= Payloaded(raw);
        var rest := FinishesWith(s.collected, raw);
        assert Carry(s, rest) != [];
      }
    }
  }

  /** The bytes that finish a request. */
  lemma FinishesWith(begun: seq<byte>, raw: string) returns (rest: seq<byte>)
    requires Safe(raw) && !TooLong(raw) && begun <= Payloaded(raw)
    ensures Joined(begun, rest) == Listed(Asked(raw)) != []
  {
    hide SafeUrl, Payloaded, Reported, Asked, Joined, TooLong, Safe;
    SafeIsPlain(raw);
    PayloadedEnds(raw);
    ReportedIs(raw);
    AskedSafe(raw);
    var left := Payloaded(raw)[|begun|..];
    assert begun + left == Payloaded(raw);
    assert forall k :: 0 <= k < |left| ==> left[k] == Payloaded(raw)[|begun| + k];
    JoinedIs(begun, left);
    rest := left + [BEL];
  }

  lemma JoinedIs(begun: seq<byte>, left: seq<byte>)
    requires forall k :: 0 <= k < |left| ==> !Ends(left[k])
    ensures Joined(begun, left + [BEL]) == Reported(begun + left)
  {
    hide Reported;
    TerminatorIs(left + [BEL], |left|);
    assert (left + [BEL])[..|left|] == left;
  }

  lemma AskedSafe(raw: string)
    requires Safe(raw)
    ensures Listed(Asked(raw)) != []
  {
    hide SafeUrl;
  }

  lemma {:induction false} TerminatorIs(s: seq<byte>, j: nat)
    requires j < |s| && Ends(s[j]) && forall k :: 0 <= k < j ==> !Ends(s[k])
    ensures Terminator(s) == j
  {
    if j > 0 { TerminatorIs(s[1..], j - 1); }
  }

  /** What a safe URL is padded with is white space, and no ESC or BEL is. */
  lemma SafeIsPlain(raw: string)
    requires Safe(raw)
    ensures Plain(raw)
  {
    SafeUrlIsTrimmed(raw);
    hide SafeUrl;
    TrimEndPlain(TrimStart(raw));
    TrimStartPlain(raw);
  }

  lemma SafeUrlIsTrimmed(raw: string)
    requires Safe(raw)
    ensures Plain(Trim(raw))
  {
    hide Trim, Encode;
    assert forall i :: 0 <= i < |Trim(raw)| ==> !IsControl(Trim(raw)[i]);
  }

  lemma {:induction false} TrimStartPlain(s: string)
    requires Plain(TrimStart(s))
    ensures Plain(s)
  {
    if s != "" && IsWhite(s[0]) {
      TrimStartPlain(s[1..]);
      forall i | 0 <= i < |s| ensures !EndsText(s[i]) {
        if i > 0 { assert s[i] == s[1..][i - 1]; }
      }
    }
  }

  lemma {:induction false} TrimEndPlain(s: string)
    requires Plain(TrimEnd(s))
    ensures Plain(s)
    decreases |s|
  {
    if s != "" && IsWhite(s[|s| - 1]) {
      TrimEndPlain(s[..|s| - 1]);
      forall i | 0 <= i < |s| ensures !EndsText(s[i]) {
        if i < |s| - 1 { assert s[i] == s[..|s| - 1][i]; }
      }
    }
  }
}
