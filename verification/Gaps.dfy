/** What a client that fell behind was not told (devpipe/src/keeper.rs): requests
    printed inside a gap, or across the edge of one. */
module Gaps {
  import opened Basics
  import M = Marker
  import opened Attach
  import opened Hearing

  // --------------------------------------------------- stretches and gaps woven

  /** Where the chunks of some stretches end, counted from `at`. */
  function Reached(at: nat, spans: seq<(nat, nat)>): nat {
    if spans == [] then at
    else
      var init, last := spans[..|spans| - 1], spans[|spans| - 1];
      if last.0 >= last.1 then Reached(at, init) else last.1
  }

  /** Stretches that come one after the other. */
  predicate Ordered(at: nat, spans: seq<(nat, nat)>) {
    spans == []
    || (var init, last := spans[..|spans| - 1], spans[|spans| - 1];
        Ordered(at, init) && (last.0 == last.1 || Reached(at, init) <= last.0 < last.1))
  }

  lemma {:induction false} OrderedGrows(at: nat, spans: seq<(nat, nat)>)
    requires Ordered(at, spans)
    ensures at <= Reached(at, spans)
  {
    if spans != [] { OrderedGrows(at, spans[..|spans| - 1]); }
  }

  /** The same in time: what was printed between them, and they themselves. */
  function Woven(chunks: seq<seq<byte>>, at: nat, spans: seq<(nat, nat)>): seq<M.Piece>
    requires Ordered(at, spans) && Reached(at, spans) <= |chunks|
    decreases |spans|
  {
    if spans == [] then []
    else
      var init := spans[..|spans| - 1];
      var (lo, hi) := spans[|spans| - 1];
      if lo == hi then Woven(chunks, at, init)
      else
        OrderedGrows(at, init);
        Woven(chunks, at, init)
        + [M.Piece(M.Flatten(chunks[Reached(at, init)..lo]), false), M.Piece(M.Flatten(chunks[lo..hi]), true)]
  }

  lemma {:induction false} BytesConcat(a: seq<M.Piece>, b: seq<M.Piece>)
    ensures M.Bytes(a + b) == M.Bytes(a) + M.Bytes(b)
  {
    if a == [] {
      assert a + b == b;
    } else {
      assert (a + b)[0] == a[0] && (a + b)[1..] == a[1..] + b;
      BytesConcat(a[1..], b);
    }
  }

  lemma {:induction false} OwnConcat(a: seq<M.Piece>, b: seq<M.Piece>)
    ensures M.OwnOf(a + b) == M.OwnOf(a) + M.OwnOf(b)
  {
    hide M.Markers;
    if a == [] {
      assert a + b == b;
    } else {
      assert (a + b)[0] == a[0] && (a + b)[1..] == a[1..] + b;
      OwnConcat(a[1..], b);
    }
  }

  lemma PairBytes(gap: M.Piece, part: M.Piece)
    requires !gap.heard && part.heard
    ensures M.Bytes([gap, part]) == gap.bytes + part.bytes && M.OwnOf([gap, part]) == M.Markers(part.bytes)
  {
    hide M.Markers;
    assert [gap, part][1..] == [part] && [part][1..] == [];
    assert M.Bytes([part]) == part.bytes + [] && M.OwnOf([part]) == M.Markers(part.bytes) + [];
    assert M.OwnOf([gap, part]) == [] + M.OwnOf([part]);
  }

  lemma FlattenSplit(chunks: seq<seq<byte>>, lo: nat, mid: nat, hi: nat)
    requires lo <= mid <= hi <= |chunks|
    ensures M.Flatten(chunks[lo..hi]) == M.Flatten(chunks[lo..mid]) + M.Flatten(chunks[mid..hi])
  {
    assert chunks[lo..hi] == chunks[lo..mid] + chunks[mid..hi];
    M.FlattenConcat(chunks[lo..mid], chunks[mid..hi]);
  }

  /** Woven together they are all that was printed. */
  lemma {:induction false} WovenBytes(chunks: seq<seq<byte>>, at: nat, spans: seq<(nat, nat)>)
    requires Ordered(at, spans) && Reached(at, spans) <= |chunks|
    ensures at <= Reached(at, spans)
    ensures M.Bytes(Woven(chunks, at, spans)) == M.Flatten(chunks[at..Reached(at, spans)])
    decreases |spans|
  {
    OrderedGrows(at, spans);
    if spans == [] {
      assert chunks[at..at] == [];
    } else {
      var init := spans[..|spans| - 1];
      var (lo, hi) := spans[|spans| - 1];
      OrderedGrows(at, init);
      WovenBytes(chunks, at, init);
      if lo < hi {
        var mid := Reached(at, init);
        var gap, part := M.Piece(M.Flatten(chunks[mid..lo]), false), M.Piece(M.Flatten(chunks[lo..hi]), true);
        hide M.Flatten, M.Bytes, M.OwnOf;
        BytesConcat(Woven(chunks, at, init), [gap, part]);
        PairBytes(gap, part);
        FlattenSplit(chunks, at, mid, lo);
        FlattenSplit(chunks, at, lo, hi);
        Assoc(M.Flatten(chunks[at..mid]), gap.bytes, part.bytes);
      }
    }
  }

  lemma ApartSnoc(parts: seq<seq<byte>>, part: seq<byte>)
    ensures M.Apart(parts + [part]) == M.Apart(parts) + M.Markers(part)
  {
    ApartConcat(parts, [part]);
    hide M.Markers;
    assert [part][1..] == [] && M.Apart([part]) == M.Markers(part) + [];
  }

  lemma {:induction false} ApartConcat(a: seq<seq<byte>>, b: seq<seq<byte>>)
    ensures M.Apart(a + b) == M.Apart(a) + M.Apart(b)
  {
    hide M.Markers;
    if a == [] {
      assert a + b == b;
    } else {
      assert (a + b)[1..] == a[1..] + b;
      ApartConcat(a[1..], b);
    }
  }

  lemma NothingInNothing()
    ensures M.Markers([]) == []
  {}

  /** And what was heard of them is what the stretches ask for. */
  lemma {:induction false} WovenOwn(chunks: seq<seq<byte>>, at: nat, parts: seq<seq<byte>>, spans: seq<(nat, nat)>)
    requires Ordered(at, spans) && Reached(at, spans) <= |chunks| && |parts| == |spans|
    requires forall k :: 0 <= k < |parts| ==> IsStretch(chunks, parts[k], spans[k])
    ensures M.OwnOf(Woven(chunks, at, spans)) == M.Apart(parts)
    decreases |spans|
  {
    if spans != [] {
      var n := |spans| - 1;
      var init := spans[..n];
      var (lo, hi) := spans[n];
      assert parts == parts[..n] + [parts[n]] && IsStretch(chunks, parts[n], spans[n]);
      OrderedGrows(at, init);
      WovenOwn(chunks, at, parts[..n], init);
      ApartSnoc(parts[..n], parts[n]);
      if lo == hi {
        assert chunks[lo..hi] == [];
        NothingInNothing();
      } else {
        var gap := M.Piece(M.Flatten(chunks[Reached(at, init)..lo]), false);
        var part := M.Piece(M.Flatten(chunks[lo..hi]), true);
        hide M.Flatten, M.Bytes, M.OwnOf, M.Apart, M.Markers;
        OwnConcat(Woven(chunks, at, init), [gap, part]);
        PairBytes(gap, part);
      }
    }
  }

  // ------------------------------------------------------------------ over runs

  /** The stretches follow each other up to the cursor, less what was drained. */
  ghost predicate Sorted(s: State) {
    Ordered(s.from, Spans(s.log)) && Reached(s.from, Spans(s.log)) + Lasts(s.log) <= s.next
  }

  lemma SortedRecv(s: State)
    requires Ring(s) && Tracked(s) && Sorted(s) && Can(s, Recv) && !Lagged(s)
    ensures Sorted(Do(s, Recv))
  {
    hide M.Scan, M.Flatten, Parts, Spans, LoopBytes, Lasts, Replays, IsStretch, Painted, Ordered, Reached;
    var found := HeardAll(M.Scan(s.scan, s.chunks[s.next]).1);
    var one := s.log + [Raw(s.next)];
    assert Do(s, Recv).log == one + found by { Assoc(s.log, [Raw(s.next)], found); }
    PartsSnoc(s.log, Raw(s.next), s.chunks);
    PartsQuiet(one, found, s.chunks);
    CountsOne(s.log, Raw(s.next));
    CountsAppend(one, found);
    SpansGrow(s.from, Spans(s.log), s.next);
  }

  /** Forwarding the next chunk keeps the order. */
  lemma SpansGrow(at: nat, spans: seq<(nat, nat)>, i: nat)
    requires Ordered(at, spans) && Reached(at, spans) <= i && (!Unbegun(spans) ==> spans[|spans| - 1].1 == i)
    ensures Ordered(at, AddSpan(spans, Raw(i))) && Reached(at, AddSpan(spans, Raw(i))) == i + 1
  {
    var grown := AddSpan(spans, Raw(i));
    if spans == [] {
      assert grown[..0] == [];
    } else {
      assert grown[..|grown| - 1] == spans[..|spans| - 1];
    }
  }

  lemma SortedReplay(s: State, a: Step)
    requires Ring(s) && Sorted(s) && Can(s, a) && (a.FirstReplay? || a.Resync?)
    ensures Sorted(Do(s, a))
  {
    PartsSnoc(s.log, Replay(|s.chunks|), s.chunks);
    CountsOne(s.log, Replay(|s.chunks|));
    assert (Spans(s.log) + [(0, 0)])[..|Spans(s.log)|] == Spans(s.log);
    hide Spans, Lasts, Painted, Parts;
  }

  lemma SortedOther(s: State, a: Step)
    requires Ring(s) && Sorted(s) && Can(s, a) && (a.Drain? || a.Finish?)
    ensures Sorted(Do(s, a))
  {
    hide Spans, Parts, Lasts, Painted, Ordered, Reached;
    PartsQuiet(s.log, Added(s, a), s.chunks);
    if a.Drain? { CountsOne(s.log, Last(s.next)); } else { CountsAppend(s.log, Added(s, a)); }
  }

  lemma NothingBegun(s: State)
    requires Ring(s) && s.phase == Outside
    ensures Spans(s.log) == [] && Lasts(s.log) == 0 && Ordered(s.sent, []) && Reached(s.sent, []) == s.sent
  {}

  lemma SortedKept(s: State, a: Step)
    requires Ring(s) && Tracked(s) && Sorted(s) && Can(s, a)
    ensures Sorted(Do(s, a))
  {
    if a.Subscribe? { NothingBegun(s); }
    hide M.Flatten, M.Scan, Parts, Spans, IsStretch, Painted, HeardAll, Lasts, Ordered, Reached, Tracked;
    if a.Recv? && !Lagged(s) {
      SortedRecv(s);
    } else if a.Drain? || a.Finish? {
      SortedOther(s, a);
    } else if a.FirstReplay? || a.Resync? {
      SortedReplay(s, a);
    }
  }

  lemma {:induction false} RunSorts(s: State, run: seq<Step>)
    requires Ring(s) && Sound(s) && Tracked(s) && Sorted(s) && Runs(s, run)
    ensures Sorted(After(s, run))
    decreases |run|
  {
    if run != [] {
      assert Numbered(s);
      hide Ring, Sound, Tracked, Sorted, Numbered, Can, Do;
      RingKept(s, run[0]);
      SoundKept(s, run[0]);
      TrackedKept(s, run[0]);
      SortedKept(s, run[0]);
      RunSorts(Do(s, run[0]), run[1..]);
    }
  }

  /** Stretches and gaps up to `upto`, the last gap included. */
  function WovenTo(chunks: seq<seq<byte>>, from: nat, spans: seq<(nat, nat)>, upto: nat): seq<M.Piece>
    requires Ordered(from, spans) && Reached(from, spans) <= upto <= |chunks|
  {
    Woven(chunks, from, spans) + [M.Piece(M.Flatten(chunks[Reached(from, spans)..upto]), false)]
  }

  lemma WovenAll(chunks: seq<seq<byte>>, from: nat, parts: seq<seq<byte>>, spans: seq<(nat, nat)>, upto: nat)
    requires Ordered(from, spans) && Reached(from, spans) <= upto <= |chunks|
    requires |parts| == |spans| && forall k :: 0 <= k < |parts| ==> IsStretch(chunks, parts[k], spans[k])
    ensures from <= upto && M.Bytes(WovenTo(chunks, from, spans, upto)) == M.Flatten(chunks[from..upto])
    ensures M.OwnOf(WovenTo(chunks, from, spans, upto)) == M.Apart(parts)
  {
    var woven, at := Woven(chunks, from, spans), Reached(from, spans);
    WovenBytes(chunks, from, spans);
    WovenOwn(chunks, from, parts, spans);
    hide M.Flatten, M.Bytes, M.OwnOf, Ordered, Reached, Woven, M.Apart, IsStretch;
    UnheardLast(woven, M.Flatten(chunks[at..upto]));
    FlattenSplit(chunks, from, at, upto);
  }

  /** The stretches a client was sent by the loop, and all else that was printed
      since it subscribed and before what was drained for it. */
  ghost function Pieces(s: State): seq<M.Piece>
    requires Ordered(s.from, Spans(s.log)) && Reached(s.from, Spans(s.log)) + Lasts(s.log) <= s.next <= |s.chunks|
  {
    WovenTo(s.chunks, s.from, Spans(s.log), s.next - Lasts(s.log))
  }

  lemma UnheardLast(pieces: seq<M.Piece>, bytes: seq<byte>)
    ensures M.Bytes(pieces + [M.Piece(bytes, false)]) == M.Bytes(pieces) + bytes
    ensures M.OwnOf(pieces + [M.Piece(bytes, false)]) == M.OwnOf(pieces)
  {
    var last := [M.Piece(bytes, false)];
    BytesConcat(pieces, last);
    OwnConcat(pieces, last);
    assert last[1..] == [] && M.Bytes(last) == bytes + [] && M.OwnOf(last) == [];
    hide M.Bytes, M.OwnOf;
    assert M.OwnOf(pieces) + [] == M.OwnOf(pieces);
  }

  /** In every run: the stretches a client was sent ask for all that the child did
      between its subscription and its cursor exactly when no request lies in a gap
      or across the edge of one; and when nothing was carried over a gap, that is
      exactly when the client has been told everything. */
  lemma ToldAllIffNothingMissed(run: seq<Step>)
    requires Runs(START, run)
    ensures var s := After(START, run); var parts := Parts(s.log, s.chunks);
            && Ordered(s.from, Spans(s.log)) && Reached(s.from, Spans(s.log)) + Lasts(s.log) <= s.next <= |s.chunks|
            && s.from <= s.next - Lasts(s.log)
            && var printed := M.Flatten(s.chunks[s.from..s.next - Lasts(s.log)]);
            && M.Bytes(Pieces(s)) == printed
            && (M.Apart(parts) == M.Markers(printed) <==> M.NothingMissed(M.Text, Pieces(s)))
            && (M.NothingCarried(M.Text, parts) ==>
                  (Notices(s.log) == M.Markers(printed) <==> M.NothingMissed(M.Text, Pieces(s))))
  {
    hide Ring, Sound, Listening, Straight, Tracked, Sorted, Runs, After, Spans, Parts, Notices, Lasts, Ordered, Reached;
    hide M.Markers, M.Flatten, M.Apart, M.Stretched, M.NothingCarried, M.NothingMissed, Pieces, IsStretch;
    StartKeeps();
    SortedStart();
    HeardByStretch(run);
    RunTracks(START, run);
    RunSorts(START, run);
    ToldAll(After(START, run));
  }

  lemma SortedStart()
    ensures Sorted(START)
  {}

  lemma ToldAll(s: State)
    requires Ring(s) && Tracked(s) && Sorted(s)
    ensures Ordered(s.from, Spans(s.log)) && Reached(s.from, Spans(s.log)) + Lasts(s.log) <= s.next <= |s.chunks|
    ensures s.from <= s.next - Lasts(s.log)
    ensures var printed := M.Flatten(s.chunks[s.from..s.next - Lasts(s.log)]);
            && M.Bytes(Pieces(s)) == printed
            && (M.Apart(Parts(s.log, s.chunks)) == M.Markers(printed) <==> M.NothingMissed(M.Text, Pieces(s)))
  {
    hide M.Flatten, M.Bytes, M.OwnOf, M.Scan, M.Markers, M.NothingMissed, M.Apart;
    hide Parts, Spans, Lasts, Ordered, Reached;
    WovenAll(s.chunks, s.from, Parts(s.log, s.chunks), Spans(s.log), s.next - Lasts(s.log));
    hide WovenTo;
    M.OwnIffNothingMissed(M.Text, Pieces(s));
    M.ScanIsMarkers(M.Bytes(Pieces(s)));
  }

  // -------------------------------------------------------- a request in the gap

  /** A request printed before a ringful more, while the client is not looking. */
  function Missing(url: string): seq<Step> {
    [Subscribe, FirstReplay, Read(M.Shim(url)), Send] + Flood(BACKLOG, [M.BEL]) + [Look, Recv, Resync]
  }

  lemma MissingBegins(chunk: seq<byte>)
    requires chunk != []
    ensures var run := [Subscribe, FirstReplay, Read(chunk), Send];
            Runs(START, run) && After(START, run) == State([chunk], 1, true, Head, 0, 0, M.Text, [Replay(0)])
  {
    var s2 := START.(phase := Head, log := [Replay(0)]);
    var s4 := s2.(chunks := [chunk], sent := 1);
    RunsTwo(START, Subscribe, FirstReplay);
    RunsTwo(s2, Read(chunk), Send);
    assert [] + [Replay(0)] == [Replay(0)] && [] + [chunk] == [chunk];
    assert Do(Do(START, Subscribe), FirstReplay) == s2 && Do(Do(s2, Read(chunk)), Send) == s4;
    hide Can, Do, Runs, After;
    RunsConcat(START, [Subscribe, FirstReplay], [Read(chunk), Send]);
    assert [Subscribe, FirstReplay] + [Read(chunk), Send] == [Subscribe, FirstReplay, Read(chunk), Send];
  }

  lemma MissingEnds(s: State)
    requires s.alive && s.phase == Head && s.next == 0 && s.sent == |s.chunks| == BACKLOG + 1 && s.log == [Replay(0)]
    ensures var run := [Look, Recv, Resync]; Runs(s, run)
    ensures var t := After(s, [Look, Recv, Resync]);
            t.log == [Replay(0), Replay(s.sent)] && t.chunks == s.chunks && t.phase == Head && !Lagged(t)
  {
    RunsThree(s, Look, Recv, Resync);
    assert [Replay(0)] + [Replay(s.sent)] == [Replay(0), Replay(s.sent)];
  }

  lemma ShimThenBells(url: string, bells: seq<seq<byte>>)
    requires M.SafeUrl(url) == Some(url) && forall k :: 0 <= k < |bells| ==> bells[k] == [M.BEL]
    ensures M.Markers(M.Flatten([M.Shim(url)] + bells)) == [M.Open(url)]
  {
    var tail := M.Flatten(bells);
    hide M.Shim, M.SafeUrl, M.Scan, M.Markers, M.Flatten;
    Bells(bells);
    assert M.ESC !in tail;
    M.ShimRoundTrip(M.Text, url);
    M.ScanPlain(tail);
    M.FlattenConcat([M.Shim(url)], bells);
    FlattenOne(M.Shim(url));
    M.ScanIsMarkers(M.Shim(url) + tail);
    M.ScanConcat(M.Text, M.Shim(url), tail);
    assert M.Pending(M.Text) == [];
    assert [] + [M.Open(url)] + [] == [M.Open(url)];
  }

  lemma FlattenOne(chunk: seq<byte>)
    ensures M.Flatten([chunk]) == chunk
  {
    assert [chunk][1..] == [] && chunk + [] == chunk;
  }

  /** A request printed inside the gap is never heard of, by a client that is
      attached and has caught up. */
  lemma GapLosesRequest(url: string)
    requires M.SafeUrl(url) == Some(url)
    ensures Runs(START, Missing(url))
    ensures var s := After(START, Missing(url));
            && s.phase == Head && !Lagged(s) && Notices(s.log) == []
            && M.Markers(M.Flatten(s.chunks)) == [M.Open(url)]
  {
    var chunk := M.Shim(url);
    assert chunk != [];
    hide M.Shim, M.SafeUrl, M.Markers, M.Flatten, Can, Do;
    MissingBegins(chunk);
    var opening, flood := [Subscribe, FirstReplay, Read(chunk), Send], Flood(BACKLOG, [M.BEL]);
    var s4 := After(START, opening);
    hide Runs, After, Flood, Notices;
    FloodRuns(s4, BACKLOG, [M.BEL]);
    var s5 := After(s4, flood);
    MissingEnds(s5);
    RunsConcat(START, opening, flood);
    RunsConcat(START, opening + flood, [Look, Recv, Resync]);
    QuietItems([Replay(0), Replay(s5.sent)], []);
    assert s5.chunks == [chunk] + s5.chunks[1..];
    ShimThenBells(url, s5.chunks[1..]);
  }

  // ---------------------------------------------------- what can be misheard yet

  /** The first stretch with anything in it. */
  function FirstOf(parts: seq<seq<byte>>): seq<byte> {
    if parts == [] then [] else if parts[0] != [] then parts[0] else FirstOf(parts[1..])
  }

  /** By `t`, what was forwarded first since `s` has been misheard: as the end of
      something begun before. */
  predicate Misheard(s: State, t: State) {
    var before, after := Parts(s.log, s.chunks), Parts(t.log, t.chunks);
    |before| <= |after| && M.Carry(s.scan, FirstOf(after[|before|..])) != []
  }

  /** A client that has been found lagging is a ringful behind at least. */
  predicate FarBehind(s: State) { s.phase == Lagging ==> s.next + BACKLOG <= s.sent }

  lemma {:induction false} RunFarBehind(s: State, run: seq<Step>)
    requires FarBehind(s) && Runs(s, run)
    ensures FarBehind(After(s, run))
    decreases |run|
  {
    hide M.Scan, HeardAll;
    if run != [] { RunFarBehind(Do(s, run[0]), run[1..]); }
  }

  /** The child prints `rest`. */
  lemma SendsRest(s: State, rest: seq<byte>) returns (run: seq<Step>)
    requires Ring(s) && s.alive && s.phase == Lagging && rest != []
    ensures Runs(s, run) && After(s, run) == s.(chunks := s.chunks + [rest], sent := |s.chunks| + 1)
  {
    var s1 := s.(sent := |s.chunks|);
    run := [Read(rest), Send];
    RunsTwo(s1, Read(rest), Send);
    if |s.chunks| > s.sent {
      RunsCons(s, Send, run);
      run := [Send] + run;
    }
  }

  lemma HearsRest(s: State, n: nat, rest: seq<byte>)
    requires s.alive && s.phase == Lagging && s.next < n && s.sent == |s.chunks| == n + BACKLOG && s.chunks[n] == rest
    ensures var run := [Resync, Look, Recv] + [Resync, Look, Recv];
            && Runs(s, run) && After(s, run).chunks == s.chunks
            && After(s, run).log
               == s.log + [Replay(s.sent)] + [Replay(s.sent)] + ([Raw(n)] + HeardAll(M.Scan(s.scan, rest).1))
  {
    hide M.Scan, HeardAll;
    var s3 := s.(next := n, log := s.log + [Replay(s.sent)]);
    RunsThree(s, Resync, Look, Recv);
    assert Do(Do(Do(s, Resync), Look), Recv) == s3;
    RunsThree(s3, Resync, Look, Recv);
    RunsConcat(s, [Resync, Look, Recv], [Resync, Look, Recv]);
  }

  lemma PartsThen(log: seq<Item>, n: nat, upto: nat, more: seq<Item>, chunks: seq<seq<byte>>)
    requires n < |chunks| && forall k :: 0 <= k < |more| ==> more[k].Heard?
    ensures Parts(log + [Replay(upto)] + [Replay(upto)] + ([Raw(n)] + more), chunks)
            == Parts(log, chunks) + [[]] + [chunks[n]]
  {
    var one := log + [Replay(upto)] + [Replay(upto)];
    Assoc(one, [Raw(n)], more);
    PartsSnoc(log, Replay(upto), chunks);
    PartsSnoc(log + [Replay(upto)], Replay(upto), chunks);
    PartsSnoc(one, Raw(n), chunks);
    PartsQuiet(one + [Raw(n)], more, chunks);
    hide Parts, Spans;
    var parts := Parts(log, chunks) + [[]] + [[]];
    assert parts[..|parts| - 1] == Parts(log, chunks) + [[]] && parts[|parts| - 1] + chunks[n] == chunks[n];
  }

  /** In every run: of a client found lagging while the child lives, the next thing
      it is forwarded can be misheard exactly when its scanner is in an escape or at
      the beginning of a request. */
  lemma LaggingMayMishear(before: seq<Step>)
    requires Runs(START, before)
    requires var s := After(START, before); s.phase == Lagging && s.alive
    ensures var s := After(START, before);
            M.Hopeful(s.scan) <==> exists run :: Runs(s, run) && Misheard(s, After(s, run))
  {
    var s := After(START, before);
    RunKeeps(START, before);
    RunFarBehind(START, before);
    hide Ring, M.Hopeful, M.Carry;
    M.MisheardIffHopeful(s.scan);
    if M.Hopeful(s.scan) {
      var rest :| M.Carry(s.scan, rest) != [];
      var run := MishearsRest(s, rest, BACKLOG - 1);
      assert Runs(s, run) && Misheard(s, After(s, run));
    }
  }

  lemma ResumesAfter(s: State, n: nat, rest: seq<byte>, k: nat)
    requires k + 1 == BACKLOG && s.alive && s.phase == Lagging && s.next < n
    requires s.sent == |s.chunks| == n + 1 && s.chunks[n] == rest
    ensures var run := Flood(k, [M.BEL]) + ([Resync, Look, Recv] + [Resync, Look, Recv]);
            && Runs(s, run)
            && var t := After(s, run);
            && s.chunks <= t.chunks
            && t.log == s.log + [Replay(n + BACKLOG)] + [Replay(n + BACKLOG)]
                        + ([Raw(n)] + HeardAll(M.Scan(s.scan, rest).1))
  {
    var flood := Flood(k, [M.BEL]);
    hide M.Scan, HeardAll, Flood, Runs, After, Can, Do;
    FloodRuns(s, k, [M.BEL]);
    var t := After(s, flood);
    assert t.chunks[n] == s.chunks[n];
    HearsRest(t, n, rest);
    RunsConcat(s, flood, [Resync, Look, Recv] + [Resync, Look, Recv]);
  }

  lemma BehindThose(s: State)
    requires Ring(s) && FarBehind(s) && s.phase == Lagging
    ensures s.next < |s.chunks|
  {}

  /** The child prints `rest`, and nearly a ringful of nothing after it; the client,
      sent one replay, lags again, is sent another, and is forwarded `rest`. */
  lemma ResumesRuns(s: State, rest: seq<byte>, k: nat) returns (run: seq<Step>)
    requires k + 1 == BACKLOG && Ring(s) && FarBehind(s) && s.phase == Lagging && s.alive && rest != []
    ensures Runs(s, run)
    ensures var t, n := After(s, run), |s.chunks|;
            && s.chunks + [rest] <= t.chunks
            && t.log == s.log + [Replay(n + BACKLOG)] + [Replay(n + BACKLOG)]
                        + ([Raw(n)] + HeardAll(M.Scan(s.scan, rest).1))
  {
    var n := |s.chunks|;
    hide *;
    BehindThose(s);
    var first := SendsRest(s, rest);
    ResumesAfter(After(s, first), n, rest, k);
    var after := Flood(k, [M.BEL]) + ([Resync, Look, Recv] + [Resync, Look, Recv]);
    RunsConcat(s, first, after);
    run := first + after;
  }

  lemma MishearsRest(s: State, rest: seq<byte>, k: nat) returns (run: seq<Step>)
    requires k + 1 == BACKLOG && Ring(s) && Sound(s) && FarBehind(s) && s.phase == Lagging && s.alive
    requires M.Carry(s.scan, rest) != []
    ensures Runs(s, run) && Misheard(s, After(s, run))
  {
    hide Runs, After, M.Carry, M.Scan, HeardAll, Misheard, NoGap, InOrder, Covers;
    assert forall p :: 0 <= p < |s.log| && IsChunk(s.log[p]) ==> s.log[p].i < |s.chunks|;
    CarriesSome(s.scan, rest);
    run := ResumesRuns(s, rest, k);
    NowMisheard(s, rest, After(s, run));
  }

  lemma NowMisheard(s: State, rest: seq<byte>, t: State)
    requires s.chunks + [rest] <= t.chunks && rest != [] && M.Carry(s.scan, rest) != []
    requires forall p :: 0 <= p < |s.log| && IsChunk(s.log[p]) ==> s.log[p].i < |s.chunks|
    requires var n := |s.chunks|;
             t.log == s.log + [Replay(n + BACKLOG)] + [Replay(n + BACKLOG)]
                      + ([Raw(n)] + HeardAll(M.Scan(s.scan, rest).1))
    ensures Misheard(s, t)
  {
    hide Parts, M.Carry, M.Scan, HeardAll, FirstOf;
    var n := |s.chunks|;
    assert t.chunks[n] == (s.chunks + [rest])[n] == rest;
    PartsThen(s.log, n, n + BACKLOG, HeardAll(M.Scan(s.scan, rest).1), t.chunks);
    PartsStable(s.log, s.chunks, t.chunks);
    FirstIsRest(Parts(s.log, s.chunks), rest);
  }

  lemma FirstIsRest(parts: seq<seq<byte>>, rest: seq<byte>)
    requires rest != []
    ensures FirstOf((parts + [[]] + [rest])[|parts|..]) == rest
  {
    assert (parts + [[]] + [rest])[|parts|..] == [[], rest];
    assert [[], rest][1..] == [rest];
  }

  lemma CarriesSome(s: M.State, rest: seq<byte>)
    requires M.Carry(s, rest) != []
    ensures rest != []
  {
    hide M.Reported;
  }
}
