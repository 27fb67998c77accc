/** What an attached client is told to open (devpipe/src/keeper.rs): the scanner
    that listens to the chunks forwarded to it, through resyncs and up to the
    final drain, against what the child asked for. */
module Hearing {
  import opened Basics
  import M = Marker
  import opened Attach

  // ------------------------------------------------- what the scanner was told

  function Notices(log: seq<Item>): seq<M.Marker> {
    if log == [] then []
    else (if log[0].Heard? then [log[0].marker] else []) + Notices(log[1..])
  }

  /** The bytes of the chunks forwarded from the loop, one after the other. */
  function LoopBytes(log: seq<Item>, chunks: seq<seq<byte>>): seq<byte> {
    if log == [] then []
    else (if log[0].Raw? && log[0].i < |chunks| then chunks[log[0].i] else []) + LoopBytes(log[1..], chunks)
  }

  lemma {:induction false} NoticesConcat(a: seq<Item>, b: seq<Item>)
    ensures Notices(a + b) == Notices(a) + Notices(b)
  {
    if a == [] {
      assert a + b == b;
    } else {
      assert (a + b)[1..] == a[1..] + b;
      NoticesConcat(a[1..], b);
      var head := if a[0].Heard? then [a[0].marker] else [];
      assert head + Notices(a[1..]) + Notices(b) == head + (Notices(a[1..]) + Notices(b));
    }
  }

  lemma {:induction false} LoopBytesConcat(a: seq<Item>, b: seq<Item>, chunks: seq<seq<byte>>)
    ensures LoopBytes(a + b, chunks) == LoopBytes(a, chunks) + LoopBytes(b, chunks)
  {
    if a == [] {
      assert a + b == b;
    } else {
      assert (a + b)[1..] == a[1..] + b;
      LoopBytesConcat(a[1..], b, chunks);
    }
  }

  /** Chunks read later do not change what was forwarded. */
  lemma {:induction false} LoopBytesStable(log: seq<Item>, chunks: seq<seq<byte>>, more: seq<byte>)
    requires forall p :: 0 <= p < |log| && IsChunk(log[p]) ==> log[p].i < |chunks|
    ensures LoopBytes(log, chunks + [more]) == LoopBytes(log, chunks)
  {
    if log != [] {
      assert IsChunk(log[0]) ==> log[0].i < |chunks|;
      forall p | 0 <= p < |log[1..]| && IsChunk(log[1..][p]) ensures log[1..][p].i < |chunks| {
        assert log[1..][p] == log[p + 1];
      }
      LoopBytesStable(log[1..], chunks, more);
    }
  }

  lemma {:induction false} NoticesHeard(markers: seq<M.Marker>, chunks: seq<seq<byte>>)
    ensures Notices(HeardAll(markers)) == markers && LoopBytes(HeardAll(markers), chunks) == []
  {
    if markers != [] {
      assert HeardAll(markers)[1..] == HeardAll(markers[1..]);
      NoticesHeard(markers[1..], chunks);
    }
  }

  lemma {:induction false} QuietItems(items: seq<Item>, chunks: seq<seq<byte>>)
    requires forall k :: 0 <= k < |items| ==> !items[k].Heard? && !items[k].Raw?
    ensures Notices(items) == [] && LoopBytes(items, chunks) == []
  {
    if items != [] {
      QuietItems(items[1..], chunks);
    }
  }

  /** What one forwarded chunk adds. */
  lemma NoticesRecv(s: State)
    requires Can(s, Recv) && !Lagged(s) && s.next < |s.chunks|
    ensures Notices(Added(s, Recv)) == M.Scan(s.scan, s.chunks[s.next]).1
    ensures LoopBytes(Added(s, Recv), s.chunks) == s.chunks[s.next]
  {
    hide *;
    AddedRecv(s);
    var one, found := [Raw(s.next)], M.Scan(s.scan, s.chunks[s.next]).1;
    NoticesHeard(found, s.chunks);
    NoticesConcat(one, HeardAll(found));
    LoopBytesConcat(one, HeardAll(found), s.chunks);
    RawAlone(s.next, s.chunks);
    assert [] + found == found && s.chunks[s.next] + [] == s.chunks[s.next];
  }

  lemma AddedRecv(s: State)
    requires Can(s, Recv) && !Lagged(s) && s.next < |s.chunks|
    ensures Added(s, Recv) == [Raw(s.next)] + HeardAll(M.Scan(s.scan, s.chunks[s.next]).1)
  {
    hide M.Scan, HeardAll;
  }

  lemma RawAlone(i: nat, chunks: seq<seq<byte>>)
    requires i < |chunks|
    ensures Notices([Raw(i)]) == [] && LoopBytes([Raw(i)], chunks) == chunks[i]
  {
    assert [Raw(i)][1..] == [];
  }

  ghost predicate Listening(s: State) {
    M.Scan(M.Text, LoopBytes(s.log, s.chunks)) == (s.scan, Notices(s.log))
  }

  ghost predicate Numbered(s: State) { forall p :: 0 <= p < |s.log| && IsChunk(s.log[p]) ==> s.log[p].i < s.next }

  lemma ListeningKept(s: State, a: Step)
    requires Ring(s) && Numbered(s) && Listening(s) && Can(s, a)
    ensures Listening(Do(s, a))
  {
    hide M.Scan;
    var t, more := Do(s, a), Added(s, a);
    if a.Read? {
      hide Notices, LoopBytes;
      ListeningReads(s, a.chunk);
    } else {
      assert t.log == s.log + more && t.chunks == s.chunks;
      if a.Recv? && !Lagged(s) {
        assert s.next < |s.chunks| && t.scan == M.Scan(s.scan, s.chunks[s.next]).0;
        hide *;
        NoticesRecv(s);
        ListeningAdds(s, t, more);
      } else {
        assert t.scan == s.scan && forall k :: 0 <= k < |more| ==> !more[k].Heard? && !more[k].Raw?;
        hide *;
        QuietItems(more, s.chunks);
        NothingScanned(s.scan);
        ListeningAdds(s, t, more);
      }
    }
  }

  lemma NothingScanned(s: M.State)
    ensures M.Scan(s, []) == (s, [])
  {}

  lemma ListeningReads(s: State, chunk: seq<byte>)
    requires Ring(s) && Numbered(s) && Listening(s)
    ensures Listening(s.(chunks := s.chunks + [chunk]))
  {
    LoopBytesStable(s.log, s.chunks, chunk);
    hide M.Scan, Notices, LoopBytes;
  }

  /** More of the log, and the scanner fed what it adds. */
  lemma ListeningAdds(s: State, t: State, more: seq<Item>)
    requires Listening(s) && t.log == s.log + more && t.chunks == s.chunks
    requires M.Scan(s.scan, LoopBytes(more, s.chunks)) == (t.scan, Notices(more))
    ensures Listening(t)
  {
    hide M.Scan, Notices, LoopBytes;
    NoticesConcat(s.log, more);
    LoopBytesConcat(s.log, more, s.chunks);
    M.ScanConcat(M.Text, LoopBytes(s.log, s.chunks), LoopBytes(more, s.chunks));
  }

  lemma {:induction false} RunListens(s: State, run: seq<Step>)
    requires Ring(s) && Sound(s) && Listening(s) && Runs(s, run)
    ensures Listening(After(s, run))
    decreases |run|
  {
    if run != [] {
      hide Ring, Listening, Can, Do, M.Scan, LoopBytes, Notices, NoGap, InOrder, Covers;
      assert Numbered(s);
      RingKept(s, run[0]);
      SoundKept(s, run[0]);
      ListeningKept(s, run[0]);
      RunListens(Do(s, run[0]), run[1..]);
    }
  }

  /** In every run, what a client has been told to open is exactly what the
      marker scanner's specification finds in the chunks forwarded to it from the
      loop, across any boundaries between them. */
  lemma NoticesAreMarkers(run: seq<Step>)
    requires Runs(START, run)
    ensures var s := After(START, run); Notices(s.log) == M.Markers(LoopBytes(s.log, s.chunks))
  {
    RunListens(START, run);
    var s := After(START, run);
    M.ScanIsMarkers(LoopBytes(s.log, s.chunks));
  }

  // ------------------------------------------------- a client that kept up

  function Replays(log: seq<Item>): nat {
    if log == [] then 0 else (if log[|log| - 1].Replay? then 1 else 0) + Replays(log[..|log| - 1])
  }

  function Lasts(log: seq<Item>): nat {
    if log == [] then 0 else (if log[|log| - 1].Last? then 1 else 0) + Lasts(log[..|log| - 1])
  }

  lemma {:induction false} CountsAppend(log: seq<Item>, more: seq<Item>)
    requires forall k :: 0 <= k < |more| ==> !more[k].Replay? && !more[k].Last?
    ensures Replays(log + more) == Replays(log) && Lasts(log + more) == Lasts(log)
  {
    if more == [] {
      assert log + more == log;
    } else {
      var all := log + more;
      assert all[|all| - 1] == more[|more| - 1] && all[..|all| - 1] == log + more[..|more| - 1];
      CountsAppend(log, more[..|more| - 1]);
    }
  }

  lemma CountsOne(log: seq<Item>, item: Item)
    ensures Replays(log + [item]) == Replays(log) + (if item.Replay? then 1 else 0)
    ensures Lasts(log + [item]) == Lasts(log) + (if item.Last? then 1 else 0)
  {
    assert (log + [item])[..|log|] == log;
  }

  lemma FlattenSnoc(chunks: seq<seq<byte>>, chunk: seq<byte>)
    ensures M.Flatten(chunks + [chunk]) == M.Flatten(chunks) + chunk
  {
    M.FlattenConcat(chunks, [chunk]);
    assert [chunk][1..] == [] && M.Flatten([chunk]) == chunk + [];
  }

  /** A client that has been replayed to once has been forwarded, by the loop and
      then by the drain, a run of chunks with nothing missing from it. */
  ghost predicate Straight(s: State) {
    && (s.phase in {Head, Select, Lagging} ==> Lasts(s.log) == 0)
    && (s.phase == Lagging ==> Replays(s.log) >= 1)
    && (Attached(s) && Replays(s.log) == 1 ==>
          && s.from + Lasts(s.log) <= s.next <= |s.chunks|
          && LoopBytes(s.log, s.chunks) == M.Flatten(s.chunks[s.from..s.next - Lasts(s.log)]))
    && (Attached(s) ==> Replays(s.log) >= 1)
  }

  lemma StraightRecv(s: State)
    requires Ring(s) && Straight(s) && Can(s, Recv) && !Lagged(s)
    ensures Straight(Do(s, Recv))
  {
    hide M.Scan, M.Flatten, LoopBytes, Replays, Lasts;
    var more := Added(s, Recv);
    CountsAppend(s.log, more);
    LoopBytesConcat(s.log, more, s.chunks);
    NoticesRecv(s);
    FlattenSnoc(s.chunks[s.from..s.next], s.chunks[s.next]);
    assert s.chunks[s.from..s.next] + [s.chunks[s.next]] == s.chunks[s.from..s.next + 1];
  }

  lemma StraightRead(s: State, chunk: seq<byte>)
    requires Ring(s) && Numbered(s) && Straight(s) && Can(s, Read(chunk))
    ensures Straight(Do(s, Read(chunk)))
  {
    hide M.Flatten;
    LoopBytesStable(s.log, s.chunks, chunk);
    if Attached(s) && Replays(s.log) == 1 {
      var n := s.next - Lasts(s.log);
      assert (s.chunks + [chunk])[s.from..n] == s.chunks[s.from..n];
    }
  }

  lemma StraightReplay(s: State)
    requires Ring(s) && Straight(s) && s.phase in {Subscribed, Lagging}
    ensures Straight(s.(phase := Head, log := s.log + [Replay(|s.chunks|)]))
  {
    var item := Replay(|s.chunks|);
    CountsOne(s.log, item);
    QuietBytes(s.log, [item], s.chunks);
    NothingForwarded(s);
    hide Replays, Lasts, LoopBytes, M.Flatten, Painted;
  }

  lemma NothingForwarded(s: State)
    requires Ring(s)
    ensures M.Flatten(s.chunks[s.next..s.next]) == []
    ensures s.log == [] ==> Replays(s.log) == Lasts(s.log) == 0 && LoopBytes(s.log, s.chunks) == []
  {
    assert s.chunks[s.next..s.next] == [];
  }

  lemma QuietBytes(log: seq<Item>, more: seq<Item>, chunks: seq<seq<byte>>)
    requires forall k :: 0 <= k < |more| ==> !more[k].Heard? && !more[k].Raw?
    ensures LoopBytes(log + more, chunks) == LoopBytes(log, chunks)
  {
    QuietItems(more, chunks);
    LoopBytesConcat(log, more, chunks);
    assert LoopBytes(log, chunks) + [] == LoopBytes(log, chunks);
  }

  lemma StraightDrain(s: State)
    requires Ring(s) && Straight(s) && Can(s, Drain)
    ensures Straight(Do(s, Drain))
  {
    hide M.Flatten, LoopBytes, Replays, Lasts, Painted;
    QuietBytes(s.log, [Last(s.next)], s.chunks);
    CountsOne(s.log, Last(s.next));
  }

  lemma StraightFinish(s: State)
    requires Ring(s) && Straight(s) && Can(s, Finish)
    ensures Straight(Do(s, Finish))
  {
    hide M.Flatten, LoopBytes, Replays, Lasts, Painted;
    QuietBytes(s.log, Added(s, Finish), s.chunks);
    CountsAppend(s.log, Added(s, Finish));
  }

  lemma StraightKept(s: State, a: Step)
    requires Ring(s) && Numbered(s) && Straight(s) && Can(s, a)
    ensures Straight(Do(s, a))
  {
    hide M.Flatten, M.Scan, Numbered;
    if a.Recv? && !Lagged(s) {
      StraightRecv(s);
    } else if a.Drain? {
      StraightDrain(s);
    } else if a.Finish? {
      StraightFinish(s);
    } else if a.FirstReplay? || a.Resync? {
      StraightReplay(s);
    } else if a.Read? {
      StraightRead(s, a.chunk);
    }
  }

  lemma {:induction false} RunStraight(s: State, run: seq<Step>)
    requires Ring(s) && Sound(s) && Straight(s) && Runs(s, run)
    ensures Straight(After(s, run))
    decreases |run|
  {
    if run != [] {
      hide Ring, Straight, Can, Do, NoGap, InOrder, Covers;
      assert Numbered(s);
      RingKept(s, run[0]);
      SoundKept(s, run[0]);
      StraightKept(s, run[0]);
      RunStraight(Do(s, run[0]), run[1..]);
    }
  }

  /** A client that never fell behind has been told to open exactly what the
      child's output asks for, from the moment it subscribed up to the final
      drain. */
  lemma KeptUpHearsAll(run: seq<Step>)
    requires Runs(START, run)
    ensures var s := After(START, run);
            Attached(s) && Replays(s.log) == 1 ==>
              && s.from + Lasts(s.log) <= s.next <= |s.chunks|
              && Notices(s.log) == M.Markers(M.Flatten(s.chunks[s.from..s.next - Lasts(s.log)]))
  {
    hide M.Markers, M.Flatten;
    RunStraight(START, run);
    NoticesAreMarkers(run);
  }

  // ------------------------------------------------ a client that fell behind

  /** The last element changed. */
  function Amended<T>(s: seq<T>, last: T): seq<T> { if s == [] then [last] else s[..|s| - 1] + [last] }

  /** A replay begins a stretch; a chunk carries the last one on. */
  function AddPart(parts: seq<seq<byte>>, item: Item, chunks: seq<seq<byte>>): seq<seq<byte>> {
    if item.Replay? then parts + [[]]
    else if item.Raw? && item.i < |chunks| then
      Amended(parts, (if parts == [] then [] else parts[|parts| - 1]) + chunks[item.i])
    else parts
  }

  /** The bytes forwarded from the loop, in stretches parted by the replays. */
  function Parts(log: seq<Item>, chunks: seq<seq<byte>>): seq<seq<byte>> {
    if log == [] then [] else AddPart(Parts(log[..|log| - 1], chunks), log[|log| - 1], chunks)
  }

  function AddSpan(spans: seq<(nat, nat)>, item: Item): seq<(nat, nat)> {
    if item.Replay? then spans + [(0, 0)]
    else if item.Raw? then Amended(spans, (if Unbegun(spans) then item.i else spans[|spans| - 1].0, item.i + 1))
    else spans
  }

  /** The chunks of each stretch, as an interval. */
  function Spans(log: seq<Item>): seq<(nat, nat)> {
    if log == [] then [] else AddSpan(Spans(log[..|log| - 1]), log[|log| - 1])
  }

  /** Nothing has been forwarded since the last replay. */
  predicate Unbegun(spans: seq<(nat, nat)>) { spans == [] || spans[|spans| - 1].0 == spans[|spans| - 1].1 }

  lemma PartsSnoc(log: seq<Item>, item: Item, chunks: seq<seq<byte>>)
    ensures Parts(log + [item], chunks) == AddPart(Parts(log, chunks), item, chunks)
    ensures Spans(log + [item]) == AddSpan(Spans(log), item)
  {
    hide AddPart, AddSpan;
    assert (log + [item])[..|log|] == log;
  }

  lemma {:induction false} PartsQuiet(log: seq<Item>, more: seq<Item>, chunks: seq<seq<byte>>)
    requires forall k :: 0 <= k < |more| ==> !more[k].Replay? && !more[k].Raw?
    ensures Parts(log + more, chunks) == Parts(log, chunks) && Spans(log + more) == Spans(log)
    decreases |more|
  {
    if more == [] {
      assert log + more == log;
    } else {
      var init, item := more[..|more| - 1], more[|more| - 1];
      PartsQuiet(log, init, chunks);
      assert log + more == log + init + [item];
      hide Parts, Spans;
      PartsSnoc(log + init, item, chunks);
    }
  }

  /** Chunks read later do not change what was forwarded. */
  lemma {:induction false} PartsStable(log: seq<Item>, chunks: seq<seq<byte>>, more: seq<seq<byte>>)
    requires (forall p :: 0 <= p < |log| && IsChunk(log[p]) ==> log[p].i < |chunks|) && chunks <= more
    ensures Parts(log, more) == Parts(log, chunks)
  {
    if log != [] {
      assert forall p :: 0 <= p < |log| - 1 ==> log[..|log| - 1][p] == log[p];
      PartsStable(log[..|log| - 1], chunks, more);
    }
  }

  lemma AmendedFlat(parts: seq<seq<byte>>, more: seq<byte>)
    ensures M.Flatten(Amended(parts, (if parts == [] then [] else parts[|parts| - 1]) + more))
         == M.Flatten(parts) + more
  {
    if parts == [] {
      FlattenSnoc([], more);
      assert [] + [more] == [more] && [] + more == more;
    } else {
      var init, last := parts[..|parts| - 1], parts[|parts| - 1];
      assert parts == init + [last];
      FlattenSnoc(init, last);
      FlattenSnoc(init, last + more);
    }
  }

  /** Put together again, the stretches are everything the loop forwarded. */
  lemma {:induction false} PartsAreLoopBytes(log: seq<Item>, chunks: seq<seq<byte>>)
    ensures M.Flatten(Parts(log, chunks)) == LoopBytes(log, chunks)
  {
    if log != [] {
      var init, item := log[..|log| - 1], log[|log| - 1];
      assert log == init + [item];
      PartsAreLoopBytes(init, chunks);
      LoopBytesConcat(init, [item], chunks);
      LoopBytesOne(item, chunks);
      PartsSnoc(init, item, chunks);
      hide Parts, LoopBytes, M.Flatten;
      if item.Replay? {
        FlattenSnoc(Parts(init, chunks), []);
      } else if item.Raw? && item.i < |chunks| {
        AmendedFlat(Parts(init, chunks), chunks[item.i]);
      }
    }
  }

  lemma LoopBytesOne(item: Item, chunks: seq<seq<byte>>)
    ensures LoopBytes([item], chunks) == if item.Raw? && item.i < |chunks| then chunks[item.i] else []
  {
    assert [item][1..] == [];
  }

  predicate IsStretch(chunks: seq<seq<byte>>, part: seq<byte>, span: (nat, nat)) {
    span.0 <= span.1 <= |chunks| && part == M.Flatten(chunks[span.0..span.1])
  }

  predicate AreStretches(chunks: seq<seq<byte>>, parts: seq<seq<byte>>, spans: seq<(nat, nat)>) {
    |parts| == |spans| && forall k :: 0 <= k < |parts| ==> IsStretch(chunks, parts[k], spans[k])
  }

  /** Each stretch is an unbroken run of chunks; the last goes on to the cursor,
      but for what the drain forwarded. */
  ghost predicate Tracked(s: State) {
    var parts, spans := Parts(s.log, s.chunks), Spans(s.log);
    && AreStretches(s.chunks, parts, spans)
    && (s.phase in {Head, Select, Lagging} ==> Lasts(s.log) == 0)
    && (Attached(s) ==> spans != [] && Lasts(s.log) <= s.next
                        && (!Unbegun(spans) ==> spans[|spans| - 1].1 + Lasts(s.log) == s.next))
  }

  lemma TrackedRecv(s: State)
    requires Ring(s) && Tracked(s) && Can(s, Recv) && !Lagged(s)
    ensures Tracked(Do(s, Recv))
  {
    hide M.Scan, M.Flatten, Parts, Spans, LoopBytes, Lasts, Replays, IsStretch, Painted;
    var found := HeardAll(M.Scan(s.scan, s.chunks[s.next]).1);
    var one := s.log + [Raw(s.next)];
    assert Do(s, Recv).log == one + found by { assert s.log + ([Raw(s.next)] + found) == one + found; }
    PartsSnoc(s.log, Raw(s.next), s.chunks);
    PartsQuiet(one, found, s.chunks);
    CountsOne(s.log, Raw(s.next));
    CountsAppend(one, found);
    StretchGrows(s.chunks, Parts(s.log, s.chunks), Spans(s.log), s.next);
  }

  /** Forwarding the next chunk carries the last stretch on, or begins it. */
  lemma StretchGrows(chunks: seq<seq<byte>>, parts: seq<seq<byte>>, spans: seq<(nat, nat)>, i: nat)
    requires |parts| == |spans| > 0 && i < |chunks| && (!Unbegun(spans) ==> spans[|spans| - 1].1 == i)
    requires IsStretch(chunks, parts[|parts| - 1], spans[|spans| - 1])
    ensures var from := if Unbegun(spans) then i else spans[|spans| - 1].0;
            IsStretch(chunks, parts[|parts| - 1] + chunks[i], (from, i + 1))
  {
    var (lo, hi) := spans[|spans| - 1];
    var from := if lo == hi then i else lo;
    assert chunks[lo..lo] == [] && chunks[i..i] == [];
    assert chunks[from..i + 1] == chunks[from..i] + [chunks[i]];
    hide M.Flatten;
    FlattenSnoc(chunks[from..i], chunks[i]);
  }

  lemma TrackedRead(s: State, chunk: seq<byte>)
    requires Ring(s) && Numbered(s) && Tracked(s) && Can(s, Read(chunk))
    ensures Tracked(Do(s, Read(chunk)))
  {
    assert Do(s, Read(chunk)) == s.(chunks := s.chunks + [chunk]) && s.next <= |s.chunks|;
    hide *;
    TrackedMore(s, chunk);
  }

  lemma TrackedMore(s: State, chunk: seq<byte>)
    requires s.next <= |s.chunks| && Numbered(s) && Tracked(s)
    ensures Tracked(s.(chunks := s.chunks + [chunk]))
  {
    hide Numbered, Parts, Spans, Lasts, AreStretches;
    PartsStay(s, s.chunks + [chunk]);
    StretchesStay(s.chunks, chunk, Parts(s.log, s.chunks), Spans(s.log));
  }

  lemma PartsStay(s: State, more: seq<seq<byte>>)
    requires s.next <= |s.chunks| && Numbered(s) && s.chunks <= more
    ensures Parts(s.log, more) == Parts(s.log, s.chunks)
  {
    PartsStable(s.log, s.chunks, more);
  }

  lemma StretchesStay(chunks: seq<seq<byte>>, chunk: seq<byte>, parts: seq<seq<byte>>, spans: seq<(nat, nat)>)
    requires AreStretches(chunks, parts, spans)
    ensures AreStretches(chunks + [chunk], parts, spans)
  {
    forall k | 0 <= k < |parts| ensures IsStretch(chunks + [chunk], parts[k], spans[k]) {
      var (lo, hi) := spans[k];
      assert IsStretch(chunks, parts[k], spans[k]);
      assert (chunks + [chunk])[lo..hi] == chunks[lo..hi];
    }
  }

  lemma TrackedReplay(s: State)
    requires Ring(s) && Tracked(s) && Lasts(s.log) == 0
    ensures Tracked(s.(phase := Head, log := s.log + [Replay(|s.chunks|)]))
  {
    PartsSnoc(s.log, Replay(|s.chunks|), s.chunks);
    CountsOne(s.log, Replay(|s.chunks|));
    hide Parts, Spans, Lasts, Painted, AreStretches;
    StretchesOne(s.chunks, Parts(s.log, s.chunks), Spans(s.log));
  }

  lemma StretchesOne(chunks: seq<seq<byte>>, parts: seq<seq<byte>>, spans: seq<(nat, nat)>)
    requires AreStretches(chunks, parts, spans)
    ensures AreStretches(chunks, parts + [[]], spans + [(0, 0)])
  {
    assert chunks[0..0] == [] && IsStretch(chunks, [], (0, 0));
  }

  lemma TrackedOther(s: State, a: Step)
    requires Ring(s) && Tracked(s) && Can(s, a) && (a.Drain? || a.Finish?)
    ensures Tracked(Do(s, a))
  {
    hide M.Flatten, Parts, Spans, Lasts, Replays, IsStretch, Painted;
    PartsQuiet(s.log, Added(s, a), s.chunks);
    if a.Drain? { CountsOne(s.log, Last(s.next)); } else { CountsAppend(s.log, Added(s, a)); }
  }

  lemma TrackedSame(s: State, a: Step)
    requires Ring(s) && Tracked(s) && Can(s, a) && !a.Read? && (!a.Recv? || Lagged(s))
    requires !a.Drain? && !a.Finish? && !a.FirstReplay? && !a.Resync?
    ensures Tracked(Do(s, a))
  {
    hide M.Flatten, M.Scan, Parts, Spans, Lasts, IsStretch, Painted, HeardAll;
    assert Do(s, a).log == s.log && Do(s, a).chunks == s.chunks;
  }

  lemma TrackedKept(s: State, a: Step)
    requires Ring(s) && Numbered(s) && Tracked(s) && Can(s, a)
    ensures Tracked(Do(s, a))
  {
    if a.Recv? && !Lagged(s) {
      hide *;
      TrackedRecv(s);
    } else if a.Drain? || a.Finish? {
      hide *;
      TrackedOther(s, a);
    } else if a.FirstReplay? || a.Resync? {
      assert Do(s, a) == s.(phase := Head, log := s.log + [Replay(|s.chunks|)]) && Lasts(s.log) == 0 by {
        hide Tracked, M.Scan, HeardAll;
        TrackedStart(s, a);
      }
      hide *;
      TrackedReplay(s);
    } else if a.Read? {
      hide *;
      TrackedRead(s, a.chunk);
    } else {
      hide *;
      TrackedSame(s, a);
    }
  }

  lemma TrackedStart(s: State, a: Step)
    requires Ring(s) && Tracked(s) && Can(s, a) && (a.FirstReplay? || a.Resync?)
    ensures Lasts(s.log) == 0
  {
    hide AreStretches, Parts, Spans, Painted;
    assert a.FirstReplay? ==> s.log == [];
  }

  lemma {:induction false} RunTracks(s: State, run: seq<Step>)
    requires Ring(s) && Sound(s) && Tracked(s) && Listening(s) && Runs(s, run)
    ensures Ring(After(s, run)) && Tracked(After(s, run)) && Listening(After(s, run))
    decreases |run|
  {
    if run != [] {
      assert Numbered(s);
      hide Ring, Tracked, Listening, Can, Do, NoGap, InOrder, Covers;
      RingKept(s, run[0]);
      SoundKept(s, run[0]);
      ListeningKept(s, run[0]);
      TrackedKept(s, run[0]);
      RunTracks(Do(s, run[0]), run[1..]);
    }
  }

  /** In every run, however often a client fell behind: what it was told to open
      is, stretch by stretch between replays, each stretch's own markers and
      before them at most one that a sequence unfinished at the replay was taken
      to begin; so it is the stretches' own markers and nothing else exactly when
      nothing unfinished was finished that way. Each stretch is an unbroken run of
      what the child printed. */
  lemma HeardByStretch(run: seq<Step>)
    requires Runs(START, run)
    ensures var s := After(START, run); var parts, spans := Parts(s.log, s.chunks), Spans(s.log);
            && |parts| == |spans| && (forall k :: 0 <= k < |parts| ==> IsStretch(s.chunks, parts[k], spans[k]))
            && Notices(s.log) == M.Stretched(M.Text, parts)
            && (Notices(s.log) == M.Apart(parts) <==> M.NothingCarried(M.Text, parts))
  {
    RunTracks(START, run);
    var s := After(START, run);
    hide Runs, After, IsStretch;
    var parts := Parts(s.log, s.chunks);
    PartsAreLoopBytes(s.log, s.chunks);
    M.FeedAllIsScan(M.Text, parts);
    M.FeedAllStretches(M.Text, parts);
    M.StretchedIffNothingCarried(M.Text, parts);
  }

  /** And what a stretch asks for, the child asked for. */
  lemma StretchIsAsked(chunks: seq<seq<byte>>, part: seq<byte>, span: (nat, nat))
    returns (before: seq<M.Marker>, after: seq<M.Marker>)
    requires IsStretch(chunks, part, span)
    ensures M.Markers(M.Flatten(chunks)) == before + M.Markers(part) + after
  {
    var (lo, hi) := span;
    assert chunks == chunks[..lo] + chunks[lo..hi] + chunks[hi..];
    M.FlattenConcat(chunks[..lo] + chunks[lo..hi], chunks[hi..]);
    M.FlattenConcat(chunks[..lo], chunks[lo..hi]);
    before, after := M.StretchIsWithin(M.Flatten(chunks[..lo]), part, M.Flatten(chunks[hi..]));
  }

  /** A request begun, and a payload's worth of spaces after it: no request. */
  function Begun(url: string): seq<byte> { M.OPEN + M.Payloaded(url) }

  function Filler(): (r: seq<byte>)
    ensures |r| == M.CEILING && forall k :: 0 <= k < |r| ==> r[k] == 32
  {
    seq(M.CEILING, _ => 32)
  }

  /** A client is forwarded the beginning of a request; then more, the rest of its
      payload included, than the ring can hold; and then, from the other side of
      the gap, a BEL. */
  function Phantom(url: string): seq<Step> {
    [Subscribe, FirstReplay, Read(Begun(url)), Send, Look, Recv, Read(Filler()), Send]
    + Flood(BACKLOG, [M.BEL]) + [Look, Recv, Resync, Look, Recv]
  }

  /** Up to the filler: one chunk heard, and its scanner left inside a payload. */
  lemma PhantomBegins(begun: seq<byte>, payload: seq<byte>)
    requires begun != [] && M.Scan(M.Text, begun) == (M.Payload(payload, false), [])
    ensures var run := [Subscribe, FirstReplay, Read(begun), Send, Look, Recv, Read(Filler()), Send];
            && Runs(START, run)
            && After(START, run)
               == State([begun, Filler()], 2, true, Head, 0, 1, M.Payload(payload, false), [Replay(0), Raw(0)])
  {
    hide M.Scan;
    var s2 := START.(phase := Head, log := [Replay(0)]);
    var s4 := s2.(chunks := [begun], sent := 1);
    var s6 := s4.(next := 1, scan := M.Payload(payload, false), log := [Replay(0), Raw(0)]);
    var s8 := s6.(chunks := [begun, Filler()], sent := 2);
    assert [begun] + [Filler()] == [begun, Filler()];
    RunsTwo(START, Subscribe, FirstReplay);
    RunsTwo(s2, Read(begun), Send);
    assert [Replay(0)] + ([Raw(0)] + HeardAll([])) == [Replay(0), Raw(0)];
    RunsTwo(s4, Look, Recv);
    RunsTwo(s6, Read(Filler()), Send);
    assert [] + [Replay(0)] == [Replay(0)] && [] + [begun] == [begun];
    assert Do(Do(START, Subscribe), FirstReplay) == s2 && Do(Do(s2, Read(begun)), Send) == s4;
    assert Do(Do(s4, Look), Recv) == s6 && Do(Do(s6, Read(Filler())), Send) == s8;
    hide Can, Do, Runs, After;
    RunsConcat(START, [Subscribe, FirstReplay], [Read(begun), Send]);
    RunsConcat(START, [Subscribe, FirstReplay] + [Read(begun), Send], [Look, Recv]);
    RunsConcat(START, [Subscribe, FirstReplay] + [Read(begun), Send] + [Look, Recv], [Read(Filler()), Send]);
    assert [Subscribe, FirstReplay] + [Read(begun), Send] + [Look, Recv] + [Read(Filler()), Send]
        == [Subscribe, FirstReplay, Read(begun), Send, Look, Recv, Read(Filler()), Send];
  }

  lemma FallsBehind(s: State)
    requires s.alive && s.phase == Head && s.sent == |s.chunks| == s.next + BACKLOG + 1
    ensures Runs(s, [Look, Recv]) && After(s, [Look, Recv]) == s.(phase := Lagging, next := s.next + 1)
  {
    hide M.Scan, HeardAll;
    RunsTwo(s, Look, Recv);
  }

  lemma Repainted(s: State)
    requires s.alive && s.phase == Lagging
    ensures Runs(s, [Resync, Look])
    ensures After(s, [Resync, Look]) == s.(phase := Select, log := s.log + [Replay(|s.chunks|)])
  {
    hide M.Scan, HeardAll;
    RunsTwo(s, Resync, Look);
  }

  lemma ReceivesNext(s: State, found: seq<M.Marker>)
    requires s.phase == Select && s.next < s.sent <= |s.chunks| && !Lagged(s)
    requires M.Scan(s.scan, s.chunks[s.next]) == (M.Text, found)
    ensures Runs(s, [Recv]) && After(s, [Recv]).chunks == s.chunks
    ensures After(s, [Recv]).log == s.log + ([Raw(s.next)] + HeardAll(found))
  {
    hide M.Scan, HeardAll;
    var t := Do(s, Recv);
    assert Runs(t, []) && After(t, []) == t && [Recv] + [] == [Recv];
    RunsCons(s, Recv, []);
  }

  /** From a ringful behind: the resync, and one more chunk. */
  lemma PhantomEnds(s: State, found: seq<M.Marker>)
    requires s.alive && s.phase == Head && s.sent == |s.chunks| == s.next + BACKLOG + 1
    requires M.Scan(s.scan, s.chunks[s.next + 1]) == (M.Text, found)
    ensures var run := [Look, Recv, Resync, Look, Recv];
            && Runs(s, run) && After(s, run).chunks == s.chunks
            && After(s, run).log == s.log + [Replay(s.sent)] + ([Raw(s.next + 1)] + HeardAll(found))
  {
    var s2 := s.(phase := Lagging, next := s.next + 1);
    var s4 := s2.(phase := Select, log := s.log + [Replay(s.sent)]);
    assert !Lagged(s4);
    hide *;
    FallsBehind(s);
    Repainted(s2);
    ReceivesNext(s4, found);
    RunsConcat(s, [Look, Recv], [Resync, Look]);
    RunsConcat(s, [Look, Recv] + [Resync, Look], [Recv]);
    assert [Look, Recv] + [Resync, Look] + [Recv] == [Look, Recv, Resync, Look, Recv];
  }

  lemma BegunScans(url: string)
    requires M.SafeUrl(url) == Some(url)
    ensures M.Scan(M.Text, Begun(url)) == (M.Payload(M.Payloaded(url), false), [])
    ensures M.Scan(M.Payload(M.Payloaded(url), false), [M.BEL]) == (M.Text, [M.Open(url)])
    ensures forall k :: 0 <= k < |M.Payloaded(url)| ==> !M.Ends(M.Payloaded(url)[k])
  {
    var payload := M.Payloaded(url);
    M.SafeUrlPlain(url);
    M.PayloadedEnds(url);
    BegunIsRemembered(url);
    M.OpenIntroduces(M.Text);
    assert M.Pending(M.Text) == [];
    hide M.Payloaded, M.SafeUrl, M.Parse, M.Remembered, M.Next;
    M.ScanPayload([], payload, |payload|);
    assert [] + payload[..|payload|] == payload[..|payload|] == payload;
    M.ScanConcat(M.Text, M.OPEN, payload);
    M.ScanOne(M.Payload(payload, false), M.BEL);
  }

  lemma BegunIsRemembered(url: string)
    requires M.SafeUrl(url) == Some(url)
    ensures var payload := M.Payloaded(url);
            && M.Remembered([]) == M.Payload([], false) && M.Remembered(payload) == M.Payload(payload, false)
            && M.Next(M.Payload(payload, false), M.BEL) == (M.Text, [M.Open(url)])
  {
    var payload := M.Payloaded(url);
    assert M.PREFIX <= payload;
    hide *;
    M.UnpaddedFits(url);
    M.ParsePayloaded(url);
    OursIsRemembered(payload);
    EndIsReported(payload);
  }

  lemma OursIsRemembered(payload: seq<byte>)
    requires M.PREFIX <= payload && |payload| <= M.CEILING
    ensures M.Remembered([]) == M.Payload([], false) && M.Remembered(payload) == M.Payload(payload, false)
  {
    assert [] <= M.PREFIX;
  }

  lemma EndIsReported(payload: seq<byte>)
    ensures M.Next(M.Payload(payload, false), M.BEL) == (M.Text, Listed(M.Parse(payload)))
  {
    hide M.Parse;
  }

  lemma {:induction false} Bells(chunks: seq<seq<byte>>)
    requires forall k :: 0 <= k < |chunks| ==> chunks[k] == [M.BEL]
    ensures forall b :: b in M.Flatten(chunks) ==> b == M.BEL
    ensures chunks != [] ==> M.Flatten(chunks) != []
  {
    if chunks != [] { Bells(chunks[1..]); }
  }

  /** Of itself, what that child printed asks for nothing. */
  lemma NothingAsked(url: string, bells: seq<seq<byte>>)
    requires M.SafeUrl(url) == Some(url) && bells != [] && forall k :: 0 <= k < |bells| ==> bells[k] == [M.BEL]
    ensures M.Markers(M.Flatten([Begun(url), Filler()] + bells)) == []
  {
    var tail := M.Flatten(bells);
    BegunScans(url);
    assert |M.Payloaded(url)| > 0;
    hide M.SafeUrl, M.Payloaded, M.Scan, M.Markers, M.Ends, M.Flatten;
    Bells(bells);
    M.FlattenConcat([Begun(url), Filler()], bells);
    FlattenTwo(Begun(url), Filler());
    Regrouped(M.OPEN, M.Payloaded(url), Filler(), tail);
    NoEnds();
    var payload := M.Payloaded(url) + Filler();
    forall k | 0 <= k < |payload| ensures !M.Ends(payload[k]) {
      if k >= |M.Payloaded(url)| { assert payload[k] == Filler()[k - |M.Payloaded(url)|]; }
    }
    OverlongIsNothing(payload, tail);
  }

  lemma FlattenTwo(a: seq<byte>, b: seq<byte>)
    ensures M.Flatten([a, b]) == a + b
  {
    assert [a, b][1..] == [b] && [b][1..] == [] && b + [] == b;
    assert M.Flatten([b]) == b;
  }

  lemma Regrouped(a: seq<byte>, b: seq<byte>, c: seq<byte>, d: seq<byte>)
    ensures a + (b + c + d) == a + b + c + d
  {}

  lemma NoEnds()
    ensures forall k :: 0 <= k < |Filler()| ==> !M.Ends(Filler()[k])
  {}

  lemma OverlongIsNothing(payload: seq<byte>, tail: seq<byte>)
    requires |payload| > M.CEILING && (forall k :: 0 <= k < |payload| ==> !M.Ends(payload[k]))
    requires tail != [] && forall b :: b in tail ==> b == M.BEL
    ensures M.Markers(M.OPEN + (payload + tail)) == []
  {
    hide M.Markers, M.Next, M.Parse;
    assert tail[0] in tail && M.Reported(payload) == [];
    M.ScanIsMarkers(M.OPEN + (payload + tail));
    M.OpenIntroduces(M.Text);
    M.ScanConcat(M.Text, M.OPEN, payload + tail);
    M.ScanFromPayload(payload, tail);
    assert forall b :: b in tail[1..] ==> b in tail;
    M.ScanPlain(tail[1..]);
  }

  lemma PhantomNotices(url: string)
    ensures var log := [Replay(0), Raw(0)] + [Replay(BACKLOG + 2)] + ([Raw(2)] + HeardAll([M.Open(url)]));
            Notices(log) == [M.Open(url)]
  {
    var log := [Replay(0), Raw(0)] + [Replay(BACKLOG + 2)] + ([Raw(2)] + HeardAll([M.Open(url)]));
    assert log == [Replay(0), Raw(0), Replay(BACKLOG + 2), Raw(2)] + HeardAll([M.Open(url)]);
    var quiet := [Replay(0), Raw(0), Replay(BACKLOG + 2), Raw(2)];
    NoticesConcat(quiet, HeardAll([M.Open(url)]));
    NoticesHeard([M.Open(url)], []);
    NoNotices(quiet);
    assert [] + [M.Open(url)] == [M.Open(url)];
  }

  lemma {:induction false} NoNotices(items: seq<Item>)
    requires forall k :: 0 <= k < |items| ==> !items[k].Heard?
    ensures Notices(items) == []
  {
    if items != [] { NoNotices(items[1..]); }
  }

  /** The scanner is not told of a resync, and joins what it had begun to read to
      what comes after the gap: a client is told to open a URL that the child, in
      all it ever printed, never asked for. */
  lemma PhantomRequest(url: string)
    requires M.SafeUrl(url) == Some(url)
    ensures Runs(START, Phantom(url))
    ensures var s := After(START, Phantom(url));
            Notices(s.log) == [M.Open(url)] && M.Markers(M.Flatten(s.chunks)) == []
  {
    hide M.SafeUrl, M.Payloaded, M.Markers, M.Flatten, M.Scan, Can, Do, Notices, HeardAll;
    var opening := [Subscribe, FirstReplay, Read(Begun(url)), Send, Look, Recv, Read(Filler()), Send];
    var flood, closing := Flood(BACKLOG, [M.BEL]), [Look, Recv, Resync, Look, Recv];
    BegunScans(url);
    PhantomBegins(Begun(url), M.Payloaded(url));
    var s8 := After(START, opening);
    FloodRuns(s8, BACKLOG, [M.BEL]);
    var s9 := After(s8, flood);
    hide Runs, After, Flood;
    assert s9.chunks[2] == [M.BEL];
    PhantomEnds(s9, [M.Open(url)]);
    RunsConcat(START, opening, flood);
    RunsConcat(START, opening + flood, closing);
    PhantomNotices(url);
    var bells := s9.chunks[2..];
    assert s9.chunks == [Begun(url), Filler()] + bells;
    NothingAsked(url, bells);
  }

  // ------------------------------------------------------ up to the very end

  /** What the drain forwarded. */
  function Drained(s: State): seq<byte>
    requires Lasts(s.log) <= s.next <= |s.chunks|
  {
    M.Flatten(s.chunks[s.next - Lasts(s.log)..s.next])
  }

  /** The stretches, the last carried on through the drain. */
  function Extended(parts: seq<seq<byte>>, more: seq<byte>): seq<seq<byte>> {
    Amended(parts, (if parts == [] then [] else parts[|parts| - 1]) + more)
  }

  /** A client told of the exit has been told to open all that the chunks it was
      sent ask for, drained ones included, exactly when the drained bytes would
      have told the loop's own scanner nothing; as when nothing was drained. */
  lemma HeardToTheEnd(run: seq<Step>)
    requires Runs(START, run) && Exit in After(START, run).log
    ensures var s := After(START, run);
            && Lasts(s.log) <= s.next <= |s.chunks|
            && var all := Extended(Parts(s.log, s.chunks), Drained(s));
            && (M.NothingCarried(M.Text, all) ==>
                  (Notices(s.log) == M.Apart(all) <==> M.Scan(s.scan, Drained(s)).1 == []))
            && (Lasts(s.log) == 0 ==> M.Scan(s.scan, Drained(s)).1 == [])
  {
    StartKeeps();
    hide Runs, After, Sound, Listening, Straight, Parts, Spans, IsStretch, Lasts, Drained, Extended, Notices;
    RunEnds(START, run);
    RunTracks(START, run);
    var s := After(START, run);
    assert s.phase == Over;
    var parts := Parts(s.log, s.chunks);
    ThroughTheDrain(s, parts);
    if Lasts(s.log) == 0 { NothingDrained(s); }
  }

  lemma NothingDrained(s: State)
    requires Lasts(s.log) == 0 && s.next <= |s.chunks|
    ensures M.Scan(s.scan, Drained(s)).1 == []
  {
    assert s.chunks[s.next..s.next] == [];
  }

  lemma StartKeeps()
    ensures Ring(START) && Sound(START) && Tracked(START) && Listening(START) && Straight(START) && Ended(START)
  {}

  lemma ThroughTheDrain(s: State, parts: seq<seq<byte>>)
    requires Listening(s) && Lasts(s.log) <= s.next <= |s.chunks| && parts == Parts(s.log, s.chunks)
    ensures var all := Extended(parts, Drained(s));
            M.NothingCarried(M.Text, all) ==> (Notices(s.log) == M.Apart(all) <==> M.Scan(s.scan, Drained(s)).1 == [])
  {
    var drained := Drained(s);
    var all := Extended(parts, drained);
    hide Parts, Drained, Lasts, M.Scan, Notices;
    PartsAreLoopBytes(s.log, s.chunks);
    AmendedFlat(parts, drained);
    M.FeedAllIsScan(M.Text, all);
    M.FeedAllStretches(M.Text, all);
    M.StretchedIffNothingCarried(M.Text, all);
    M.ScanConcat(M.Text, LoopBytes(s.log, s.chunks), drained);
    var more := M.Scan(s.scan, drained).1;
    assert M.Stretched(M.Text, all) == Notices(s.log) + more;
    assert |Notices(s.log) + more| == |Notices(s.log)| + |more|;
    assert more == [] ==> Notices(s.log) + more == Notices(s.log);
  }

  /** For a client that never fell behind: every request from its subscription to
      the last chunk it was sent. */
  lemma KeptUpHearsTheEnd(run: seq<Step>)
    requires Runs(START, run) && Exit in After(START, run).log && Replays(After(START, run).log) == 1
    ensures var s := After(START, run);
            && s.from + Lasts(s.log) <= s.next <= |s.chunks|
            && (Notices(s.log) == M.Markers(M.Flatten(s.chunks[s.from..s.next]))
                <==> M.Scan(s.scan, Drained(s)).1 == [])
  {
    StartKeeps();
    hide Runs, After, Sound, Listening, Tracked, Drained, Notices, LoopBytes, M.Scan, M.Markers, M.Flatten;
    RunEnds(START, run);
    RunStraight(START, run);
    RunTracks(START, run);
    var s := After(START, run);
    KeptUpThroughTheDrain(s);
  }

  lemma KeptUpThroughTheDrain(s: State)
    requires Listening(s) && s.from + Lasts(s.log) <= s.next <= |s.chunks|
    requires LoopBytes(s.log, s.chunks) == M.Flatten(s.chunks[s.from..s.next - Lasts(s.log)])
    ensures Notices(s.log) == M.Markers(M.Flatten(s.chunks[s.from..s.next])) <==> M.Scan(s.scan, Drained(s)).1 == []
  {
    hide Lasts, Notices, LoopBytes, M.Scan, M.Markers, M.Flatten;
    var mid := s.next - Lasts(s.log);
    assert s.chunks[s.from..mid] + s.chunks[mid..s.next] == s.chunks[s.from..s.next];
    M.FlattenConcat(s.chunks[s.from..mid], s.chunks[mid..s.next]);
    var whole := M.Flatten(s.chunks[s.from..s.next]);
    M.ScanIsMarkers(whole);
    M.ScanConcat(M.Text, LoopBytes(s.log, s.chunks), Drained(s));
    var more := M.Scan(s.scan, Drained(s)).1;
    assert M.Markers(whole) == Notices(s.log) + more;
    assert |Notices(s.log) + more| == |Notices(s.log)| + |more|;
    assert more == [] ==> Notices(s.log) + more == Notices(s.log);
  }

  /** A child whose one chunk is read, sent and followed by its death before the
      client looks again. */
  function Whisper(chunk: seq<byte>): seq<Step> {
    [Subscribe, FirstReplay, Read(chunk), Send, Die, Look, Drain, Finish]
  }

  lemma WhisperRuns(chunk: seq<byte>)
    requires chunk != []
    ensures Runs(START, Whisper(chunk))
    ensures After(START, Whisper(chunk)).log == [Replay(0), Last(0), Exit, Close]
    ensures After(START, Whisper(chunk)).chunks == [chunk]
  {
    var s2 := START.(phase := Head, log := [Replay(0)]);
    var s5 := s2.(chunks := [chunk], sent := 1, alive := false);
    var s8 := s5.(phase := Over, next := 1, log := [Replay(0), Last(0), Exit, Close]);
    var a, b, c := [Subscribe, FirstReplay], [Read(chunk), Send, Die], [Look, Drain, Finish];
    RunsTwo(START, Subscribe, FirstReplay);
    RunsThree(s2, Read(chunk), Send, Die);
    RunsThree(s5, Look, Drain, Finish);
    assert [] + [Replay(0)] == [Replay(0)] && [] + [chunk] == [chunk];
    assert [Replay(0)] + [Last(0)] + [Exit, Close] == [Replay(0), Last(0), Exit, Close];
    assert Do(Do(START, Subscribe), FirstReplay) == s2 && Do(Do(Do(s2, Read(chunk)), Send), Die) == s5;
    assert Do(Do(Do(s5, Look), Drain), Finish) == s8;
    hide Can, Do, Runs, After;
    RunsConcat(START, a, b);
    RunsConcat(START, a + b, c);
    assert a + b + c == Whisper(chunk);
  }

  /** The drain does not listen: a request printed just before the end reaches
      the client as bytes, but not as a request. */
  lemma LastWordsUnheard(url: string)
    requires M.SafeUrl(url) == Some(url)
    ensures Runs(START, Whisper(M.Shim(url)))
    ensures var s := After(START, Whisper(M.Shim(url)));
            && s.log == [Replay(0), Last(0), Exit, Close] && Notices(s.log) == []
            && s.chunks == [M.Shim(url)] && M.Markers(M.Shim(url)) == [M.Open(url)]
  {
    var chunk := M.Shim(url);
    assert chunk != [];
    hide M.Shim, M.SafeUrl, M.Markers, M.Scan, Runs, After, Whisper;
    WhisperRuns(chunk);
    M.ShimRoundTrip(M.Text, url);
    M.ScanIsMarkers(chunk);
    QuietItems([Replay(0), Last(0), Exit, Close], [chunk]);
    assert [] + [M.Open(url)] == [M.Open(url)];
  }
}
