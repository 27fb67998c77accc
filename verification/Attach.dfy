/** An attached client and the pty thread (devpipe/src/session.rs and the attach
    branch of devpipe/src/keeper.rs), as the steps they take in any order.

    The pty thread feeds each chunk it reads to the mirror and then broadcasts it
    into a ring. The client subscribes, is sent a replay of the mirror, and is
    then forwarded chunks; when the ring has overwritten its next chunk it is sent
    another replay instead. Chunks are numbered in the order they were read. */
module Attach {
  import opened Basics
  import M = Marker

  /** Depth of the output ring. */
  const BACKLOG: nat := 2048

  /** What is written to the client: the screen as of the first `upto` chunks, a
      chunk forwarded from the loop, what the scanner heard in it, a chunk
      forwarded by the final drain, and the two frames that end a session. */
  datatype Item = Replay(upto: nat) | Raw(i: nat) | Heard(marker: M.Marker) | Last(i: nat) | Exit | Close

  datatype Phase = Outside | Subscribed | Head | Select | Lagging | Draining | Over | Gone

  datatype State = State(chunks: seq<seq<byte>>, sent: nat, alive: bool,
                         phase: Phase, from: nat, next: nat, scan: M.State, log: seq<Item>)

  const START := State([], 0, true, Outside, 0, 0, M.Text, [])

  datatype Step =
    // the pty thread
    | Read(chunk: seq<byte>) | Send | Die
    // the client's connection
    | Subscribe | FirstReplay | Look | Recv | Notice | Resync | Drain | Finish | Hangup

  predicate Lagged(s: State) { s.sent > s.next + BACKLOG }

  predicate Can(s: State, a: Step) {
    match a
    case Read(chunk) => s.alive && s.sent == |s.chunks| && chunk != []
    case Send => s.sent < |s.chunks|
    case Die => s.alive && s.sent == |s.chunks|
    case Subscribe => s.phase == Outside
    case FirstReplay => s.phase == Subscribed
    case Look => s.phase == Head
    case Recv => s.phase == Select && s.next < s.sent
    // biased: the watch is only asked when there is nothing to receive
    case Notice => s.phase == Select && s.next >= s.sent && !s.alive
    case Resync => s.phase == Lagging
    case Drain => s.phase == Draining && s.next < s.sent && !Lagged(s)
    case Finish => s.phase == Draining && (s.next >= s.sent || Lagged(s))
    case Hangup => s.phase != Outside && s.phase != Over
  }

  function HeardAll(markers: seq<M.Marker>): (r: seq<Item>)
    ensures |r| == |markers| && forall k :: 0 <= k < |r| ==> r[k] == Heard(markers[k])
  {
    seq(|markers|, k requires 0 <= k < |markers| => Heard(markers[k]))
  }

  function Do(s: State, a: Step): State
    requires Can(s, a)
  {
    match a
    case Read(chunk) => s.(chunks := s.chunks + [chunk])
    case Send => s.(sent := s.sent + 1)
    case Die => s.(alive := false)
    case Subscribe => s.(phase := Subscribed, from := s.sent, next := s.sent)
    case FirstReplay => s.(phase := Head, log := s.log + [Replay(|s.chunks|)])
    case Look => s.(phase := if s.alive then Select else Draining)
    case Recv =>
      if Lagged(s) then s.(phase := Lagging, next := s.sent - BACKLOG)
      else if s.next >= |s.chunks| then s
      else
        var (scan, found) := M.Scan(s.scan, s.chunks[s.next]);
        s.(phase := Head, next := s.next + 1, scan := scan, log := s.log + ([Raw(s.next)] + HeardAll(found)))
    case Notice => s.(phase := Head)
    case Resync => s.(phase := Head, log := s.log + [Replay(|s.chunks|)])
    case Drain => s.(next := s.next + 1, log := s.log + [Last(s.next)])
    case Finish => s.(phase := Over, log := s.log + (if s.alive then [] else [Exit, Close]))
    case Hangup => s.(phase := Gone)
  }

  /** What a step writes to the client. */
  function Added(s: State, a: Step): seq<Item>
    requires Can(s, a)
  {
    match a
    case FirstReplay => [Replay(|s.chunks|)]
    case Resync => [Replay(|s.chunks|)]
    case Recv =>
      if Lagged(s) || s.next >= |s.chunks| then []
      else [Raw(s.next)] + HeardAll(M.Scan(s.scan, s.chunks[s.next]).1)
    case Drain => [Last(s.next)]
    case Finish => if s.alive then [] else [Exit, Close]
    case _ => []
  }

  /** A run: steps that can each be taken in turn, and where they lead. */
  predicate Runs(s: State, run: seq<Step>)
    decreases |run|
  {
    run == [] || (Can(s, run[0]) && Runs(Do(s, run[0]), run[1..]))
  }

  function After(s: State, run: seq<Step>): State
    requires Runs(s, run)
    decreases |run|
  {
    if run == [] then s else After(Do(s, run[0]), run[1..])
  }

  // ------------------------------------------------------- what a log covers

  predicate IsChunk(item: Item) { item.Raw? || item.Last? }

  /** The client knows chunk `j` by this: forwarded, or painted by a replay. */
  predicate Delivers(item: Item, j: nat) {
    match item
    case Replay(upto) => j < upto
    case Raw(i) => i == j
    case Last(i) => i == j
    case _ => false
  }

  ghost predicate Known(log: seq<Item>, j: nat) { exists q :: 0 <= q < |log| && Delivers(log[q], j) }

  ghost predicate Covers(log: seq<Item>, n: nat) { forall j: nat :: j < n ==> Known(log, j) }

  /** No chunk is forwarded before everything ahead of it is known. */
  ghost predicate NoGap(log: seq<Item>) {
    forall p :: 0 <= p < |log| && IsChunk(log[p]) ==> Covers(log[..p], log[p].i)
  }

  /** Chunks are forwarded in order, none of them twice. */
  ghost predicate InOrder(log: seq<Item>) {
    forall p, q :: 0 <= p < q < |log| && IsChunk(log[p]) && IsChunk(log[q]) ==> log[p].i < log[q].i
  }

  /** What the last replay painted, in chunks. */
  function Painted(log: seq<Item>): nat {
    if log == [] then 0
    else if log[|log| - 1].Replay? then log[|log| - 1].upto
    else Painted(log[..|log| - 1])
  }

  /** How far the client is covered, once a replay has been sent. */
  function Reach(s: State): nat { if s.next < Painted(s.log) then Painted(s.log) else s.next }

  predicate Attached(s: State) { s.phase in {Head, Select, Draining, Over} }

  ghost predicate Ring(s: State) {
    && s.sent <= |s.chunks| <= s.sent + 1 && (!s.alive ==> s.sent == |s.chunks|)
    && s.from <= s.next <= s.sent && Painted(s.log) <= |s.chunks|
    && (s.phase in {Outside, Subscribed} ==> s.log == []) && (s.phase == Subscribed ==> s.from == s.next)
    && (s.phase in {Draining, Over} ==> !s.alive)
  }

  ghost predicate Sound(s: State) {
    && NoGap(s.log) && InOrder(s.log)
    && (forall p :: 0 <= p < |s.log| && IsChunk(s.log[p]) ==> s.log[p].i < s.next)
    && (Attached(s) ==> Covers(s.log, Reach(s)))
  }

  lemma PaintedAppend(log: seq<Item>, more: seq<Item>)
    requires forall k :: 0 <= k < |more| ==> !more[k].Replay?
    ensures Painted(log + more) == Painted(log)
  {
    if more != [] {
      var all := log + more;
      assert all[|all| - 1] == more[|more| - 1];
      assert all[..|all| - 1] == log + more[..|more| - 1];
      PaintedAppend(log, more[..|more| - 1]);
    } else {
      assert log + more == log;
    }
  }

  lemma PaintedReplay(log: seq<Item>, upto: nat)
    ensures Painted(log + [Replay(upto)]) == upto
  {}

  /** What was known stays known. */
  lemma CoversGrows(log: seq<Item>, more: seq<Item>, n: nat)
    requires Covers(log, n)
    ensures Covers(log + more, n)
  {
    forall j: nat | j < n ensures Known(log + more, j) {
      assert Known(log, j);
      var q :| 0 <= q < |log| && Delivers(log[q], j);
      assert (log + more)[q] == log[q];
    }
  }

  lemma CoversOne(log: seq<Item>, item: Item, n: nat)
    requires Covers(log, n) && Delivers(item, n)
    ensures Covers(log + [item], n + 1)
  {
    CoversGrows(log, [item], n);
    assert (log + [item])[|log|] == item;
    assert Known(log + [item], n);
  }

  lemma CoversReplay(log: seq<Item>, upto: nat)
    ensures Covers(log + [Replay(upto)], upto)
  {
    var all := log + [Replay(upto)];
    forall j: nat | j < upto ensures Known(all, j) {
      assert Delivers(all[|log|], j);
    }
  }

  lemma CoversLess(log: seq<Item>, n: nat, m: nat)
    requires Covers(log, n) && m <= n
    ensures Covers(log, m)
  {}

  /** Items that are not chunks forward nothing. */
  lemma QuietAppend(log: seq<Item>, more: seq<Item>)
    requires forall k :: 0 <= k < |more| ==> !IsChunk(more[k])
    ensures NoGap(log) ==> NoGap(log + more)
    ensures InOrder(log) ==> InOrder(log + more)
  {
    var all := log + more;
    forall p | |log| <= p < |all| ensures !IsChunk(all[p]) { assert all[p] == more[p - |log|]; }
    assert forall p :: 0 <= p < |log| ==> all[p] == log[p] && all[..p] == log[..p];
  }

  lemma ChunkAppend(log: seq<Item>, item: Item)
    requires IsChunk(item) && NoGap(log) && InOrder(log) && Covers(log, item.i)
    requires forall p :: 0 <= p < |log| && IsChunk(log[p]) ==> log[p].i < item.i
    ensures NoGap(log + [item]) && InOrder(log + [item])
  {
    var all := log + [item];
    forall p | 0 <= p < |all| && IsChunk(all[p]) ensures Covers(all[..p], all[p].i) {
      assert all[..p] == log[..p];
      if p == |log| { assert log[..p] == log; }
    }
  }

  lemma RingKept(s: State, a: Step)
    requires Ring(s) && Can(s, a)
    ensures Ring(Do(s, a))
  {
    if !a.FirstReplay? && !a.Resync? {
      PaintedAppend(s.log, Added(s, a));
    }
  }

  /** Forwarding the next chunk, however its markers are reported. */
  lemma ForwardKeeps(log: seq<Item>, item: Item, found: seq<Item>, reach: nat)
    requires IsChunk(item) && NoGap(log) && InOrder(log) && Covers(log, reach) && item.i <= reach
    requires forall p :: 0 <= p < |log| && IsChunk(log[p]) ==> log[p].i < item.i
    requires forall k :: 0 <= k < |found| ==> found[k].Heard?
    ensures var all := log + ([item] + found);
            && NoGap(all) && InOrder(all) && Painted(all) == Painted(log)
            && Covers(all, if item.i + 1 > reach then item.i + 1 else reach)
            && forall p :: 0 <= p < |all| && IsChunk(all[p]) ==> all[p].i < item.i + 1
  {
    var one := log + [item];
    assert one + found == log + ([item] + found);
    CoversLess(log, reach, item.i);
    ChunkAppend(log, item);
    QuietAppend(one, found);
    PaintedAppend(log, [item] + found);
    CoversOne(log, item, item.i);
    CoversGrows(log, [item], reach);
    var n := if item.i + 1 > reach then item.i + 1 else reach;
    CoversGrows(one, found, n);
    var all := log + ([item] + found);
    forall p | |log| < p < |all| ensures !IsChunk(all[p]) { assert all[p] == found[p - |log| - 1]; }
    assert all[|log|] == item && forall p :: 0 <= p < |log| ==> all[p] == log[p];
  }

  lemma RecvKeeps(s: State)
    requires Ring(s) && Sound(s) && Can(s, Recv)
    ensures Sound(Do(s, Recv))
  {
    hide NoGap, InOrder, Covers, Painted, HeardAll, M.Scan;
    if !Lagged(s) {
      var found := HeardAll(M.Scan(s.scan, s.chunks[s.next]).1);
      ForwardKeeps(s.log, Raw(s.next), found, Reach(s));
      assert Do(s, Recv).log == s.log + ([Raw(s.next)] + found);
    }
  }

  lemma DrainKeeps(s: State)
    requires Ring(s) && Sound(s) && Can(s, Drain)
    ensures Sound(Do(s, Drain))
  {
    hide NoGap, InOrder, Covers, Painted;
    ForwardKeeps(s.log, Last(s.next), [], Reach(s));
    assert Do(s, Drain).log == s.log + ([Last(s.next)] + []);
  }

  lemma ReplayKeeps(s: State, phase: Phase)
    requires Ring(s) && Sound(s)
    ensures Sound(s.(phase := phase, log := s.log + [Replay(|s.chunks|)]))
  {
    QuietAppend(s.log, [Replay(|s.chunks|)]);
    CoversReplay(s.log, |s.chunks|);
    PaintedReplay(s.log, |s.chunks|);
  }

  lemma SoundKept(s: State, a: Step)
    requires Ring(s) && Sound(s) && Can(s, a)
    ensures Sound(Do(s, a))
  {
    if a.Recv? {
      hide *;
      RecvKeeps(s);
    } else if a.Drain? {
      hide *;
      DrainKeeps(s);
    } else if a.FirstReplay? || a.Resync? {
      assert Do(s, a) == s.(phase := Head, log := s.log + [Replay(|s.chunks|)]);
      hide *;
      ReplayKeeps(s, Head);
    } else if a.Finish? {
      hide *;
      FinishKeeps(s);
    } else {
      hide NoGap, InOrder, Covers, Painted;
    }
  }

  lemma FinishKeeps(s: State)
    requires Ring(s) && Sound(s) && Can(s, Finish)
    ensures Sound(Do(s, Finish))
  {
    var more := if s.alive then [] else [Exit, Close];
    QuietAppend(s.log, more);
    PaintedAppend(s.log, more);
    CoversGrows(s.log, more, Reach(s));
    hide NoGap, InOrder, Covers, Painted;
  }

  lemma {:induction false} RunKeeps(s: State, run: seq<Step>)
    requires Ring(s) && Sound(s) && Runs(s, run)
    ensures Ring(After(s, run)) && Sound(After(s, run))
    decreases |run|
  {
    hide Ring, Sound, Can, Do;
    if run != [] {
      RingKept(s, run[0]);
      SoundKept(s, run[0]);
      RunKeeps(Do(s, run[0]), run[1..]);
    }
  }

  /** In every interleaving, with any amount of falling behind: a client is never
      forwarded a chunk while an earlier one is unknown to it, and no chunk is
      forwarded twice or out of order. */
  lemma NeverAGap(run: seq<Step>)
    requires Runs(START, run)
    ensures NoGap(After(START, run).log) && InOrder(After(START, run).log)
  {
    RunKeeps(START, run);
  }

  // ------------------------------------------------------------- the ending

  /** When a client is told the child has gone, everything the child painted is
      known to it, exactly when the final drain did not find it lagging or the
      last replay it was sent already showed the final screen. */
  lemma ExitIsComplete(run: seq<Step>)
    requires Runs(START, run) && Exit in After(START, run).log
    ensures var s := After(START, run);
            && !s.alive && (!Lagged(s) ==> s.next == |s.chunks|)
            && (Covers(s.log, |s.chunks|) <==> !Lagged(s) || Painted(s.log) == |s.chunks|)
  {
    var s := After(START, run);
    RunKeeps(START, run);
    RunEnds(START, run);
    if Lagged(s) && Painted(s.log) < |s.chunks| {
      LastUnknown(START, run);
    }
  }

  /** The drain stops only with nothing left, or lagging; and that is the only
      way a client is told of an exit. */
  ghost predicate Ended(s: State) {
    && (Exit in s.log ==> s.phase == Over)
    && (s.phase == Over ==> s.next >= s.sent || Lagged(s))
  }

  lemma {:induction false} RunEnds(s: State, run: seq<Step>)
    requires Ring(s) && Ended(s) && Runs(s, run)
    ensures Ended(After(s, run))
    decreases |run|
  {
    if run != [] {
      RingKept(s, run[0]);
      RunEnds(Do(s, run[0]), run[1..]);
    }
  }

  /** An item that tells a client only of chunks below `n`. */
  predicate Below(item: Item, n: nat) {
    (IsChunk(item) ==> item.i < n) && (item.Replay? ==> item.upto <= n)
  }

  ghost predicate AllBelow(log: seq<Item>, n: nat) { forall q :: 0 <= q < |log| ==> Below(log[q], n) }

  lemma BelowAppend(log: seq<Item>, more: seq<Item>, n: nat, m: nat)
    requires AllBelow(log, n) && n <= m && AllBelow(more, m)
    ensures AllBelow(log + more, m)
  {
    var all := log + more;
    forall q | 0 <= q < |all| ensures Below(all[q], m) {
      if q < |log| { assert Below(log[q], n); } else { assert all[q] == more[q - |log|]; }
    }
  }

  /** Nothing in the log delivers anything past the cursor and the last replay. */
  ghost predicate Bounded(s: State) { AllBelow(s.log, Reach(s)) }

  lemma BoundedKept(s: State, a: Step)
    requires Ring(s) && Bounded(s) && Can(s, a)
    ensures Bounded(Do(s, a))
  {
    hide M.Scan, AllBelow;
    var t := Do(s, a);
    var more := Added(s, a);
    if a.FirstReplay? || a.Resync? {
      PaintedReplay(s.log, |s.chunks|);
    } else {
      PaintedAppend(s.log, more);
    }
    assert Reach(s) <= Reach(t);
    AddedBelow(s, a);
    BelowAppend(s.log, more, Reach(s), Reach(t));
    assert t.log == s.log + more;
  }

  lemma AddedBelow(s: State, a: Step)
    requires Ring(s) && Can(s, a)
    ensures AllBelow(Added(s, a), Reach(Do(s, a)))
  {
    hide M.Scan, Painted;
    if a.FirstReplay? || a.Resync? {
      PaintedReplay(s.log, |s.chunks|);
    }
    assert s.next <= Do(s, a).next <= Reach(Do(s, a));
  }

  lemma {:induction false} RunBounded(s: State, run: seq<Step>)
    requires Ring(s) && Bounded(s) && Runs(s, run)
    ensures Ring(After(s, run)) && Bounded(After(s, run))
    decreases |run|
  {
    hide Ring, Bounded, Can, Do;
    if run != [] {
      RingKept(s, run[0]);
      BoundedKept(s, run[0]);
      RunBounded(Do(s, run[0]), run[1..]);
    }
  }

  lemma LastUnknown(s: State, run: seq<Step>)
    requires s == START && Runs(s, run)
    requires var t := After(s, run); t.next < |t.chunks| && Painted(t.log) < |t.chunks|
    ensures !Covers(After(s, run).log, |After(s, run).chunks|)
  {
    var t := After(s, run);
    RunBounded(s, run);
    assert !Known(t.log, |t.chunks| - 1);
  }

  lemma {:induction false} RunsConcat(s: State, a: seq<Step>, b: seq<Step>)
    requires Runs(s, a) && Runs(After(s, a), b)
    ensures Runs(s, a + b) && After(s, a + b) == After(After(s, a), b)
    decreases |a|
  {
    hide Can, Do;
    if a == [] {
      assert a + b == b;
    } else {
      assert (a + b)[0] == a[0] && (a + b)[1..] == a[1..] + b;
      RunsConcat(Do(s, a[0]), a[1..], b);
    }
  }

  lemma RunsCons(s: State, a: Step, run: seq<Step>)
    requires Can(s, a) && Runs(Do(s, a), run)
    ensures Runs(s, [a] + run) && After(s, [a] + run) == After(Do(s, a), run)
  {
    hide Can, Do;
    assert ([a] + run)[1..] == run;
  }

  lemma RunsTwo(s: State, a: Step, b: Step)
    requires Can(s, a) && Can(Do(s, a), b)
    ensures Runs(s, [a, b]) && After(s, [a, b]) == Do(Do(s, a), b)
  {
    hide Can, Do;
    assert Runs(Do(Do(s, a), b), []) && After(Do(Do(s, a), b), []) == Do(Do(s, a), b);
    RunsCons(Do(s, a), b, []);
    RunsCons(s, a, [b]);
    assert [b] + [] == [b] && [a] + [b] == [a, b];
  }

  lemma RunsThree(s: State, a: Step, b: Step, c: Step)
    requires Can(s, a) && Can(Do(s, a), b) && Can(Do(Do(s, a), b), c)
    ensures Runs(s, [a, b, c]) && After(s, [a, b, c]) == Do(Do(Do(s, a), b), c)
  {
    hide Can, Do;
    var s2 := Do(Do(s, a), b);
    assert Runs(Do(s2, c), []) && After(Do(s2, c), []) == Do(s2, c);
    assert [c][1..] == [] && Runs(s2, [c]) && After(s2, [c]) == Do(s2, c);
    assert [b, c][1..] == [c] && Runs(Do(s, a), [b, c]);
    assert [a, b, c][1..] == [b, c];
  }

  function Flood(n: nat, chunk: seq<byte>): seq<Step> {
    if n == 0 then [] else [Read(chunk), Send] + Flood(n - 1, chunk)
  }

  lemma {:induction false} FloodRuns(s: State, n: nat, chunk: seq<byte>)
    requires s.alive && s.sent == |s.chunks| && chunk != []
    ensures Runs(s, Flood(n, chunk))
    ensures var t := After(s, Flood(n, chunk));
            && t == s.(chunks := t.chunks, sent := s.sent + n) && |t.chunks| == s.sent + n && s.chunks <= t.chunks
            && forall k :: s.sent <= k < |t.chunks| ==> t.chunks[k] == chunk
    decreases n
  {
    if n > 0 {
      var run := Flood(n, chunk);
      var s1 := Do(s, Read(chunk));
      var s2 := Do(s1, Send);
      assert run[1..] == [Send] + Flood(n - 1, chunk) && run[1..][1..] == Flood(n - 1, chunk);
      FloodRuns(s2, n - 1, chunk);
      assert Runs(s1, run[1..]);
    }
  }

  function Farewell(n: nat, chunk: seq<byte>): seq<Step> {
    [Subscribe, FirstReplay] + Flood(n, chunk) + [Die, Look, Finish]
  }

  /** A child that dies more than a ringful ahead of its client takes the
      difference with it: the client is told it is over, knowing none of it. */
  lemma LossyExit(n: nat, chunk: seq<byte>)
    requires n > 2048 && chunk != []
    ensures Runs(START, Farewell(n, chunk))
    ensures var s := After(START, Farewell(n, chunk));
            s.log == [Replay(0), Exit, Close] && |s.chunks| == n && !Known(s.log, 0)
  {
    var s2 := START.(phase := Head, log := [Replay(0)]);
    var opening := [Subscribe, FirstReplay];
    RunsTwo(START, Subscribe, FirstReplay);
    assert Do(Do(START, Subscribe), FirstReplay) == s2 by { assert [] + [Replay(0)] == [Replay(0)]; }
    FloodRuns(s2, n, chunk);
    var s3 := After(s2, Flood(n, chunk));
    hide Runs, After, Flood;
    LateFinish(s3);
    hide Can, Do;
    RunsConcat(START, opening, Flood(n, chunk));
    RunsConcat(START, opening + Flood(n, chunk), [Die, Look, Finish]);
  }

  /** Dying more than a ringful ahead of a client that has been replayed nothing. */
  lemma LateFinish(s: State)
    requires s.alive && s.phase == Head && s.sent == |s.chunks| && s.next == 0 && s.log == [Replay(0)] && Lagged(s)
    ensures Runs(s, [Die, Look, Finish])
    ensures var t := After(s, [Die, Look, Finish]);
            t.log == [Replay(0), Exit, Close] && t.chunks == s.chunks && !Known(t.log, 0)
  {
    RunsThree(s, Die, Look, Finish);
    assert [Replay(0)] + [Exit, Close] == [Replay(0), Exit, Close];
  }
}
