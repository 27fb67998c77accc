/** A client that attaches to a session under way (devpipe/src/keeper.rs, and `subscribe`
    in devpipe/src/session.rs): what it is sent, from where, and how it ends. */
module Newcomers {
  import opened Basics
  import M = Marker
  import opened Attach
  import opened Hearing

  // -------------------------------------------------------------- from where

  /** The chunks forwarded, by number, in order. */
  function Forwarded(log: seq<Item>): seq<nat> {
    if log == [] then []
    else Forwarded(log[..|log| - 1]) + (if IsChunk(log[|log| - 1]) then [log[|log| - 1].i] else [])
  }

  /** So many numbers from `n` on. */
  function From(n: nat, count: nat): (r: seq<nat>)
    ensures |r| == count && forall k :: 0 <= k < count ==> r[k] == n + k
  {
    seq(count, k => n + k)
  }

  lemma ForwardedSnoc(log: seq<Item>, item: Item)
    ensures Forwarded(log + [item]) == Forwarded(log) + (if IsChunk(item) then [item.i] else [])
  {
    assert (log + [item])[..|log|] == log;
  }

  lemma {:induction false} ForwardedQuiet(log: seq<Item>, more: seq<Item>)
    requires forall k :: 0 <= k < |more| ==> !IsChunk(more[k])
    ensures Forwarded(log + more) == Forwarded(log)
    decreases |more|
  {
    hide Forwarded;
    if more == [] {
      assert log + more == log;
    } else {
      var init, item := more[..|more| - 1], more[|more| - 1];
      assert log + more == log + init + [item];
      ForwardedQuiet(log, init);
      ForwardedSnoc(log + init, item);
    }
  }

  /** What a client that subscribed when `n` chunks had been sent has been forwarded:
      nothing earlier, and, if it was never resynced, `n` and all that follow, up to
      its cursor while it is attached. */
  ghost predicate Since(s: State, n: nat) {
    var sent := Forwarded(s.log);
    && s.phase != Outside && s.from == n <= s.next
    && (forall k :: 0 <= k < |sent| ==> n <= sent[k])
    && (s.phase == Subscribed ==> s.log == [] && s.next == n)
    && (s.phase in {Head, Select, Lagging, Draining, Over} ==> Replays(s.log) >= 1)
    && (Replays(s.log) <= 1 ==> sent == From(n, |sent|))
    && (Replays(s.log) <= 1 && s.phase !in {Lagging, Gone} ==> n + |sent| == s.next)
  }

  lemma SinceForwards(s: State, n: nat, item: Item, more: seq<Item>, t: State)
    requires Since(s, n) && Attached(s) && item in {Raw(s.next), Last(s.next)}
    requires forall k :: 0 <= k < |more| ==> more[k].Heard?
    requires t.log == s.log + [item] + more && t.next == s.next + 1 && t.from == s.from && Attached(t)
    ensures Since(t, n)
  {
    hide Forwarded, Replays;
    ForwardedSnoc(s.log, item);
    ForwardedQuiet(s.log + [item], more);
    CountsOne(s.log, item);
    CountsAppend(s.log + [item], more);
  }

  lemma SinceRecv(s: State, n: nat)
    requires Since(s, n) && Can(s, Recv) && !Lagged(s)
    ensures Since(Do(s, Recv), n)
  {
    if s.next < |s.chunks| {
      RecvAdds(s);
      hide *;
      SinceForwards(s, n, Raw(s.next), HeardAll(M.Scan(s.scan, s.chunks[s.next]).1), Do(s, Recv));
    }
  }

  lemma RecvAdds(s: State)
    requires Can(s, Recv) && !Lagged(s) && s.next < |s.chunks|
    ensures var t, more := Do(s, Recv), HeardAll(M.Scan(s.scan, s.chunks[s.next]).1);
            && Attached(s) && Attached(t) && t.next == s.next + 1 && t.from == s.from
            && t.log == s.log + [Raw(s.next)] + more && forall k :: 0 <= k < |more| ==> more[k].Heard?
  {
    hide M.Scan;
    var more := HeardAll(M.Scan(s.scan, s.chunks[s.next]).1);
    assert s.log + ([Raw(s.next)] + more) == s.log + [Raw(s.next)] + more;
  }

  lemma SinceReplay(s: State, n: nat, a: Step)
    requires Since(s, n) && Can(s, a) && (a.FirstReplay? || a.Resync?)
    ensures Since(Do(s, a), n)
  {
    assert Do(s, a) == s.(phase := Head, log := s.log + [Replay(|s.chunks|)]);
    hide Forwarded, Replays, Can, Do;
    NothingSent();
    ForwardedSnoc(s.log, Replay(|s.chunks|));
    CountsOne(s.log, Replay(|s.chunks|));
  }

  lemma NothingSent()
    ensures Replays([]) == 0 && Forwarded([]) == []
  {}

  lemma SinceEnd(s: State, n: nat, a: Step)
    requires Since(s, n) && Can(s, a) && (a.Drain? || a.Finish?)
    ensures Since(Do(s, a), n)
  {
    hide Forwarded, Replays;
    if a.Drain? {
      assert s.log + [Last(s.next)] + [] == s.log + [Last(s.next)];
      SinceForwards(s, n, Last(s.next), [], Do(s, a));
    } else {
      ForwardedQuiet(s.log, Added(s, a));
      CountsAppend(s.log, Added(s, a));
    }
  }

  lemma SinceKept(s: State, n: nat, a: Step)
    requires Since(s, n) && Can(s, a)
    ensures Since(Do(s, a), n)
  {
    if a.Recv? && !Lagged(s) {
      hide *;
      SinceRecv(s, n);
    } else if a.FirstReplay? || a.Resync? {
      hide *;
      SinceReplay(s, n, a);
    } else if a.Drain? || a.Finish? {
      hide *;
      SinceEnd(s, n, a);
    } else {
      hide Forwarded, Replays, M.Scan, HeardAll;
    }
  }

  lemma {:induction false} RunSince(s: State, n: nat, run: seq<Step>)
    requires Since(s, n) && Runs(s, run)
    ensures Since(After(s, run), n)
    decreases |run|
  {
    if run != [] {
      hide Since, Can, Do;
      SinceKept(s, n, run[0]);
      RunSince(Do(s, run[0]), n, run[1..]);
    }
  }

  /** How many chunks a run reads, and how many it sends. */
  function Reads(run: seq<Step>): nat { if run == [] then 0 else (if run[0].Read? then 1 else 0) + Reads(run[1..]) }

  function Sends(run: seq<Step>): nat { if run == [] then 0 else (if run[0] == Send then 1 else 0) + Sends(run[1..]) }

  lemma {:induction false} RunCounts(s: State, run: seq<Step>)
    requires Runs(s, run)
    ensures |After(s, run).chunks| == |s.chunks| + Reads(run) && After(s, run).sent == s.sent + Sends(run)
    decreases |run|
  {
    if run != [] {
      StepCounts(s, run[0]);
      hide Can, Do;
      RunCounts(Do(s, run[0]), run[1..]);
    }
  }

  lemma StepCounts(s: State, a: Step)
    requires Can(s, a)
    ensures |Do(s, a).chunks| == |s.chunks| + (if a.Read? then 1 else 0)
    ensures Do(s, a).sent == s.sent + (if a == Send then 1 else 0)
  {
    hide M.Scan, HeardAll;
  }

  /** Every replay, the first or a resync, is of all the child has printed by then, what
      has been read and not yet sent included. */
  lemma ReplayIsOfAll(before: seq<Step>, a: Step)
    requires Runs(START, before) && Can(After(START, before), a) && (a.FirstReplay? || a.Resync?)
    ensures var s := After(START, before); Do(s, a).log == s.log + [Replay(Reads(before))]
  {
    RunCounts(START, before);
  }

  /** In every run: a client is forwarded, by the loop and by the drain, nothing that was
      sent before it subscribed; and unless it was resynced, exactly what was sent from
      then on, one chunk after the other, up to its cursor while it is attached. */
  lemma ForwardedSinceSubscribing(before: seq<Step>, after: seq<Step>)
    requires Runs(START, before) && Can(After(START, before), Subscribe)
    requires Runs(Do(After(START, before), Subscribe), after)
    ensures var n := After(START, before).sent;
            var s := After(Do(After(START, before), Subscribe), after);
            var sent := Forwarded(s.log);
            && s.from == n == Sends(before)
            && (forall k :: 0 <= k < |sent| ==> n <= sent[k])
            && (Replays(s.log) <= 1 ==> sent == From(n, |sent|))
            && (Replays(s.log) <= 1 && Attached(s) ==> n + |sent| == s.next)
  {
    OutsideIsSilent(before);
    RunCounts(START, before);
    var s := After(START, before);
    hide Runs, After, Forwarded, Replays;
    NothingSent();
    assert Since(Do(s, Subscribe), s.sent);
    hide Can, Do, Since;
    RunSince(Do(s, Subscribe), s.sent, after);
  }

  lemma OutsideIsSilent(before: seq<Step>)
    requires Runs(START, before) && After(START, before).phase == Outside
    ensures After(START, before).log == []
  {
    assert Ring(START);
    hide Ring, Sound, Runs, After;
    StartKeeps();
    RunKeeps(START, before);
    SilentOutside(After(START, before));
  }

  lemma SilentOutside(s: State)
    requires Ring(s) && s.phase == Outside
    ensures s.log == []
  {}

  // ------------------------------------------------------ the bytes come first

  /** At every point of the log, what has been asked for so far is no more than the bytes
      forwarded so far ask for. */
  ghost predicate InTime(s: State) {
    forall p :: 0 <= p <= |s.log| ==> Notices(s.log[..p]) <= M.Markers(LoopBytes(s.log[..p], s.chunks))
  }

  lemma InTimeAdds(s: State, t: State, more: seq<Item>)
    requires InTime(s) && t.log == s.log + more && t.chunks == s.chunks
    requires forall q :: 0 < q <= |more| ==>
               Notices(s.log + more[..q]) <= M.Markers(LoopBytes(s.log + more[..q], s.chunks))
    ensures InTime(t)
  {
    hide Notices, LoopBytes, M.Markers;
    forall p | 0 <= p <= |t.log| ensures Notices(t.log[..p]) <= M.Markers(LoopBytes(t.log[..p], t.chunks)) {
      if p <= |s.log| {
        assert t.log[..p] == s.log[..p];
      } else {
        assert t.log[..p] == s.log + more[..p - |s.log|];
      }
    }
  }

  /** A chunk, and then some of what was heard in it. */
  lemma ForwardsInTime(s: State, q: nat)
    requires Listening(s) && s.next < |s.chunks|
    requires q <= |M.Scan(s.scan, s.chunks[s.next]).1|
    ensures var log := s.log + ([Raw(s.next)] + HeardAll(M.Scan(s.scan, s.chunks[s.next]).1)[..q]);
            Notices(log) <= M.Markers(LoopBytes(log, s.chunks))
  {
    hide *;
    var found := M.Scan(s.scan, s.chunks[s.next]).1;
    SomeHeard(found, q);
    var one := [Raw(s.next)];
    HeardNotices(s, found[..q]);
    ScanForwards(s);
    M.ScanIsMarkers(LoopBytes(s.log, s.chunks) + s.chunks[s.next]);
    assert found[..q] + found[q..] == found;
    Assoc(Notices(s.log), found[..q], found[q..]);
  }

  lemma SomeHeard(found: seq<M.Marker>, q: nat)
    requires q <= |found|
    ensures HeardAll(found)[..q] == HeardAll(found[..q])
  {}

  lemma ScanForwards(s: State)
    requires Listening(s) && s.next < |s.chunks|
    ensures M.Scan(M.Text, LoopBytes(s.log, s.chunks) + s.chunks[s.next]).1
         == Notices(s.log) + M.Scan(s.scan, s.chunks[s.next]).1
  {
    hide M.Scan, Notices, LoopBytes;
    M.ScanConcat(M.Text, LoopBytes(s.log, s.chunks), s.chunks[s.next]);
  }

  lemma HeardNotices(s: State, some: seq<M.Marker>)
    requires s.next < |s.chunks|
    ensures var log := s.log + ([Raw(s.next)] + HeardAll(some));
            && Notices(log) == Notices(s.log) + some
            && LoopBytes(log, s.chunks) == LoopBytes(s.log, s.chunks) + s.chunks[s.next]
  {
    hide *;
    var one := [Raw(s.next)];
    NoticesHeard(some, s.chunks);
    NoticesConcat(one, HeardAll(some));
    LoopBytesConcat(one, HeardAll(some), s.chunks);
    RawAlone(s.next, s.chunks);
    NoticesConcat(s.log, one + HeardAll(some));
    LoopBytesConcat(s.log, one + HeardAll(some), s.chunks);
    assert [] + some == some && s.chunks[s.next] + [] == s.chunks[s.next];
  }
  lemma InTimeRecv(s: State)
    requires Ring(s) && Listening(s) && InTime(s) && Can(s, Recv) && !Lagged(s)
    ensures InTime(Do(s, Recv))
  {
    hide Notices, LoopBytes, M.Markers, M.Scan, InTime, HeardAll, Painted, Listening;
    var found := M.Scan(s.scan, s.chunks[s.next]).1;
    var more := [Raw(s.next)] + HeardAll(found);
    forall q | 0 < q <= |more|
      ensures Notices(s.log + more[..q]) <= M.Markers(LoopBytes(s.log + more[..q], s.chunks))
    {
      assert more[..q] == [Raw(s.next)] + HeardAll(found)[..q - 1];
      ForwardsInTime(s, q - 1);
    }
    InTimeAdds(s, Do(s, Recv), more);
  }

  lemma InTimeQuiet(s: State, t: State, more: seq<Item>)
    requires InTime(s) && t.log == s.log + more && t.chunks == s.chunks
    requires forall k :: 0 <= k < |more| ==> !more[k].Heard? && !more[k].Raw?
    ensures InTime(t)
  {
    hide Notices, LoopBytes, M.Markers;
    assert s.log[..|s.log|] == s.log;
    forall q | 0 < q <= |more|
      ensures Notices(s.log + more[..q]) <= M.Markers(LoopBytes(s.log + more[..q], s.chunks))
    {
      QuietItems(more[..q], s.chunks);
      NoticesConcat(s.log, more[..q]);
      LoopBytesConcat(s.log, more[..q], s.chunks);
      assert Notices(s.log) + [] == Notices(s.log) && LoopBytes(s.log, s.chunks) + [] == LoopBytes(s.log, s.chunks);
    }
    InTimeAdds(s, t, more);
  }

  lemma InTimeRead(s: State, chunk: seq<byte>)
    requires Ring(s) && Numbered(s) && InTime(s)
    ensures InTime(s.(chunks := s.chunks + [chunk]))
  {
    hide Notices, LoopBytes, M.Markers;
    forall p | 0 <= p <= |s.log|
      ensures Notices(s.log[..p]) <= M.Markers(LoopBytes(s.log[..p], s.chunks + [chunk]))
    {
      assert forall k :: 0 <= k < p ==> s.log[..p][k] == s.log[k];
      LoopBytesStable(s.log[..p], s.chunks, chunk);
    }
  }

  lemma InTimeKept(s: State, a: Step)
    requires Ring(s) && Numbered(s) && Listening(s) && InTime(s) && Can(s, a)
    ensures InTime(Do(s, a))
  {
    if a.Recv? && !Lagged(s) {
      hide *;
      InTimeRecv(s);
    } else if a.Read? {
      assert Do(s, a) == s.(chunks := s.chunks + [a.chunk]);
      hide *;
      InTimeRead(s, a.chunk);
    } else {
      StepAdds(s, a);
      hide *;
      InTimeQuiet(s, Do(s, a), Added(s, a));
    }
  }

  lemma StepAdds(s: State, a: Step)
    requires Can(s, a) && !a.Read? && (!a.Recv? || Lagged(s))
    ensures Do(s, a).log == s.log + Added(s, a) && Do(s, a).chunks == s.chunks
    ensures forall k :: 0 <= k < |Added(s, a)| ==> !Added(s, a)[k].Heard? && !Added(s, a)[k].Raw?
  {
    hide M.Scan, HeardAll;
  }

  lemma {:induction false} RunInTime(s: State, run: seq<Step>)
    requires Ring(s) && Sound(s) && Listening(s) && InTime(s) && Runs(s, run)
    ensures InTime(After(s, run))
    decreases |run|
  {
    if run != [] {
      assert Numbered(s);
      hide Ring, Sound, Listening, InTime, Numbered, Can, Do;
      RingKept(s, run[0]);
      SoundKept(s, run[0]);
      ListeningKept(s, run[0]);
      InTimeKept(s, run[0]);
      RunInTime(Do(s, run[0]), run[1..]);
    }
  }

  /** In every run: wherever a client's log is cut, what it has been told to open by then
      is what the bytes it has been forwarded by then begin by asking for. A client is
      never told ahead of the bytes. */
  lemma NeverToldAhead(run: seq<Step>, p: nat)
    requires Runs(START, run) && p <= |After(START, run).log|
    ensures var s := After(START, run); Notices(s.log[..p]) <= M.Markers(LoopBytes(s.log[..p], s.chunks))
  {
    StartKeeps();
    StartInTime();
    hide Ring, Sound, Listening, Runs, After, Tracked, Straight, Ended;
    RunInTime(START, run);
  }

  lemma StartInTime()
    ensures InTime(START)
  {
    assert Notices([]) == [];
  }

  // ------------------------------------------------------------- how it ends

  /** The drain takes one chunk after the other. */
  function Drains(n: nat): seq<Step> { if n == 0 then [] else [Drain] + Drains(n - 1) }

  lemma {:induction false} DrainsAll(s: State, n: nat)
    requires s.phase == Draining && s.next + n == s.sent && n <= 2048
    ensures Runs(s, Drains(n))
    ensures var t := After(s, Drains(n));
            && t.phase == Draining && t.next == t.sent && t.alive == s.alive && t.chunks == s.chunks
            && Forwarded(t.log) == Forwarded(s.log) + From(s.next, n)
    decreases n
  {
    if n == 0 {
      assert Forwarded(s.log) + From(s.next, 0) == Forwarded(s.log);
    } else {
      assert Can(s, Drain);
      var t := Do(s, Drain);
      hide Forwarded;
      ForwardedSnoc(s.log, Last(s.next));
      DrainsAll(t, n - 1);
      Assoc(Forwarded(s.log), [s.next], From(s.next + 1, n - 1));
      assert From(s.next, n) == [s.next] + From(s.next + 1, n - 1);
      RunsCons(s, Drain, Drains(n - 1));
    }
  }

  function Parting(n: nat, chunk: seq<byte>): seq<Step> {
    [Subscribe, FirstReplay] + Flood(n, chunk) + [Die, Look] + Drains(n) + [Finish]
  }

  /** Up to 2048 chunks a dying child leaves behind all reach the client, in order, and
      then it is told. (Of more, by `LossyExit`, none do.) */
  lemma WholeExit(n: nat, chunk: seq<byte>)
    requires n <= 2048 && chunk != []
    ensures Runs(START, Parting(n, chunk))
    ensures var s := After(START, Parting(n, chunk));
            && |s.chunks| == n && Forwarded(s.log) == From(0, n)
            && s.phase == Over && |s.log| >= 2 && s.log[|s.log| - 2..] == [Exit, Close]
  {
    var s2 := START.(phase := Head, log := [Replay(0)]);
    var opening, flood := [Subscribe, FirstReplay], Flood(n, chunk);
    Attaching();
    FloodRuns(s2, n, chunk);
    var s3 := After(s2, flood);
    hide Runs, After, Flood, Forwarded;
    Dying(s3);
    var s4 := After(s3, [Die, Look]);
    DrainsAll(s4, n);
    var s5 := After(s4, Drains(n));
    Finishing(s5);
    hide Can, Do;
    RunsConcat(START, opening, flood);
    RunsConcat(START, opening + flood, [Die, Look]);
    RunsConcat(START, opening + flood + [Die, Look], Drains(n));
    RunsConcat(START, opening + flood + [Die, Look] + Drains(n), [Finish]);
    assert [] + From(0, n) == From(0, n);
  }

  lemma AttachesTo(s: State)
    requires s.phase == Outside && s.log == []
    ensures Runs(s, [Subscribe, FirstReplay])
    ensures After(s, [Subscribe, FirstReplay])
            == s.(phase := Head, from := s.sent, next := s.sent, log := [Replay(|s.chunks|)])
  {
    RunsTwo(s, Subscribe, FirstReplay);
    assert [] + [Replay(|s.chunks|)] == [Replay(|s.chunks|)];
  }

  lemma Attaching()
    ensures Runs(START, [Subscribe, FirstReplay])
    ensures After(START, [Subscribe, FirstReplay]) == START.(phase := Head, log := [Replay(0)])
    ensures Forwarded([Replay(0)]) == []
  {
    hide Runs, After, Forwarded;
    AttachesTo(START);
    NothingSent();
    ForwardedSnoc([], Replay(0));
    assert [] + [Replay(0)] == [Replay(0)];
  }

  lemma Dying(s: State)
    requires s.alive && s.phase == Head && s.sent == |s.chunks|
    ensures Runs(s, [Die, Look]) && After(s, [Die, Look]) == s.(alive := false, phase := Draining)
  {
    RunsTwo(s, Die, Look);
  }

  lemma Finishing(s: State)
    requires s.phase == Draining && !s.alive && (s.next >= s.sent || Lagged(s))
    ensures Runs(s, [Finish])
    ensures After(s, [Finish]) == s.(phase := Over, log := s.log + [Exit, Close])
    ensures Forwarded(s.log + [Exit, Close]) == Forwarded(s.log)
  {
    var t := Do(s, Finish);
    assert Runs(t, []) && After(t, []) == t && [Finish] + [] == [Finish];
    RunsCons(s, Finish, []);
    ForwardedQuiet(s.log, [Exit, Close]);
  }

  /** From the drain, how a client comes to be told. */
  lemma {:induction false} ToldFromDraining(s: State) returns (more: seq<Step>)
    requires s.phase == Draining && !s.alive
    ensures Runs(s, more) && After(s, more).phase == Over
    ensures var log := After(s, more).log; |log| >= 2 && log[|log| - 2..] == [Exit, Close]
    decreases s.sent - s.next
  {
    if s.next >= s.sent || Lagged(s) {
      Finishing(s);
      more := [Finish];
    } else {
      var rest := ToldFromDraining(Do(s, Drain));
      RunsCons(s, Drain, rest);
      more := [Drain] + rest;
    }
  }

  lemma ToldFromHead(s: State) returns (more: seq<Step>)
    requires s.phase == Head && !s.alive
    ensures Runs(s, more) && After(s, more).phase == Over
    ensures var log := After(s, more).log; |log| >= 2 && log[|log| - 2..] == [Exit, Close]
  {
    var rest := ToldFromDraining(Do(s, Look));
    RunsCons(s, Look, rest);
    more := [Look] + rest;
  }

  lemma ToldFromSelect(s: State) returns (more: seq<Step>)
    requires Ring(s) && s.phase == Select && !s.alive
    ensures Runs(s, more) && After(s, more).phase == Over
    ensures var log := After(s, more).log; |log| >= 2 && log[|log| - 2..] == [Exit, Close]
  {
    hide M.Scan, HeardAll, Painted;
    var a := if s.next < s.sent then Recv else Notice;
    var t := Do(s, a);
    if t.phase == Head {
      var rest := ToldFromHead(t);
      RunsCons(s, a, rest);
      more := [a] + rest;
    } else {
      var rest := ToldFromHead(Do(t, Resync));
      RunsCons(t, Resync, rest);
      RunsCons(s, a, [Resync] + rest);
      more := [a] + ([Resync] + rest);
    }
  }

  lemma ToldFromLagging(s: State) returns (more: seq<Step>)
    requires s.phase == Lagging && !s.alive
    ensures Runs(s, more) && After(s, more).phase == Over
    ensures var log := After(s, more).log; |log| >= 2 && log[|log| - 2..] == [Exit, Close]
  {
    var rest := ToldFromHead(Do(s, Resync));
    RunsCons(s, Resync, rest);
    more := [Resync] + rest;
  }

  /** How it ends with `more`: the child's exit, and a Close, the last it is sent. */
  ghost predicate EndsWith(s: State, more: seq<Step>) {
    && Runs(s, more) && After(s, more).phase == Over
    && var log := After(s, more).log; |log| >= 2 && log[|log| - 2..] == [Exit, Close]
  }

  /** In every run: wherever a client is when the child is dead, on its way to the next
      chunk, idle, or found lagging, it can be told. */
  lemma ExitCanBeTold(run: seq<Step>)
    requires Runs(START, run)
    requires var s := After(START, run); !s.alive && s.phase in {Head, Select, Lagging, Draining}
    ensures exists more :: EndsWith(After(START, run), more)
  {
    hide Runs, After, Sound, Ring;
    StartKeeps();
    RunKeeps(START, run);
    var s := After(START, run);
    var more;
    if s.phase == Head {
      more := ToldFromHead(s);
    } else if s.phase == Select {
      more := ToldFromSelect(s);
    } else if s.phase == Draining {
      more := ToldFromDraining(s);
    } else {
      more := ToldFromLagging(s);
    }
    assert EndsWith(s, more);
  }

  /** A client that has hung up, or that has been told, is sent nothing more. */
  lemma {:induction false} NothingAfterwards(s: State, run: seq<Step>)
    requires s.phase in {Gone, Over} && Runs(s, run)
    ensures After(s, run).log == s.log && After(s, run).phase == s.phase
    decreases |run|
  {
    if run != [] {
      hide M.Scan, HeardAll;
      NothingAfterwards(Do(s, run[0]), run[1..]);
    }
  }

  /** And a client may hang up at any time until it is told. */
  lemma HangingUpEnds(s: State, run: seq<Step>)
    requires s.phase !in {Outside, Over}
    ensures Can(s, Hangup) && (Runs(Do(s, Hangup), run) ==> After(Do(s, Hangup), run).log == s.log)
  {
    if Runs(Do(s, Hangup), run) { NothingAfterwards(Do(s, Hangup), run); }
  }

  /** A client can still attach when the child is dead: it is painted the last of the
      screen, and told. */
  lemma LateIsTold(run: seq<Step>)
    requires Runs(START, run)
    requires var s := After(START, run); !s.alive && s.phase == Outside
    ensures var s := After(START, run); var more := [Subscribe, FirstReplay, Look, Finish];
            && Runs(s, more) && After(s, more).log == [Replay(Reads(run)), Exit, Close] && After(s, more).phase == Over
  {
    OutsideIsSilent(run);
    RunCounts(START, run);
    var s := After(START, run);
    hide Runs, After;
    var t := s.(phase := Head, from := s.sent, next := s.sent, log := [Replay(|s.chunks|)]);
    AttachesTo(s);
    RunsTwo(t, Look, Finish);
    assert [Replay(|s.chunks|)] + [Exit, Close] == [Replay(|s.chunks|), Exit, Close];
    hide Can, Do;
    RunsConcat(s, [Subscribe, FirstReplay], [Look, Finish]);
    assert [Subscribe, FirstReplay] + [Look, Finish] == [Subscribe, FirstReplay, Look, Finish];
  }
}
