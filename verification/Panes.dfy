/** Several panes on one websocket (devpipe/src/serve.rs): the control messages
    that open and close them, and the pumps that carry each session's frames,
    renumbered, onto the one outgoing queue. */
module Panes {
  import opened Basics
  import W = Wire

  const CONTROL: W.u32 := 0

  /** `Opened` names the session, which is to say the pump that will carry it. */
  datatype Said = Opened(channel: W.u32, pump: nat) | Closed(channel: W.u32) | Unavailable(channel: W.u32) | Other

  /** One entry of the outgoing queue, and which pump put it there. */
  datatype Out = Control(said: Said) | Carried(pump: nat, frame: W.Frame)

  /** A pump that has been aborted may still be running: it stops the next time
      it would wait. */
  datatype Phase = Running | Ended | Aborting | Aborted

  /** `frames` is everything its keeper ever sends; `held` is whether the client
      still has the pane open. */
  datatype Pump = Pump(channel: W.u32, frames: seq<W.Frame>, pos: nat, phase: Phase, held: bool)

  datatype State = State(panes: map<W.u32, nat>, pumps: seq<Pump>, out: seq<Out>)

  const START := State(map[], [], [])

  datatype Step =
    | Open(channel: W.u32, frames: seq<W.Frame>)
    | LetGo(channel: W.u32, told: bool)   // Close on the control channel is answered, on the pane it is not
    | Say                                 // anything else on the control channel
    | Forward(p: nat) | Eof(p: nat) | Stop(p: nat)

  predicate Live(x: Pump) { x.phase == Running || x.phase == Aborting }

  predicate Can(s: State, a: Step) {
    match a
    case Forward(p) => p < |s.pumps| && Live(s.pumps[p]) && s.pumps[p].pos < |s.pumps[p].frames|
    case Eof(p) => p < |s.pumps| && Live(s.pumps[p]) && s.pumps[p].pos >= |s.pumps[p].frames|
    case Stop(p) => p < |s.pumps| && s.pumps[p].phase == Aborting
    case _ => true
  }

  predicate Free(s: State, c: W.u32) { c != CONTROL && c !in s.panes }

  function Do(s: State, a: Step): State
    requires Can(s, a)
  {
    match a
    case Open(c, frames) =>
      if !Free(s, c) then s.(out := s.out + [Control(Unavailable(c))])
      else s.(panes := s.panes[c := |s.pumps|], pumps := s.pumps + [Pump(c, frames, 0, Running, true)],
              out := s.out + [Control(Opened(c, |s.pumps|))])
    case LetGo(c, told) =>
      var said := if told then [Control(Closed(c))] else [];
      if c !in s.panes || s.panes[c] >= |s.pumps| then s.(out := s.out + said)
      else
        var x := s.pumps[s.panes[c]];
        s.(panes := s.panes - {c}, out := s.out + said,
           pumps := s.pumps[s.panes[c] := x.(held := false, phase := if Live(x) then Aborting else x.phase)])
    case Say => s.(out := s.out + [Control(Other)])
    case Forward(p) =>
      var x := s.pumps[p];
      var f := x.frames[x.pos].(channel := x.channel);
      s.(out := s.out + [Carried(p, f)],
         pumps := s.pumps[p := x.(pos := x.pos + 1, phase := if f.op == W.Close then Ended else x.phase)])
    case Eof(p) =>
      var x := s.pumps[p];
      s.(out := s.out + [Carried(p, W.Frame(x.channel, W.Close, []))], pumps := s.pumps[p := x.(phase := Ended)])
    case Stop(p) => s.(pumps := s.pumps[p := s.pumps[p].(phase := Aborted)])
  }

  predicate Runs(s: State, run: seq<Step>)
    decreases |run|
  {
    run == [] || (Can(s, run[0]) && Runs(Do(s, run[0]), run[1..]))
  }

  function After(s: State, run: seq<Step>): State
    requires Runs(s, run)
    decreases |run|
  {
    if run == [] then s else After(Do(s, run[0]), run[1..])
  }

  // ------------------------------------------------------ what a client sees

  /** The queue as one channel sees it. */
  function OnChannel(out: seq<Out>, c: W.u32): seq<W.Frame> {
    if out == [] then []
    else
      var last := out[|out| - 1];
      OnChannel(out[..|out| - 1], c) + (if last.Carried? && last.frame.channel == c then [last.frame] else [])
  }

  function Renumbered(frames: seq<W.Frame>, c: W.u32): (r: seq<W.Frame>)
    ensures |r| == |frames| && forall i :: 0 <= i < |frames| ==> r[i] == frames[i].(channel := c)
  {
    seq(|frames|, i requires 0 <= i < |frames| => frames[i].(channel := c))
  }

  predicate NoClose(frames: seq<W.Frame>) { forall i :: 0 <= i < |frames| ==> frames[i].op != W.Close }

  /** A session's frames up to its first Close, or all of them and a Close
      supplied: what a pane's whole life looks like. */
  function Lifetime(frames: seq<W.Frame>, c: W.u32): seq<W.Frame> {
    if frames == [] then [W.Frame(c, W.Close, [])]
    else if frames[0].op == W.Close then [frames[0].(channel := c)]
    else [frames[0].(channel := c)] + Lifetime(frames[1..], c)
  }

  /** What one pump put on the queue. */
  function FromPump(out: seq<Out>, p: nat): seq<W.Frame> {
    if out == [] then []
    else
      var last := out[|out| - 1];
      FromPump(out[..|out| - 1], p) + (if last.Carried? && last.pump == p then [last.frame] else [])
  }

  predicate Whole(x: Pump, seen: seq<W.Frame>) {
    && x.pos <= |x.frames|
    && (x.phase != Ended ==> NoClose(x.frames[..x.pos]) && seen == Renumbered(x.frames[..x.pos], x.channel))
    && (x.phase == Ended ==> seen == Lifetime(x.frames, x.channel))
  }

  predicate Tagged(s: State, o: Out) {
    o.Carried? ==> o.pump < |s.pumps| && o.frame.channel == s.pumps[o.pump].channel
  }

  ghost predicate Carrying(s: State) {
    && (forall p :: 0 <= p < |s.pumps| ==> Whole(s.pumps[p], FromPump(s.out, p)))
    && (forall k :: 0 <= k < |s.out| ==> Tagged(s, s.out[k]))
  }

  lemma {:induction false} LifetimeOpen(frames: seq<W.Frame>, c: W.u32, n: nat)
    requires n <= |frames| && NoClose(frames[..n])
    ensures Lifetime(frames, c) == Renumbered(frames[..n], c) + Lifetime(frames[n..], c)
    decreases n
  {
    if n == 0 {
      assert frames[0..] == frames;
    } else {
      assert frames[..n][0] == frames[0];
      assert frames[1..][..n - 1] == frames[..n][1..];
      LifetimeOpen(frames[1..], c, n - 1);
      assert frames[1..][n - 1..] == frames[n..];
      assert Renumbered(frames[..n], c) == [frames[0].(channel := c)] + Renumbered(frames[1..][..n - 1], c);
    }
  }

  lemma FromPumpSnoc(out: seq<Out>, o: Out, p: nat)
    ensures FromPump(out + [o], p)
         == if o.Carried? && o.pump == p then FromPump(out, p) + [o.frame] else FromPump(out, p)
  {
    assert (out + [o])[..|out|] == out;
  }

  lemma ForwardWhole(x: Pump, seen: seq<W.Frame>)
    requires Live(x) && Whole(x, seen) && x.pos < |x.frames|
    ensures var f := x.frames[x.pos].(channel := x.channel);
            Whole(x.(pos := x.pos + 1, phase := if f.op == W.Close then Ended else x.phase), seen + [f])
  {
    var f := x.frames[x.pos].(channel := x.channel);
    assert x.frames[..x.pos + 1] == x.frames[..x.pos] + [x.frames[x.pos]];
    if f.op == W.Close {
      LifetimeOpen(x.frames, x.channel, x.pos);
    } else {
      assert Renumbered(x.frames[..x.pos + 1], x.channel) == seen + [f];
    }
  }

  lemma EofWhole(x: Pump, seen: seq<W.Frame>)
    requires Live(x) && Whole(x, seen) && x.pos >= |x.frames|
    ensures Whole(x.(phase := Ended), seen + [W.Frame(x.channel, W.Close, [])])
  {
    LifetimeOpen(x.frames, x.channel, x.pos);
    assert x.frames[..x.pos] == x.frames && x.frames[x.pos..] == [];
  }

  /** A pump's own send changes what it has sent, and no other pump. */
  lemma SendKeeps(s: State, p: nat, f: W.Frame, x: Pump)
    requires Carrying(s) && p < |s.pumps| && f.channel == x.channel == s.pumps[p].channel
    requires Whole(x, FromPump(s.out, p) + [f])
    ensures Carrying(s.(out := s.out + [Carried(p, f)], pumps := s.pumps[p := x]))
  {
    hide Whole;
    var s' := s.(out := s.out + [Carried(p, f)], pumps := s.pumps[p := x]);
    forall q | 0 <= q < |s'.pumps| ensures Whole(s'.pumps[q], FromPump(s'.out, q)) {
      FromPumpSnoc(s.out, Carried(p, f), q);
    }
    hide FromPump;
    forall k | 0 <= k < |s'.out| ensures Tagged(s', s'.out[k]) {
      if k < |s.out| { assert Tagged(s, s.out[k]); }
    }
  }

  /** Control messages, and pumps only marked, carry nothing. */
  lemma QuietKeeps(s: State, p: nat, x: Pump, said: seq<Out>)
    requires Carrying(s) && p < |s.pumps| && |said| <= 1 && (forall k :: 0 <= k < |said| ==> said[k].Control?)
    requires x.channel == s.pumps[p].channel && x.frames == s.pumps[p].frames && x.pos == s.pumps[p].pos
    requires x.phase == Ended <==> s.pumps[p].phase == Ended
    ensures Carrying(s.(out := s.out + said, pumps := s.pumps[p := x]))
  {
    SaidKeeps(s, said);
    var quiet := s.(out := s.out + said);
    var s' := quiet.(pumps := s.pumps[p := x]);
    hide FromPump, Lifetime, Renumbered, NoClose;
    forall q | 0 <= q < |s'.pumps| ensures Whole(s'.pumps[q], FromPump(s'.out, q)) {
      assert Whole(quiet.pumps[q], FromPump(quiet.out, q));
    }
    hide Whole;
    forall k | 0 <= k < |s'.out| ensures Tagged(s', s'.out[k]) { assert Tagged(quiet, quiet.out[k]); }
  }

  lemma SaidKeeps(s: State, said: seq<Out>)
    requires Carrying(s) && |said| <= 1 && (forall k :: 0 <= k < |said| ==> said[k].Control?)
    ensures Carrying(s.(out := s.out + said))
  {
    hide Whole;
    forall p: nat ensures FromPump(s.out + said, p) == FromPump(s.out, p) {
      if said == [] {
        assert s.out + said == s.out;
      } else {
        assert said == [said[0]];
        FromPumpSnoc(s.out, said[0], p);
      }
    }
  }

  lemma {:induction false} NothingYet(out: seq<Out>, p: nat)
    requires forall k :: 0 <= k < |out| && out[k].Carried? ==> out[k].pump != p
    ensures FromPump(out, p) == []
  {
    if out != [] { NothingYet(out[..|out| - 1], p); }
  }

  lemma OpenKeeps(s: State, c: W.u32, frames: seq<W.Frame>)
    requires Carrying(s)
    ensures Carrying(s.(panes := s.panes[c := |s.pumps|], pumps := s.pumps + [Pump(c, frames, 0, Running, true)],
                        out := s.out + [Control(Opened(c, |s.pumps|))]))
  {
    var x := Pump(c, frames, 0, Running, true);
    var out := s.out + [Control(Opened(c, |s.pumps|))];
    SaidKeeps(s, [Control(Opened(c, |s.pumps|))]);
    assert forall k :: 0 <= k < |s.out| ==> Tagged(s, s.out[k]);
    NothingYet(out, |s.pumps|);
    assert Whole(x, []);
    hide FromPump, Whole;
  }

  lemma StepKeeps(s: State, a: Step)
    requires Carrying(s) && Can(s, a)
    ensures Carrying(Do(s, a))
  {
    hide Carrying, Lifetime, Whole;
    match a
    case Open(c, frames) =>
      if Free(s, c) { OpenKeeps(s, c, frames); } else { SaidKeeps(s, [Control(Unavailable(c))]); }
    case LetGo(c, told) =>
      var said := if told then [Control(Closed(c))] else [];
      if c !in s.panes || s.panes[c] >= |s.pumps| {
        SaidKeeps(s, said);
      } else {
        var p := s.panes[c];
        QuietKeeps(s, p, Do(s, a).pumps[p], said);
        PanesElsewhere(s.(out := s.out + said, pumps := Do(s, a).pumps), s.panes - {c});
      }
    case Say => SaidKeeps(s, [Control(Other)]);
    case Forward(p) => ForwardKeeps(s, p);
    case Eof(p) => EofKeeps(s, p);
    case Stop(p) =>
      QuietKeeps(s, p, Do(s, a).pumps[p], []);
      assert s.out + [] == s.out;
  }

  lemma PanesElsewhere(s: State, panes: map<W.u32, nat>)
    requires Carrying(s)
    ensures Carrying(s.(panes := panes))
  {
    hide Whole, FromPump;
  }

  lemma ForwardKeeps(s: State, p: nat)
    requires Carrying(s) && Can(s, Forward(p))
    ensures Carrying(Do(s, Forward(p)))
  {
    hide Whole;
    var x := s.pumps[p];
    ForwardWhole(x, FromPump(s.out, p));
    SendKeeps(s, p, x.frames[x.pos].(channel := x.channel), Do(s, Forward(p)).pumps[p]);
  }

  lemma EofKeeps(s: State, p: nat)
    requires Carrying(s) && Can(s, Eof(p))
    ensures Carrying(Do(s, Eof(p)))
  {
    hide Whole;
    var x := s.pumps[p];
    EofWhole(x, FromPump(s.out, p));
    SendKeeps(s, p, W.Frame(x.channel, W.Close, []), Do(s, Eof(p)).pumps[p]);
  }

  lemma {:induction false} RunKeeps(s: State, run: seq<Step>)
    requires Carrying(s) && Runs(s, run)
    ensures Carrying(After(s, run))
    decreases |run|
  {
    hide Carrying, Can, Do;
    if run != [] {
      StepKeeps(s, run[0]);
      RunKeeps(Do(s, run[0]), run[1..]);
    }
  }

  /** However the pumps interleave, and however often numbers are used again: each
      pump has sent its own session's frames, renumbered, and nothing else, up to
      the first Close, or all of them and one Close supplied once it has ended; and
      a channel carries nothing but what was sent by the pumps opened on it. */
  lemma PumpIsItsSession(run: seq<Step>, p: nat)
    requires Runs(START, run) && p < |After(START, run).pumps|
    ensures var s := After(START, run); var x := s.pumps[p]; var seen := FromPump(s.out, p);
            && seen <= Lifetime(x.frames, x.channel)
            && (x.phase == Ended ==> seen == Lifetime(x.frames, x.channel))
            && (x.phase != Ended ==> NoClose(seen))
            && forall k :: 0 <= k < |s.out| && s.out[k].Carried? ==>
                 s.out[k].pump < |s.pumps| && s.out[k].frame.channel == s.pumps[s.out[k].pump].channel
  {
    assert Carrying(START);
    RunKeeps(START, run);
    var s := After(START, run);
    hide Runs, After, FromPump;
    var x := s.pumps[p];
    assert Whole(x, FromPump(s.out, p));
    if x.phase != Ended { LifetimeOpen(x.frames, x.channel, x.pos); }
    assert forall k :: 0 <= k < |s.out| ==> Tagged(s, s.out[k]);
  }

  /** No other pump was ever opened on this one's channel. */
  ghost predicate Alone(s: State, p: nat)
    requires p < |s.pumps|
  {
    forall q :: 0 <= q < |s.pumps| && q != p ==> s.pumps[q].channel != s.pumps[p].channel
  }

  lemma {:induction false} AloneIsPump(s: State, out: seq<Out>, p: nat)
    requires p < |s.pumps| && Alone(s, p) && forall k :: 0 <= k < |out| ==> Tagged(s, out[k])
    ensures OnChannel(out, s.pumps[p].channel) == FromPump(out, p)
    decreases |out|
  {
    if out != [] {
      AloneIsPump(s, out[..|out| - 1], p);
      assert Tagged(s, out[|out| - 1]);
    }
  }

  /** A channel opened once shows that session and nothing else. */
  lemma ChannelIsItsSession(run: seq<Step>, p: nat)
    requires Runs(START, run) && p < |After(START, run).pumps| && Alone(After(START, run), p)
    ensures var s := After(START, run); var x := s.pumps[p]; var seen := OnChannel(s.out, x.channel);
            && seen <= Lifetime(x.frames, x.channel)
            && (x.phase == Ended ==> seen == Lifetime(x.frames, x.channel))
            && (x.phase != Ended ==> NoClose(seen))
  {
    PumpIsItsSession(run, p);
    var s := After(START, run);
    hide Runs, After;
    AloneIsPump(s, s.out, p);
  }

  // ------------------------------------------------------ a number used again

  /** A pump that has ended, or has stopped, sends nothing more. */
  lemma {:induction false} StoppedIsSilent(s: State, run: seq<Step>, p: nat)
    requires p < |s.pumps| && !Live(s.pumps[p]) && Runs(s, run)
    ensures FromPump(After(s, run).out, p) == FromPump(s.out, p)
    decreases |run|
  {
    if run != [] {
      var s' := Do(s, run[0]);
      StoppedStep(s, run[0], p);
      hide FromPump, Can, Do;
      StoppedIsSilent(s', run[1..], p);
    }
  }

  /** A step queues one entry at most, and a frame only from a pump that is live. */
  lemma OutGrows(s: State, a: Step)
    requires Can(s, a)
    ensures var out := Do(s, a).out;
            || out == s.out
            || (|out| == |s.out| + 1 && out[..|s.out|] == s.out
                && var o := out[|s.out|]; o.Carried? ==> o.pump < |s.pumps| && Live(s.pumps[o.pump]))
  {}

  lemma StaysStopped(s: State, a: Step, p: nat)
    requires p < |s.pumps| && !Live(s.pumps[p]) && Can(s, a)
    ensures var s' := Do(s, a); p < |s'.pumps| && !Live(s'.pumps[p])
  {}

  lemma StoppedStep(s: State, a: Step, p: nat)
    requires p < |s.pumps| && !Live(s.pumps[p]) && Can(s, a)
    ensures var s' := Do(s, a); p < |s'.pumps| && !Live(s'.pumps[p]) && FromPump(s'.out, p) == FromPump(s.out, p)
  {
    OutGrows(s, a);
    StaysStopped(s, a, p);
    hide Do, Can, FromPump;
    var out := Do(s, a).out;
    if out != s.out {
      assert out == s.out + [out[|s.out|]];
      FromPumpSnoc(s.out, out[|s.out|], p);
    }
  }

  lemma SendsNext(s: State, p: nat)
    requires p < |s.pumps| && Live(s.pumps[p])
    ensures exists run :: Runs(s, run) && FromPump(After(s, run).out, p) != FromPump(s.out, p)
  {
    var x := s.pumps[p];
    var a := if x.pos < |x.frames| then Forward(p) else Eof(p);
    var s' := Do(s, a);
    var o := s'.out[|s.out|];
    assert s'.out == s.out + [o] && o.Carried? && o.pump == p;
    FromPumpSnoc(s.out, o, p);
    hide FromPump, Do, Can;
    assert |FromPump(s'.out, p)| == |FromPump(s.out, p)| + 1;
    assert [a][1..] == [] && Runs(s', []) && After(s', []) == s';
    assert Can(s, a) && Runs(s, [a]) && After(s, [a]) == s';
  }

  /** So a number that is used again can still receive from the pane let go there
      exactly while that pane's pump has neither ended nor stopped. */
  lemma ReceivesIffLive(s: State, p: nat)
    requires p < |s.pumps|
    ensures Live(s.pumps[p]) <==> exists run :: Runs(s, run) && FromPump(After(s, run).out, p) != FromPump(s.out, p)
  {
    if Live(s.pumps[p]) {
      SendsNext(s, p);
    } else {
      forall run | Runs(s, run) ensures FromPump(After(s, run).out, p) == FromPump(s.out, p) {
        StoppedIsSilent(s, run, p);
      }
    }
  }

  lemma RunsTwo(s: State, a: Step, b: Step)
    requires Can(s, a) && Can(Do(s, a), b)
    ensures Runs(s, [a, b]) && After(s, [a, b]) == Do(Do(s, a), b)
  {
    hide Can, Do;
    var s2 := Do(Do(s, a), b);
    assert [a, b][1..] == [b] && [b][1..] == [];
    assert Runs(s2, []) && After(s2, []) == s2;
    assert Runs(Do(s, a), [b]) && After(Do(s, a), [b]) == s2;
  }

  /** It does happen: a number let go and opened again, to which the first session
      then speaks. */
  lemma StrayFrame(payload: seq<byte>)
    ensures var stray := W.Frame(1, W.Data, payload);
            var s := Do(START, Open(1, [stray]));
            && Runs(s, [LetGo(1, true), Open(1, [])])
            && var t := After(s, [LetGo(1, true), Open(1, [])]);
            && t.panes == map[1 := 1] && Can(t, Forward(0))
            && Do(t, Forward(0)).out
               == [Control(Opened(1, 0)), Control(Closed(1)), Control(Opened(1, 1)), Carried(0, stray)]
  {
    var stray := W.Frame(1, W.Data, payload);
    var s := Do(START, Open(1, [stray]));
    RunsTwo(s, LetGo(1, true), Open(1, []));
    hide Runs, After;
    assert [] + [Control(Opened(1, 0))] + [Control(Closed(1))] + [Control(Opened(1, 1))] + [Carried(0, stray)]
        == [Control(Opened(1, 0)), Control(Closed(1)), Control(Opened(1, 1)), Carried(0, stray)];
  }

  // ----------------------------------------------------------- after Opened

  ghost predicate Announced(s: State) {
    && (forall k :: 0 <= k < |s.out| && s.out[k].Carried? ==>
          Control(Opened(s.out[k].frame.channel, s.out[k].pump)) in s.out[..k])
    && (forall p :: 0 <= p < |s.pumps| ==> Control(Opened(s.pumps[p].channel, p)) in s.out)
  }

  lemma AnnouncedKept(s: State, a: Step)
    requires Announced(s) && Can(s, a)
    ensures Announced(Do(s, a))
  {
    var s' := Do(s, a);
    forall k | 0 <= k < |s'.out| && s'.out[k].Carried?
      ensures Control(Opened(s'.out[k].frame.channel, s'.out[k].pump)) in s'.out[..k]
    {
      if k < |s.out| {
        assert s'.out[..k] == s.out[..k] && s'.out[k] == s.out[k];
      } else {
        assert s'.out[..k] == s.out;
      }
    }
  }

  lemma {:induction false} RunAnnounces(s: State, run: seq<Step>)
    requires Announced(s) && Runs(s, run)
    ensures Announced(After(s, run))
    decreases |run|
  {
    hide Announced, Can, Do;
    if run != [] {
      AnnouncedKept(s, run[0]);
      RunAnnounces(Do(s, run[0]), run[1..]);
    }
  }

  /** A client has been told of the very session, on that channel, before any frame of
      it arrives, however often the number was used before. */
  lemma OpenedFirst(run: seq<Step>, k: nat)
    requires Runs(START, run) && k < |After(START, run).out| && After(START, run).out[k].Carried?
    ensures var out := After(START, run).out; Control(Opened(out[k].frame.channel, out[k].pump)) in out[..k]
  {
    RunAnnounces(START, run);
  }

  // ---------------------------------------------------- when a number is free

  ghost predicate Held(s: State) {
    && (forall c: W.u32 :: c in s.panes ==>
          s.panes[c] < |s.pumps| && s.pumps[s.panes[c]].channel == c && s.pumps[s.panes[c]].held)
    && (forall p :: 0 <= p < |s.pumps| && s.pumps[p].held ==>
          s.pumps[p].channel in s.panes && s.panes[s.pumps[p].channel] == p)
  }

  lemma HeldKept(s: State, a: Step)
    requires Held(s) && Can(s, a)
    ensures Held(Do(s, a))
  {
    match a
    case Open(_, _) => HeldOpen(s, a);
    case LetGo(_, _) => HeldLetGo(s, a);
    case Say =>
    case Forward(p) => HeldSame(s, Do(s, a), p);
    case Eof(p) => HeldSame(s, Do(s, a), p);
    case Stop(p) => HeldSame(s, Do(s, a), p);
  }

  lemma HeldOpen(s: State, a: Step)
    requires Held(s) && a.Open?
    ensures Held(Do(s, a))
  {}

  lemma HeldLetGo(s: State, a: Step)
    requires Held(s) && a.LetGo?
    ensures Held(Do(s, a))
  {}

  lemma HeldSame(s: State, s': State, p: nat)
    requires Held(s) && p < |s.pumps| == |s'.pumps| && s'.panes == s.panes && s'.pumps == s.pumps[p := s'.pumps[p]]
    requires s'.pumps[p].channel == s.pumps[p].channel && s'.pumps[p].held == s.pumps[p].held
    ensures Held(s')
  {}

  lemma {:induction false} RunHolds(s: State, run: seq<Step>)
    requires Held(s) && Runs(s, run)
    ensures Held(After(s, run))
    decreases |run|
  {
    hide Held, Can, Do;
    if run != [] {
      HeldKept(s, run[0]);
      RunHolds(Do(s, run[0]), run[1..]);
    }
  }

  /** A pane that has sent its Close is over, but its channel number is not free
      again, whatever the wire's own documentation says: opening it anew succeeds
      exactly when the client has itself let go of every pane it had there. */
  lemma NumberIsFreeWhenLetGo(run: seq<Step>, c: W.u32, frames: seq<W.Frame>)
    requires Runs(START, run) && c != CONTROL
    ensures var s := After(START, run);
            |Do(s, Open(c, frames)).pumps| > |s.pumps|
            <==> forall p :: 0 <= p < |s.pumps| && s.pumps[p].channel == c ==> !s.pumps[p].held
  {
    RunHolds(START, run);
  }

  /** A pane that has sent its Close, on a number that cannot be opened. */
  lemma ClosedIsNotFree(frames: seq<W.Frame>)
    ensures var close := W.Frame(1, W.Close, []);
            && Runs(START, [Open(1, [close]), Forward(0)])
            && var s := After(START, [Open(1, [close]), Forward(0)]);
            && OnChannel(s.out, 1) == [close] && s.pumps[0].phase == Ended
            && Do(s, Open(1, frames)) == s.(out := s.out + [Control(Unavailable(1))])
  {
    var close := W.Frame(1, W.Close, []);
    RunsTwo(START, Open(1, [close]), Forward(0));
    OneCarried(Control(Opened(1, 0)), Carried(0, close));
    hide OnChannel, Runs, After;
    assert [] + [Control(Opened(1, 0))] + [Carried(0, close)] == [Control(Opened(1, 0)), Carried(0, close)];
  }

  lemma OneCarried(first: Out, second: Out)
    requires first.Control? && second.Carried?
    ensures OnChannel([first, second], second.frame.channel) == [second.frame]
  {
    var c := second.frame.channel;
    assert [first, second][..1] == [first] && [first][..0] == [];
    assert OnChannel([first], c) == OnChannel([], c) + [];
  }

  // ------------------------------------------------------------ letting go

  /** A client that lets a pane go is told so if it asked on the control channel, whether
      it had the pane or not; the pane's pump, if it still runs, can be stopped from then
      on, and once it is, sends nothing more. */
  lemma LettingGoStops(run: seq<Step>, c: W.u32, told: bool, after: seq<Step>)
    requires Runs(START, run)
    ensures var s := After(START, run); var t := Do(s, LetGo(c, told));
            && t.out == s.out + (if told then [Control(Closed(c))] else []) && t.panes == s.panes - {c}
            && (c in s.panes && Live(s.pumps[s.panes[c]]) ==>
                  var p := s.panes[c];
                  && Can(t, Stop(p))
                  && (Runs(Do(t, Stop(p)), after) ==>
                        FromPump(After(Do(t, Stop(p)), after).out, p) == FromPump(t.out, p)))
  {
    RunHolds(START, run);
    hide FromPump, Runs, After;
    var s := After(START, run);
    var t := Do(s, LetGo(c, told));
    if c in s.panes && Live(s.pumps[s.panes[c]]) && Runs(Do(t, Stop(s.panes[c])), after) {
      StoppedIsSilent(Do(t, Stop(s.panes[c])), after, s.panes[c]);
    }
  }

  /** Nothing but a client's letting go stops a pump. */
  predicate Unstopped(s: State, p: nat) {
    p < |s.pumps| && s.pumps[p].phase in {Running, Ended} && (s.pumps[p].held || s.pumps[p].phase == Ended)
  }

  lemma {:induction false} StoppedOnlyIfLetGo(s: State, p: nat, run: seq<Step>)
    requires Held(s) && Unstopped(s, p) && Runs(s, run)
    requires forall k :: 0 <= k < |run| ==> run[k] != LetGo(s.pumps[p].channel, true)
                                            && run[k] != LetGo(s.pumps[p].channel, false)
    ensures Unstopped(After(s, run), p)
    decreases |run|
  {
    if run != [] {
      HeldKept(s, run[0]);
      StillUnstopped(s, p, run[0]);
      var t := Do(s, run[0]);
      assert forall k :: 0 <= k < |run[1..]| ==> run[1..][k] == run[k + 1];
      hide Held, Unstopped, Can, Do;
      StoppedOnlyIfLetGo(t, p, run[1..]);
    }
  }

  lemma StillUnstopped(s: State, p: nat, a: Step)
    requires Held(s) && Unstopped(s, p) && Can(s, a)
    requires a != LetGo(s.pumps[p].channel, true) && a != LetGo(s.pumps[p].channel, false)
    ensures Unstopped(Do(s, a), p) && Do(s, a).pumps[p].channel == s.pumps[p].channel
  {
    if a.LetGo? && a.channel in s.panes { assert s.panes[a.channel] != p; }
  }

  /** Channel zero is the connection's own: it cannot be opened, and no session ever speaks
      on it. */
  lemma ControlIsNotAPane(run: seq<Step>, frames: seq<W.Frame>)
    requires Runs(START, run)
    ensures var s := After(START, run);
            && Do(s, Open(0, frames)) == s.(out := s.out + [Control(Unavailable(0))])
            && forall k :: 0 <= k < |s.out| && s.out[k].Carried? ==> s.out[k].frame.channel != 0
  {
    RunNumbers(START, run);
  }

  predicate Numbered(s: State) {
    && (forall p :: 0 <= p < |s.pumps| ==> s.pumps[p].channel != 0)
    && (forall k :: 0 <= k < |s.out| && s.out[k].Carried? ==> s.out[k].frame.channel != 0)
  }

  lemma {:induction false} RunNumbers(s: State, run: seq<Step>)
    requires Numbered(s) && Runs(s, run)
    ensures Numbered(After(s, run))
    decreases |run|
  {
    if run != [] {
      NumberedKept(s, run[0]);
      hide Numbered, Can, Do;
      RunNumbers(Do(s, run[0]), run[1..]);
    }
  }

  lemma NumberedKept(s: State, a: Step)
    requires Numbered(s) && Can(s, a)
    ensures Numbered(Do(s, a))
  {}
}
