/** What is typed into a session (devpipe/src/session.rs): a queue the clients
    append to, a thread that empties it into the pty by partial writes, and the
    waker that stops the thread sleeping on input it has not seen. */
module Pump {
  import opened Basics

  // ------------------------------------------------------- emptying the queue

  /** What the pty says to one write. */
  datatype Answer = Took(n: nat) | WouldBlock | Failed

  /** One turn round the drain loop: how much of the queue is contiguous, and
      what the pty makes of that much. */
  datatype Turn = Turn(front: nat, answer: Answer)

  /** The queue is a ring, so only a front part of it can be offered at once; a
      pty takes at most what it is offered. */
  predicate Possible(t: Turn, pending: nat) {
    && (pending > 0 ==> 0 < t.front <= pending) && (t.answer.Took? ==> t.answer.n <= t.front)
  }

  /** The pty and the ring together: what they do on the `k`-th turn of a drain
      with so many bytes pending. */
  type Pty = (nat, nat) -> Turn

  ghost predicate Sane(ask: Pty) { forall k, n :: Possible(ask(k, n), n) }

  /** How many bytes a drain gets rid of, from its `k`-th turn on, and whether it
      ended in an error: it stops when nothing is left, when the pty will take no
      more, or when it fails. */
  function Taken(ask: Pty, k: nat, pending: nat): (nat, bool)
    decreases pending
  {
    if pending == 0 then (0, false) else
    match ask(k, pending).answer
    case WouldBlock => (0, false)
    case Failed => (0, true)
    case Took(n) =>
      if n == 0 || n > pending then (0, false)
      else var (more, broken) := Taken(ask, k + 1, pending - n); (n + more, broken)
  }

  class Input {
    var pending: seq<byte>
    var accepted: seq<byte>

    constructor ()
      ensures pending == [] && accepted == []
    {
      pending := [];
      accepted := [];
    }

    method Write(bytes: seq<byte>)
      modifies this
      ensures pending == old(pending) + bytes && accepted == old(accepted)
    {
      if bytes == [] {
        return;
      }
      pending := pending + bytes;
    }

    /** The writable arm. */
    method Drain(ask: Pty) returns (broken: bool)
      requires Sane(ask)
      modifies this
      ensures var (n, failed) := Taken(ask, 0, |old(pending)|);
              && n <= |old(pending)| && broken == failed
              && accepted == old(accepted) + old(pending)[..n] && pending == old(pending)[n..]
    {
      broken := false;
      var k := 0;
      ghost var done := 0;
      while pending != []
        invariant 0 <= done <= |old(pending)| && !broken
        invariant pending == old(pending)[done..] && accepted == old(accepted) + old(pending)[..done]
        invariant Taken(ask, 0, |old(pending)|) == (done + Taken(ask, k, |pending|).0, Taken(ask, k, |pending|).1)
        decreases |pending|
      {
        var turn := ask(k, |pending|);
        assert Possible(turn, |pending|);
        var chunk := pending[..turn.front];
        match turn.answer
        case WouldBlock => return;
        case Failed => return true;
        case Took(n) =>
          if n == 0 {
            return;
          }
          assert old(pending)[..done + n] == old(pending)[..done] + chunk[..n];
          accepted := accepted + chunk[..n];
          pending := pending[n..];
          done := done + n;
        k := k + 1;
      }
    }
  }

  // ------------------------------------------------------------- the two sides

  /** Where the pty thread is: about to ask whether to stop, about to look at the
      queue, asleep in its poll (asking for writability or not), or acting on what
      the poll said. */
  datatype Thread = Top | Told | Asleep(want: bool) | Awake(writable: bool) | Dead

  /** `ringing` counts writers, and killers, that have changed something the
      thread looks at and not yet rung the waker; `bell` is a byte in its pipe. */
  datatype State = State(written: seq<byte>, pending: seq<byte>, accepted: seq<byte>,
                         ringing: nat, bell: bool, shutdown: bool, thread: Thread)

  const START := State([], [], [], 0, false, false, Top)

  datatype Step =
    | Append(bytes: seq<byte>) | Kill | Ring
    | Check | Look | Return(readable: bool, writable: bool) | Take(n: nat) | Done | Break

  predicate Can(s: State, a: Step) {
    match a
    case Append(bytes) => bytes != []
    case Kill => true
    case Ring => s.ringing > 0
    case Check => s.thread == Top
    case Look => s.thread == Told
    case Return(readable, writable) =>
      s.thread.Asleep? && (writable ==> s.thread.want) && (readable || writable || s.bell)
    case Take(n) => s.thread == Awake(true) && 0 < n <= |s.pending|
    case Done => s.thread.Awake?
    case Break => s.thread.Awake?
  }

  function Do(s: State, a: Step): State
    requires Can(s, a)
  {
    match a
    case Append(bytes) => s.(written := s.written + bytes, pending := s.pending + bytes, ringing := s.ringing + 1)
    case Kill => s.(shutdown := true, ringing := s.ringing + 1)
    case Ring => s.(ringing := s.ringing - 1, bell := true)
    case Check => s.(thread := if s.shutdown then Dead else Told)
    case Look => s.(thread := Asleep(s.pending != []))
    case Return(readable, writable) => s.(thread := Awake(writable), bell := false)
    case Take(n) => s.(accepted := s.accepted + s.pending[..n], pending := s.pending[n..])
    case Done => s.(thread := Top)
    case Break => s.(thread := Dead)
  }

  predicate Runs(s: State, run: seq<Step>)
    decreases |run|
  {
    run == [] || (Can(s, run[0]) && Runs(Do(s, run[0]), run[1..]))
  }

  function After(s: State, run: seq<Step>): State
    requires Runs(s, run)
    decreases |run|
  {
    if run == [] then s else After(Do(s, run[0]), run[1..])
  }

  predicate Conserved(s: State) { s.accepted + s.pending == s.written }

  /** The thread is asleep to something it should see only while it is being, or
      is about to be, woken. */
  predicate Woken(s: State) {
    && (s.thread == Asleep(false) && s.pending != [] ==> s.bell || s.ringing > 0)
    && ((s.thread.Told? || s.thread.Asleep?) && s.shutdown ==> s.bell || s.ringing > 0)
  }

  lemma {:induction false} RunKeeps(s: State, run: seq<Step>)
    requires Conserved(s) && Woken(s) && Runs(s, run)
    ensures Conserved(After(s, run)) && Woken(After(s, run))
    decreases |run|
  {
    if run != [] {
      StepKeeps(s, run[0]);
      RunKeeps(Do(s, run[0]), run[1..]);
    }
  }

  lemma StepKeeps(s: State, a: Step)
    requires Conserved(s) && Woken(s) && Can(s, a)
    ensures Conserved(Do(s, a)) && Woken(Do(s, a))
  {
    if a.Append? {
      assert s.accepted + (s.pending + a.bytes) == s.accepted + s.pending + a.bytes;
    } else if a.Take? {
      assert s.pending == s.pending[..a.n] + s.pending[a.n..];
      assert s.accepted + s.pending[..a.n] + s.pending[a.n..] == s.accepted + s.pending;
    }
  }

  /** In every interleaving of any number of writers with the thread: what the
      pty has accepted, followed by what is queued, is everything written, in the
      order it was written. */
  lemma InputIsConserved(run: seq<Step>)
    requires Runs(START, run)
    ensures var s := After(START, run); s.accepted + s.pending == s.written
  {
    RunKeeps(START, run);
  }

  /** Input is never slept on. With some queued, the thread's poll can return at
      once, or will as soon as the pty has room, or a writer is about to ring; and
      a thread told to stop is woken whatever the pty does. */
  lemma NeverSleepsOnInput(run: seq<Step>)
    requires Runs(START, run) && After(START, run).thread.Asleep?
    ensures var s := After(START, run);
            && (s.pending != [] ==> Can(s, Ring) || Can(s, Return(false, false)) || Can(s, Return(false, true)))
            && (s.shutdown ==> Can(s, Ring) || Can(s, Return(false, false)))
  {
    RunKeeps(START, run);
  }

  // ----------------------------------------------- the drain among the steps

  /** The partial writes of one drain, as steps. */
  function Takes(ask: Pty, k: nat, pending: nat): seq<Step>
    decreases pending
  {
    if pending == 0 then [] else
    match ask(k, pending).answer
    case WouldBlock => []
    case Failed => []
    case Took(n) => if n == 0 || n > pending then [] else [Take(n)] + Takes(ask, k + 1, pending - n)
  }

  /** Draining is a run of the machine above: what holds of every run holds of
      it, however the pty divides it up. */
  lemma {:induction false} DrainIsARun(ask: Pty, k: nat, s: State)
    requires s.thread == Awake(true)
    ensures Taken(ask, k, |s.pending|).0 <= |s.pending|
    ensures Runs(s, Takes(ask, k, |s.pending|))
    ensures var n := Taken(ask, k, |s.pending|).0;
            After(s, Takes(ask, k, |s.pending|))
            == s.(accepted := s.accepted + s.pending[..n], pending := s.pending[n..])
    decreases |s.pending|
  {
    hide Taken, Takes;
    TakesNothing(ask, k, |s.pending|);
    if Takes(ask, k, |s.pending|) == [] {
      assert s.accepted + s.pending[..0] == s.accepted && s.pending[0..] == s.pending;
    } else {
      TakenTurn(ask, k, |s.pending|);
      var n := ask(k, |s.pending|).answer.n;
      var s1 := s.(accepted := s.accepted + s.pending[..n], pending := s.pending[n..]);
      assert Can(s, Take(n)) && Do(s, Take(n)) == s1;
      hide *;
      DrainIsARun(ask, k + 1, s1);
      TakeThen(s, n, Takes(ask, k + 1, |s1.pending|));
      Halves(s.accepted, s.pending, n, Taken(ask, k + 1, |s1.pending|).0);
    }
  }

  lemma TakesNothing(ask: Pty, k: nat, pending: nat)
    ensures Takes(ask, k, pending) == [] ==> Taken(ask, k, pending).0 == 0
  {}

  lemma TakenTurn(ask: Pty, k: nat, pending: nat)
    requires Takes(ask, k, pending) != []
    ensures pending > 0 && ask(k, pending).answer.Took?
    ensures var n := ask(k, pending).answer.n;
            && 0 < n <= pending && Taken(ask, k, pending).0 == n + Taken(ask, k + 1, pending - n).0
            && Takes(ask, k, pending) == [Take(n)] + Takes(ask, k + 1, pending - n)
  {}

  lemma TakeThen(s: State, n: nat, rest: seq<Step>)
    requires Can(s, Take(n)) && Runs(Do(s, Take(n)), rest)
    ensures Runs(s, [Take(n)] + rest) && After(s, [Take(n)] + rest) == After(Do(s, Take(n)), rest)
  {
    hide Can, Do;
    assert ([Take(n)] + rest)[1..] == rest;
  }

  lemma Halves(taken: seq<byte>, left: seq<byte>, n: nat, more: nat)
    requires n + more <= |left|
    ensures taken + left[..n] + left[n..][..more] == taken + left[..n + more]
    ensures left[n..][more..] == left[n + more..]
  {
    assert left[..n] + left[n..][..more] == left[..n + more];
  }

  // --------------------------------------------------- how a drain leaves off

  /** After `turns` turns, each of which took something, a drain is left with `left`
      bytes and goes no further: none are left, or the turn that follows takes none. */
  predicate LeavesOff(ask: Pty, k: nat, pending: nat, turns: nat, left: nat)
    decreases turns
  {
    if turns == 0 then left == pending && (left == 0 || !(ask(k, left).answer.Took? && ask(k, left).answer.n > 0))
    else
      && pending > 0 && ask(k, pending).answer.Took? && 0 < ask(k, pending).answer.n <= pending
      && LeavesOff(ask, k + 1, pending - ask(k, pending).answer.n, turns - 1, left)
  }

  lemma {:induction false} TakenLeavesOff(ask: Pty, k: nat, pending: nat) returns (turns: nat, left: nat)
    requires Sane(ask)
    ensures LeavesOff(ask, k, pending, turns, left) && left <= pending && Taken(ask, k, pending).0 == pending - left
    ensures Taken(ask, k, pending).1 <==> left > 0 && ask(k + turns, left).answer == Failed
    decreases pending
  {
    turns, left := 0, pending;
    if pending > 0 {
      assert Possible(ask(k, pending), pending);
      var answer := ask(k, pending).answer;
      if answer.Took? && answer.n > 0 {
        var more, rest := TakenLeavesOff(ask, k + 1, pending - answer.n);
        turns, left := more + 1, rest;
      }
    }
  }

  /** A drain is broken exactly when the turn it leaves off at failed. One that is not
      left off with the queue empty, or with a pty that was full, or that took nothing;
      and it went on for as long as anything was taken. */
  lemma BrokenIffFailed(ask: Pty, pending: nat)
    requires Sane(ask)
    ensures exists turns: nat, left: nat :: LeavesOff(ask, 0, pending, turns, left)
              && left <= pending && Taken(ask, 0, pending).0 == pending - left
              && (Taken(ask, 0, pending).1 <==> left > 0 && ask(turns, left).answer == Failed)
              && (!Taken(ask, 0, pending).1 ==> left == 0 || ask(turns, left).answer in {WouldBlock, Took(0)})
  {
    var turns, left := TakenLeavesOff(ask, 0, pending);
    hide Taken;
    if left > 0 { LeftOffAt(ask, 0, pending, turns, left); }
    assert LeavesOff(ask, 0, pending, turns, left);
  }

  lemma {:induction false} LeftOffAt(ask: Pty, k: nat, pending: nat, turns: nat, left: nat)
    requires LeavesOff(ask, k, pending, turns, left) && left > 0
    ensures ask(k + turns, left).answer in {WouldBlock, Failed, Took(0)}
    decreases turns
  {
    if turns > 0 {
      LeftOffAt(ask, k + 1, pending - ask(k, pending).answer.n, turns - 1, left);
    } else {
      var answer := ask(k, left).answer;
      assert answer.Took? ==> answer == Took(answer.n);
    }
  }

  /** A pty that never fails, however often it is full, breaks no drain. */
  lemma FullIsNotBroken(ask: Pty, k: nat, pending: nat)
    requires forall j, n :: ask(j, n).answer != Failed
    ensures !Taken(ask, k, pending).1
    decreases pending
  {}

  /** Among the steps: a drain that broke ends the thread, which does nothing ever after;
      one that did not brings it back to the top of its loop. */
  lemma DrainEnds(ask: Pty, s: State, after: seq<Step>)
    requires s.thread == Awake(true)
    ensures var (n, broken) := Taken(ask, 0, |s.pending|);
            var run := Takes(ask, 0, |s.pending|) + [if broken then Break else Done];
            && n <= |s.pending| && Runs(s, run)
            && var t := After(s, run);
            && t.accepted == s.accepted + s.pending[..n] && t.pending == s.pending[n..]
            && (broken ==> t.thread == Dead && (Runs(t, after) ==> After(t, after).accepted == t.accepted))
            && (!broken ==> t.thread == Top)
  {
    var (n, broken) := Taken(ask, 0, |s.pending|);
    var last := if broken then Break else Done;
    hide Taken, Takes;
    DrainIsARun(ask, 0, s);
    var s1 := After(s, Takes(ask, 0, |s.pending|));
    var t := Do(s1, last);
    assert Runs(t, []) && After(t, []) == t && [last][1..] == [];
    assert Runs(s1, [last]) && After(s1, [last]) == t;
    RunsConcat(s, Takes(ask, 0, |s.pending|), [last]);
    if broken && Runs(t, after) { DeadTakesNothing(t, after); }
  }

  lemma {:induction false} RunsConcat(s: State, a: seq<Step>, b: seq<Step>)
    requires Runs(s, a) && Runs(After(s, a), b)
    ensures Runs(s, a + b) && After(s, a + b) == After(After(s, a), b)
    decreases |a|
  {
    hide Can, Do;
    if a == [] {
      assert a + b == b;
    } else {
      assert (a + b)[0] == a[0] && (a + b)[1..] == a[1..] + b;
      RunsConcat(Do(s, a[0]), a[1..], b);
    }
  }

  lemma {:induction false} DeadTakesNothing(s: State, run: seq<Step>)
    requires s.thread == Dead && Runs(s, run)
    ensures After(s, run).thread == Dead && After(s, run).accepted == s.accepted
    decreases |run|
  {
    if run != [] { DeadTakesNothing(Do(s, run[0]), run[1..]); }
  }

  // ------------------------------------------------- awake when it has to be

  lemma RunsThree(s: State, a: Step, b: Step, c: Step)
    requires Can(s, a) && Can(Do(s, a), b) && Can(Do(Do(s, a), b), c)
    ensures Runs(s, [a, b, c]) && After(s, [a, b, c]) == Do(Do(Do(s, a), b), c)
  {
    hide Can, Do;
    var s1, s2 := Do(s, a), Do(Do(s, a), b);
    var t := Do(s2, c);
    assert Runs(t, []) && After(t, []) == t && [c][1..] == [];
    assert Runs(s2, [c]) && After(s2, [c]) == t && [b, c][1..] == [c];
    assert Runs(s1, [b, c]) && After(s1, [b, c]) == t && [a, b, c][1..] == [b, c];
  }

  predicate Asking(s: State) { s.thread == Asleep(true) ==> s.pending != [] }

  lemma {:induction false} RunAsks(s: State, run: seq<Step>)
    requires Asking(s) && Runs(s, run)
    ensures Asking(After(s, run))
    decreases |run|
  {
    if run != [] { RunAsks(Do(s, run[0]), run[1..]); }
  }

  /** In every run a thread asks to be told the pty can be written to only with something
      to write; and goes to sleep asking whenever there is. */
  lemma AsksOnlyToWrite(run: seq<Step>)
    requires Runs(START, run)
    ensures var s := After(START, run);
            && (s.thread == Asleep(true) ==> s.pending != [])
            && (Can(s, Look) ==> (Do(s, Look).thread == Asleep(true) <==> s.pending != []))
  {
    RunAsks(START, run);
  }

  /** Woken with nothing to write and nothing to stop for, it goes back to sleep, and the
      bell that woke it does not wake it again: only something to read does, or another
      ring. */
  lemma WakesOnce(s: State)
    requires s.thread.Asleep? && s.bell && !s.shutdown && s.pending == []
    ensures var run := [Return(false, false), Done, Check];
            && Runs(s, run)
            && var t := After(s, run);
            && Can(t, Look) && Do(t, Look) == s.(bell := false, thread := Asleep(false))
            && !Can(Do(t, Look), Return(false, false)) && !Can(Do(t, Look), Return(false, true))
  {
    RunsThree(s, Return(false, false), Done, Check);
  }

  /** Told to stop, a thread that has been woken stops before it does anything else. */
  lemma StopsWhenWoken(s: State, readable: bool, writable: bool)
    requires Can(s, Return(readable, writable)) && s.shutdown
    ensures var run := [Return(readable, writable), Done, Check];
            Runs(s, run) && After(s, run).thread == Dead && After(s, run).accepted == s.accepted
  {
    RunsThree(s, Return(readable, writable), Done, Check);
  }

  /** Whether the poll last said the pty could be written to. */
  predicate SaidWritable(run: seq<Step>) {
    run != [] && if run[|run| - 1].Return? then run[|run| - 1].writable else SaidWritable(run[..|run| - 1])
  }

  /** Nothing is written but on its word. */
  lemma {:induction false} WritesOnlyWhenWritable(run: seq<Step>)
    requires Runs(START, run)
    ensures var s := After(START, run);
            && (s.thread.Awake? ==> (s.thread == Awake(true) <==> SaidWritable(run)))
            && (!s.thread.Awake? || !SaidWritable(run) ==> forall n :: !Can(s, Take(n)))
    decreases |run|
  {
    if run != [] {
      var init, last := run[..|run| - 1], run[|run| - 1];
      assert run == init + [last];
      RunsSplit(START, init, [last]);
      WritesOnlyWhenWritable(init);
      var s := After(START, init);
      assert [last][1..] == [] && Can(s, last) && After(s, [last]) == Do(s, last);
    }
  }

  lemma {:induction false} RunsSplit(s: State, a: seq<Step>, b: seq<Step>)
    requires Runs(s, a + b)
    ensures Runs(s, a) && Runs(After(s, a), b) && After(s, a + b) == After(After(s, a), b)
    decreases |a|
  {
    hide Can, Do;
    if a == [] {
      assert a + b == b;
    } else {
      assert (a + b)[0] == a[0] && (a + b)[1..] == a[1..] + b;
      RunsSplit(Do(s, a[0]), a[1..], b);
    }
  }
}
