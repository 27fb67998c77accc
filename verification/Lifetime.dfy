/** How long a keeper outlives its child (`run` in devpipe/src/keeper.rs), as a
    machine over time in milliseconds. */
module Lifetime {
  import opened Basics

  const GRACE: nat := 10000
  const AGAIN: nat := 1000

  /** `Starting` has a session and has not subscribed to its end; `Watching` has
      subscribed and not yet asked whether the child is already gone. */
  datatype Phase = Starting | Watching | Looping | Exited

  /** `unseen` is the watch holding a change its receiver has not been shown;
      `noticed` is when the keeper first set a deadline. */
  datatype State = State(now: nat, alive: bool, died: Option<nat>, unseen: bool, phase: Phase,
                         deadline: Option<nat>, noticed: Option<nat>, live: nat)

  const START := State(0, true, None, false, Starting, None, None, 0)

  datatype Step = Tick(ms: nat) | Die | Subscribe | FirstLook | Accept | Served | Changed | Expire

  predicate Can(s: State, a: Step) {
    match a
    case Tick(_) => true
    case Die => s.alive
    case Subscribe => s.phase == Starting
    case FirstLook => s.phase == Watching
    case Accept => s.phase == Looping
    case Served => s.live > 0
    case Changed => s.phase == Looping && s.deadline == None && s.unseen
    case Expire => s.phase == Looping && s.deadline.Some? && s.deadline.value <= s.now
  }

  function Do(s: State, a: Step): State
    requires Can(s, a)
  {
    match a
    case Tick(ms) => s.(now := s.now + ms)
    case Die => s.(alive := false, died := Some(s.now), unseen := true)
    case Subscribe => s.(phase := Watching, unseen := false)
    case FirstLook =>
      if s.alive then s.(phase := Looping)
      else s.(phase := Looping, deadline := Some(s.now + GRACE), noticed := Some(s.now))
    case Accept => s.(live := s.live + 1)
    case Served => s.(live := s.live - 1)
    case Changed =>
      if s.alive then s.(unseen := false)
      else s.(unseen := false, deadline := Some(s.now + GRACE), noticed := Some(s.now))
    case Expire =>
      if s.live == 0 then s.(phase := Exited) else s.(deadline := Some(s.now + AGAIN))
  }

  predicate Runs(s: State, run: seq<Step>)
    decreases |run|
  {
    run == [] || (Can(s, run[0]) && Runs(Do(s, run[0]), run[1..]))
  }

  function After(s: State, run: seq<Step>): State
    requires Runs(s, run)
    decreases |run|
  {
    if run == [] then s else After(Do(s, run[0]), run[1..])
  }

  predicate Timed(s: State) {
    && (s.alive <==> s.died == None) && (s.died.Some? ==> s.died.value <= s.now)
    && (s.deadline.Some? <==> s.noticed.Some?)
    && (s.deadline.Some? ==>
          && !s.alive && s.died.value <= s.noticed.value <= s.now
          && s.noticed.value + GRACE <= s.deadline.value <= s.now + GRACE)
    && (s.phase in {Starting, Watching} ==> s.deadline == None)
    && (s.phase == Exited ==> s.deadline.Some? && s.deadline.value <= s.now && s.live == 0)
    && (s.phase == Looping && !s.alive && s.deadline == None ==> s.unseen)
  }

  lemma {:induction false} RunKeeps(s: State, run: seq<Step>)
    requires Timed(s) && Runs(s, run)
    ensures Timed(After(s, run))
    decreases |run|
  {
    if run != [] {
      RunKeeps(Do(s, run[0]), run[1..]);
    }
  }

  /** A keeper leaves only with its child dead, nobody being served, and the whole
      grace behind it since it noticed, which was no sooner than the death. */
  lemma LeavesInGoodTime(run: seq<Step>)
    requires Runs(START, run) && After(START, run).phase == Exited
    ensures var s := After(START, run);
            && !s.alive && s.live == 0 && s.noticed.Some? && s.died.Some?
            && s.died.value + 10000 <= s.noticed.value + 10000 <= s.now
  {
    RunKeeps(START, run);
  }

  /** A death is noticed whenever it comes, before the watch is subscribed, after
      it, or between that and the first look: once in its loop with a dead child,
      a keeper has its deadline or can set it at once. */
  lemma DeathIsNoticed(run: seq<Step>)
    requires Runs(START, run) && After(START, run).phase == Looping && !After(START, run).alive
    ensures var s := After(START, run);
            s.deadline.Some? || (Can(s, Changed) && Do(s, Changed).deadline == Some(s.now + GRACE))
  {
    RunKeeps(START, run);
  }

  /** What is left for a keeper with a dead child and nobody to serve: to be told
      of the death, if it has not been, and to wait out the deadline. */
  function Leave(s: State): seq<Step> {
    match s.deadline
    case None => [Changed, Tick(GRACE), Expire]
    case Some(at) => [Tick(if s.now < at then at - s.now else 0), Expire]
  }

  /** And it does leave, at most ten seconds later. */
  lemma ItDoesLeave(run: seq<Step>)
    requires Runs(START, run)
    requires var s := After(START, run); s.phase == Looping && !s.alive && s.live == 0
    ensures var s := After(START, run);
            && Runs(s, Leave(s)) && After(s, Leave(s)).phase == Exited && After(s, Leave(s)).now <= s.now + 10000
  {
    RunKeeps(START, run);
    var s := After(START, run);
    if s.deadline == None {
      var s1 := Do(s, Changed);
      assert Leave(s)[1..] == Leave(s1);
      LeaveRuns(s1);
    } else {
      LeaveRuns(s);
    }
  }

  lemma LeaveRuns(s: State)
    requires s.phase == Looping && !s.alive && s.live == 0 && s.deadline.Some? && s.deadline.value <= s.now + GRACE
    ensures Runs(s, Leave(s)) && After(s, Leave(s)).phase == Exited && After(s, Leave(s)).now <= s.now + GRACE
  {
    var s1 := Do(s, Leave(s)[0]);
    var s2 := Do(s1, Expire);
    assert Leave(s)[1..] == [Expire] && [Expire][1..] == [];
    assert Runs(s2, []) && After(s2, []) == s2;
    assert Runs(s1, [Expire]) && After(s1, [Expire]) == s2;
  }

  // -------------------------------------------------- by the steps of the run

  /** How long a run takes, and by how many more it was begun to serve than were served. */
  function Elapsed(run: seq<Step>): nat {
    if run == [] then 0 else (if run[0].Tick? then run[0].ms else 0) + Elapsed(run[1..])
  }

  function Serving(run: seq<Step>): int {
    if run == [] then 0
    else (if run[0].Accept? then 1 else if run[0].Served? then -1 else 0) + Serving(run[1..])
  }

  lemma {:induction false} RunCounts(s: State, run: seq<Step>)
    requires Runs(s, run)
    ensures After(s, run).now == s.now + Elapsed(run) && After(s, run).live == s.live + Serving(run)
    decreases |run|
  {
    if run != [] { RunCounts(Do(s, run[0]), run[1..]); }
  }

  /** With a dead child: `since` is when it died at the earliest. */
  predicate Mourning(s: State, since: nat) {
    !s.alive && since <= s.now && (s.deadline.Some? ==> since + 10000 <= s.deadline.value)
    && (s.phase == Exited ==> since + 10000 <= s.now && s.live == 0)
  }

  lemma {:induction false} RunMourns(s: State, since: nat, run: seq<Step>)
    requires Mourning(s, since) && Runs(s, run)
    ensures Mourning(After(s, run), since)
    decreases |run|
  {
    if run != [] { RunMourns(Do(s, run[0]), since, run[1..]); }
  }

  /** Whatever else happens in between, a keeper outlives its child by ten seconds at the
      least, and leaves with everybody served that it ever began to serve. */
  lemma OutlivesItsChild(before: seq<Step>, after: seq<Step>)
    requires Runs(START, before) && Can(After(START, before), Die)
    requires Runs(Do(After(START, before), Die), after)
    requires After(Do(After(START, before), Die), after).phase == Exited
    ensures Elapsed(after) >= 10000 && Serving(before) + Serving(after) == 0
  {
    RunKeeps(START, before);
    RunCounts(START, before);
    var s := After(START, before);
    RunCounts(Do(s, Die), after);
    RunMourns(Do(s, Die), s.now, after);
  }

  /** And it does not leave while its child lives. */
  lemma StaysWithItsChild(run: seq<Step>)
    requires Runs(START, run) && Die !in run
    ensures After(START, run).phase != Exited && After(START, run).alive
  {
    RunLives(START, run);
    RunKeeps(START, run);
  }

  lemma {:induction false} RunLives(s: State, run: seq<Step>)
    requires s.alive && Runs(s, run) && Die !in run
    ensures After(s, run).alive
    decreases |run|
  {
    if run != [] {
      assert run[0] in run && forall a :: a in run[1..] ==> a in run;
      RunLives(Do(s, run[0]), run[1..]);
    }
  }

  /** Asked again no more than a second later, once it has been put off. */
  predicate Patient(s: State) {
    s.deadline.Some? && s.noticed.Some? ==>
      s.deadline.value <= s.now + 1000 || s.deadline.value <= s.noticed.value + 10000
  }

  lemma {:induction false} RunPatient(s: State, run: seq<Step>)
    requires Timed(s) && Patient(s) && Runs(s, run)
    ensures Timed(After(s, run)) && Patient(After(s, run))
    decreases |run|
  {
    if run != [] { RunPatient(Do(s, run[0]), run[1..]); }
  }

  /** In every run: once the ten seconds are over, a keeper that nobody needs any more is
      gone within a second; one that somebody still needs stays. */
  lemma LeavesSoonAfterTheLast(run: seq<Step>)
    requires Runs(START, run)
    requires var s := After(START, run);
             s.phase == Looping && s.noticed.Some? && s.noticed.value + 10000 <= s.now
    ensures var s := After(START, run);
            && s.deadline.Some? && (s.live > 0 ==> !s.alive && forall a :: Can(s, a) ==> Do(s, a).phase == Looping)
            && (s.live == 0 ==>
                  Runs(s, Leave(s)) && After(s, Leave(s)).phase == Exited && After(s, Leave(s)).now <= s.now + 1000)
  {
    RunPatient(START, run);
    var s := After(START, run);
    if s.live == 0 {
      ItDoesLeave(run);
      LeaveTakes(s);
    }
  }

  lemma LeaveTakes(s: State)
    requires s.deadline.Some? && Runs(s, Leave(s))
    ensures After(s, Leave(s)).now == if s.now < s.deadline.value then s.deadline.value else s.now
  {
    RunCounts(s, Leave(s));
    assert Leave(s)[1..] == [Expire] && [Expire][1..] == [];
    assert Elapsed([Expire]) == 0;
  }

  /** A keeper in its loop can be attached to, its child dead or not, and stays for as long
      as somebody it began to serve has not been served. */
  lemma ServesUntilItLeaves(run: seq<Step>, after: seq<Step>)
    requires Runs(START, run) && After(START, run).phase == Looping
    ensures var s := After(START, run);
            && Can(s, Accept)
            && (Runs(Do(s, Accept), after) && Served !in after ==> After(Do(s, Accept), after).phase == Looping)
  {
    var s := After(START, run);
    if Runs(Do(s, Accept), after) && Served !in after { Stays(Do(s, Accept), after); }
  }

  lemma {:induction false} Stays(s: State, run: seq<Step>)
    requires s.phase == Looping && s.live > 0 && Runs(s, run) && Served !in run
    ensures After(s, run).phase == Looping
    decreases |run|
  {
    if run != [] {
      assert run[0] in run && forall a :: a in run[1..] ==> a in run;
      Stays(Do(s, run[0]), run[1..]);
    }
  }

  /** Everybody being served, served. */
  function Serveds(n: nat): seq<Step> { if n == 0 then [] else [Served] + Serveds(n - 1) }

  lemma {:induction false} AllServed(s: State, n: nat)
    requires s.live == n
    ensures Runs(s, Serveds(n)) && After(s, Serveds(n)) == s.(live := 0)
    decreases n
  {
    if n > 0 { AllServed(s.(live := n - 1), n - 1); }
  }

  lemma {:induction false} RunsConcat(s: State, a: seq<Step>, b: seq<Step>)
    requires Runs(s, a) && Runs(After(s, a), b)
    ensures Runs(s, a + b) && After(s, a + b) == After(After(s, a), b)
    decreases |a|
  {
    hide Can, Do;
    if a == [] {
      assert a + b == b;
    } else {
      assert (a + b)[0] == a[0] && (a + b)[1..] == a[1..] + b;
      RunsConcat(Do(s, a[0]), a[1..], b);
    }
  }

  /** From every state of the loop with a dead child, however many are being served: once
      they have been, the keeper leaves. */
  lemma LeavesWhenAllAreServed(run: seq<Step>)
    requires Runs(START, run)
    requires var s := After(START, run); s.phase == Looping && !s.alive
    ensures var s := After(START, run);
            var more := Serveds(s.live) + Leave(s.(live := 0));
            Runs(s, more) && After(s, more).phase == Exited && After(s, more).now <= s.now + 10000
  {
    var s := After(START, run);
    AllServed(s, s.live);
    RunsConcat(START, run, Serveds(s.live));
    ItDoesLeave(run + Serveds(s.live));
    RunsConcat(s, Serveds(s.live), Leave(s.(live := 0)));
  }
}
