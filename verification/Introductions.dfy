/** What a relay is for (devpipe/src/relay.rs): that introductions do come about, and
    how each of the other ways a connection can go ends. */
module Introductions {
  import opened Basics
  import K = Keys
  import opened Relay

  lemma Then(hash: K.Hash, s: State, a: Step, rest: seq<Step>)
    requires Can(hash, s, a) && Runs(hash, Do(hash, s, a), rest)
    ensures Runs(hash, s, [a] + rest) && After(hash, s, [a] + rest) == After(hash, Do(hash, s, a), rest)
  {
    hide Can, Do;
    assert ([a] + rest)[1..] == rest;
  }

  lemma One(hash: K.Hash, s: State, a: Step)
    requires Can(hash, s, a)
    ensures Runs(hash, s, [a]) && After(hash, s, [a]) == Do(hash, s, a)
  {
    hide Can, Do;
    var t := Do(hash, s, a);
    assert Runs(hash, t, []) && After(hash, t, []) == t && [a] + [] == [a];
    Then(hash, s, a, []);
  }

  lemma Two(hash: K.Hash, s: State, a: Step, b: Step)
    requires Can(hash, s, a) && Can(hash, Do(hash, s, a), b)
    ensures Runs(hash, s, [a, b]) && After(hash, s, [a, b]) == Do(hash, Do(hash, s, a), b)
  {
    hide Can, Do;
    One(hash, Do(hash, s, a), b);
    Then(hash, s, a, [b]);
    assert [a] + [b] == [a, b];
  }

  lemma Three(hash: K.Hash, s: State, a: Step, b: Step, c: Step)
    requires Can(hash, s, a) && Can(hash, Do(hash, s, a), b) && Can(hash, Do(hash, Do(hash, s, a), b), c)
    ensures Runs(hash, s, [a, b, c]) && After(hash, s, [a, b, c]) == Do(hash, Do(hash, Do(hash, s, a), b), c)
  {
    hide Can, Do;
    Two(hash, Do(hash, s, a), b, c);
    Then(hash, s, a, [b, c]);
    assert [a] + [b, c] == [a, b, c];
  }

  lemma {:induction false} Onward(hash: K.Hash, s: State, a: seq<Step>, b: seq<Step>)
    requires Runs(hash, s, a) && Runs(hash, After(hash, s, a), b)
    ensures Runs(hash, s, a + b) && After(hash, s, a + b) == After(hash, After(hash, s, a), b)
    decreases |a|
  {
    hide Can, Do;
    if a == [] {
      assert a + b == b;
    } else {
      assert (a + b)[0] == a[0] && (a + b)[1..] == a[1..] + b;
      Onward(hash, Do(hash, s, a[0]), a[1..], b);
    }
  }

  /** The state after a run from the start, and what holds of it. */
  lemma Reached(hash: K.Hash, keys: seq<K.Key>, before: seq<Step>)
    requires Runs(hash, Start(keys), before)
    ensures Inv(After(hash, Start(keys), before))
  {
    hide *;
    StartOk(keys);
    RunKeeps(hash, Start(keys), before);
  }

  // ------------------------------------------------------- an introduction made

  /** A client waiting for a machine that has been dialled its ticket. */
  predicate Expected(s: State, i: nat) {
    && IsIntro(s, i, Waiting) && s.intros[i].ticket.Some? && s.intros[i].claim == Open
    && s.intros[i].dial < |s.holds| && s.intros[i].ticket.value in s.holds[s.intros[i].dial].dialled
  }

  /** In every state that can be reached: when that machine dials back, the two are
      spliced, that is recorded once, and the ticket is good for nothing more. The ticket
      is the credential: whoever else offers it is spliced in the machine's place. */
  lemma IntroductionCompletes(hash: K.Hash, keys: seq<K.Key>, before: seq<Step>, i: nat, other: Option<nat>)
    requires Runs(hash, Start(keys), before) && Expected(After(hash, Start(keys), before), i)
    requires other.Some? ==> other.value < |After(hash, Start(keys), before).holds|
    ensures var s := After(hash, Start(keys), before);
            && Splices(hash, s, i, Some(s.intros[i].dial), true)
            && Splices(hash, s, i, other, other.Some? && s.intros[i].ticket.value in s.holds[other.value].dialled)
  {
    hide Runs, After, Inv, Splices;
    Reached(hash, keys, before);
    var s := After(hash, Start(keys), before);
    TicketIsThere(s, i);
    DialBack(hash, s, i, Some(s.intros[i].dial));
    DialBack(hash, s, i, other);
  }

  /** Offering the ticket and handing over the socket leads to the two being joined. */
  ghost predicate Splices(hash: K.Hash, s: State, i: nat, from: Option<nat>, told: bool)
    requires i < |s.intros| && s.intros[i].ticket.Some?
  {
    var t := s.intros[i].ticket.value;
    var run := [Offer(from, t), HandOver(i), Join(i)];
    && Runs(hash, s, run)
    && var done := After(hash, s, run);
    && done.log == s.log + [Spliced(i, from, told, t)] && IsIntro(done, i, Joined)
    && done.pending == s.pending - {t} && done.machines == s.machines && done.keys == s.keys
  }

  lemma TicketIsThere(s: State, i: nat)
    requires Inv(s) && i < |s.intros| && s.intros[i].ticket.Some? && Unclaimed(s.intros[i])
    ensures s.intros[i].ticket.value in s.pending && s.pending[s.intros[i].ticket.value] == i
  {
    assert PendingOk(s);
  }

  lemma DialBack(hash: K.Hash, s: State, i: nat, from: Option<nat>)
    requires Expected(s, i) && s.intros[i].ticket.value in s.pending && s.pending[s.intros[i].ticket.value] == i
    requires from.Some? ==> from.value < |s.holds|
    ensures Splices(hash, s, i, from, Told(s, from, s.intros[i].ticket.value))
  {
    var x := s.intros[i];
    var t := x.ticket.value;
    var told := Told(s, from, t);
    var s1 := SetIntro(s, i, x.(claim := Taken(from, told))).(pending := s.pending - {t});
    var s2 := SetIntro(s1, i, x.(claim := Sent(from, told)));
    var s3 := SetIntro(s2, i, x.(claim := Sent(from, told), phase := Joined))
              .(log := s.log + [Spliced(i, from, told, t)]);
    OfferTakes(hash, s, i, from);
    HandedOver(hash, s1, i);
    assert Can(hash, s2, Join(i)) && Do(hash, s2, Join(i)) == s3;
    hide Can, Do, Runs, After;
    Three(hash, s, Offer(from, t), HandOver(i), Join(i));
  }

  lemma OfferTakes(hash: K.Hash, s: State, i: nat, from: Option<nat>)
    requires Expected(s, i) && s.intros[i].ticket.value in s.pending && s.pending[s.intros[i].ticket.value] == i
    requires from.Some? ==> from.value < |s.holds|
    ensures var x := s.intros[i]; var t := x.ticket.value;
            && Can(hash, s, Offer(from, t))
            && Do(hash, s, Offer(from, t))
               == SetIntro(s, i, x.(claim := Taken(from, Told(s, from, t)))).(pending := s.pending - {t})
  {}

  lemma HandedOver(hash: K.Hash, s: State, i: nat)
    requires IsIntro(s, i, Waiting) && s.intros[i].claim.Taken?
    ensures var claim := s.intros[i].claim;
            && Can(hash, s, HandOver(i))
            && Do(hash, s, HandOver(i)) == SetIntro(s, i, s.intros[i].(claim := Sent(claim.from, claim.told)))
  {}

  /** From keys that admit a machine and a client to one account, the whole of it. */
  function Introducing(machine: string, client: string, name: string, ticket: Ticket): seq<Step> {
    [Enrol(machine, name), Welcome(0), Reach(client, name)]
    + [Insert(0, ticket), Dial(0), Deliver(0)]
    + [Offer(Some(0), ticket), HandOver(0), Join(0)]
  }

  lemma IntroductionHappens(hash: K.Hash, keys: seq<K.Key>, account: string, machine: string, client: string,
                            name: string, ticket: Ticket)
    requires K.Answer(keys, hash(machine), K.Enrol) == Some(account)
    requires K.Answer(keys, hash(client), K.Reach) == Some(account)
    ensures var run := Introducing(machine, client, name, ticket);
            && Runs(hash, Start(keys), run)
            && After(hash, Start(keys), run).log
               == [Enrolled(0, machine, keys, account, name), Asked(0, client, keys, account, name),
                   Spliced(0, Some(0), true, ticket)]
            && After(hash, Start(keys), run).machines == map[(account, name) := 0]
            && After(hash, Start(keys), run).pending == map[]
  {
    var a, b := [Enrol(machine, name), Welcome(0), Reach(client, name)], [Insert(0, ticket), Dial(0), Deliver(0)];
    Greeted(hash, keys, account, machine, client, name);
    var s := After(hash, Start(keys), a);
    hide Runs, After, K.Answer;
    Dialled(hash, s, ticket);
    Onward(hash, Start(keys), a, b);
    var t := After(hash, s, b);
    DialBack(hash, t, 0, Some(0));
    Onward(hash, Start(keys), a + b, [Offer(Some(0), ticket), HandOver(0), Join(0)]);
  }

  lemma Greeted(hash: K.Hash, keys: seq<K.Key>, account: string, machine: string, client: string, name: string)
    requires K.Answer(keys, hash(machine), K.Enrol) == Some(account)
    requires K.Answer(keys, hash(client), K.Reach) == Some(account)
    ensures var run := [Enrol(machine, name), Welcome(0), Reach(client, name)];
            && Runs(hash, Start(keys), run)
            && After(hash, Start(keys), run)
               == State(keys, map[(account, name) := 0], map[], [Hold(account, name, Looping, [], {})],
                        [Intro(account, name, 0, None, false, Looked, Open)], {},
                        [Enrolled(0, machine, keys, account, name), Asked(0, client, keys, account, name)])
  {
    hide K.Answer;
    Three(hash, Start(keys), Enrol(machine, name), Welcome(0), Reach(client, name));
    assert [] + [Enrolled(0, machine, keys, account, name)] + [Asked(0, client, keys, account, name)]
        == [Enrolled(0, machine, keys, account, name), Asked(0, client, keys, account, name)];
  }

  lemma Dialled(hash: K.Hash, s: State, ticket: Ticket)
    requires |s.holds| == 1 && s.holds[0].phase == Looping && s.holds[0].queue == [] && s.pending == map[]
    requires |s.intros| == 1
    requires s.intros[0] == Intro(s.intros[0].account, s.intros[0].machine, 0, None, false, Looked, Open)
    requires s.minted == {}
    ensures var run := [Insert(0, ticket), Dial(0), Deliver(0)];
            && Runs(hash, s, run)
            && var t := After(hash, s, run);
            && Expected(t, 0) && t.intros[0].ticket == Some(ticket) && t.intros[0].dial == 0
            && t.pending == map[ticket := 0] && t.machines == s.machines && t.log == s.log && t.keys == s.keys
  {
    hide K.Answer, K.Rotated, Told;
    TurnsUp(hash, s, 0, ticket);
    var t := After(hash, s, [Insert(0, ticket), Dial(0)]);
    One(hash, t, Deliver(0));
    hide Runs, After;
    Onward(hash, s, [Insert(0, ticket), Dial(0)], [Deliver(0)]);
    assert [Insert(0, ticket), Dial(0)] + [Deliver(0)] == [Insert(0, ticket), Dial(0), Deliver(0)];
    assert ([] + [ticket])[0] == ticket;
  }

  // ------------------------------------------------------ one that comes too late

  /** A client that is no longer waiting and was not joined. */
  predicate GivenUp(s: State, i: nat) { IsIntro(s, i, Abandoned) || IsIntro(s, i, Refused) }

  /** No splice of that client is recorded from position `n` on. */
  predicate NeverSpliced(log: seq<Event>, n: nat, i: nat) {
    n <= |log| && forall p :: n <= p < |log| ==> !(log[p].Spliced? && log[p].intro == i)
  }

  lemma GivenUpKept(hash: K.Hash, s: State, a: Step, n: nat, i: nat)
    requires Can(hash, s, a) && GivenUp(s, i) && NeverSpliced(s.log, n, i)
    ensures GivenUp(Do(hash, s, a), i) && NeverSpliced(Do(hash, s, a).log, n, i)
  {
    hide K.Answer, K.Rotated, Told, NeverSpliced;
    StaysGivenUp(hash, s, a, i);
    var t := Do(hash, s, a);
    if t.log != s.log { OneMoreEvent(s.log, t.log[|s.log|], n, i); }
  }

  lemma OneMoreEvent(log: seq<Event>, e: Event, n: nat, i: nat)
    requires NeverSpliced(log, n, i) && !(e.Spliced? && e.intro == i)
    ensures NeverSpliced(log + [e], n, i)
  {}

  lemma StaysGivenUp(hash: K.Hash, s: State, a: Step, i: nat)
    requires Can(hash, s, a) && GivenUp(s, i)
    ensures GivenUp(Do(hash, s, a), i)
    ensures var t := Do(hash, s, a);
            t.log == s.log || (|t.log| == |s.log| + 1 && t.log == s.log + [t.log[|s.log|]]
                               && !(t.log[|s.log|].Spliced? && t.log[|s.log|].intro == i))
  {
    hide K.Answer, K.Rotated, Told;
  }

  lemma {:induction false} GivenUpStays(hash: K.Hash, s: State, run: seq<Step>, n: nat, i: nat)
    requires Runs(hash, s, run) && GivenUp(s, i) && NeverSpliced(s.log, n, i)
    ensures GivenUp(After(hash, s, run), i) && NeverSpliced(After(hash, s, run).log, n, i)
    decreases |run|
  {
    if run != [] {
      hide Can, Do, GivenUp, NeverSpliced;
      GivenUpKept(hash, s, run[0], n, i);
      GivenUpStays(hash, Do(hash, s, run[0]), run[1..], n, i);
    }
  }

  /** Whatever is handed to a client that is no longer waiting is handed to nobody:
      however the run goes on, that client is never joined. */
  lemma TooLateIsNever(hash: K.Hash, s: State, i: nat, after: seq<Step>)
    requires GivenUp(s, i) && Can(hash, s, HandOver(i)) && Runs(hash, Do(hash, s, HandOver(i)), after)
    ensures s.intros[i].claim.Taken? && Do(hash, s, HandOver(i)) == SetIntro(s, i, s.intros[i].(claim := Lost))
    ensures var t := After(hash, Do(hash, s, HandOver(i)), after);
            && i < |t.intros| && t.intros[i].phase != Joined && NeverSpliced(t.log, |s.log|, i)
  {
    GivenUpStays(hash, Do(hash, s, HandOver(i)), after, |s.log|, i);
  }

  // ---------------------------------------------------------- one that is refused

  lemma CleansUp(hash: K.Hash, s: State, i: nat)
    requires IsIntro(s, i, Abandoned) && s.intros[i].ticket.Some?
    ensures Can(hash, s, Clean(i))
    ensures Do(hash, s, Clean(i))
         == SetIntro(s, i, s.intros[i].(phase := Refused)).(pending := s.pending - {s.intros[i].ticket.value})
  {}

  /** A machine that is gone by the time it is asked for: the client is refused, and
      its ticket is no more. */
  lemma GoneIsRefused(hash: K.Hash, s: State, i: nat)
    requires IsIntro(s, i, Looked) && s.intros[i].ticket.Some? && s.intros[i].dial < |s.holds|
    requires s.holds[s.intros[i].dial].phase in {Left, Leaked}
    ensures Runs(hash, s, [DialFails(i), Clean(i)])
    ensures var t := After(hash, s, [DialFails(i), Clean(i)]);
            && IsIntro(t, i, Refused) && t.pending == s.pending - {s.intros[i].ticket.value}
            && t.machines == s.machines && t.log == s.log
  {
    var x := s.intros[i];
    var t := SetIntro(s, i, x.(phase := Abandoned));
    assert Can(hash, s, DialFails(i)) && Do(hash, s, DialFails(i)) == t;
    CleansUp(hash, t, i);
    hide Can, Do, Runs, After;
    Two(hash, s, DialFails(i), Clean(i));
  }

  /** A machine that does not dial back in time: the same. */
  lemma LateIsRefused(hash: K.Hash, s: State, i: nat)
    requires IsIntro(s, i, Waiting) && s.intros[i].ticket.Some? && !s.intros[i].claim.Sent?
    ensures Runs(hash, s, [TimeOut(i), Clean(i)])
    ensures var t := After(hash, s, [TimeOut(i), Clean(i)]);
            && IsIntro(t, i, Refused) && t.pending == s.pending - {s.intros[i].ticket.value}
            && t.machines == s.machines && t.log == s.log
  {
    var x := s.intros[i];
    var t := SetIntro(s, i, x.(phase := Abandoned));
    assert Can(hash, s, TimeOut(i)) && Do(hash, s, TimeOut(i)) == t;
    CleansUp(hash, t, i);
    hide Can, Do, Runs, After;
    Two(hash, s, TimeOut(i), Clean(i));
  }

  lemma RefusesOne(hash: K.Hash, s: State, i: nat)
    requires IsIntro(s, i, Waiting) && s.intros[i].claim.Sent?
    ensures Can(hash, s, JoinFails(i))
    ensures Do(hash, s, JoinFails(i)) == SetIntro(s, i, s.intros[i].(phase := Refused))
  {}

  /** A client that hangs up just as it is to be joined: refused, and nothing is joined. */
  lemma HungUpIsRefused(hash: K.Hash, s: State, i: nat)
    requires IsIntro(s, i, Waiting) && s.intros[i].claim.Sent?
    ensures Runs(hash, s, [JoinFails(i)])
    ensures var t := After(hash, s, [JoinFails(i)]);
            IsIntro(t, i, Refused) && t.pending == s.pending && t.machines == s.machines && t.log == s.log
  {
    hide Can, Do, Runs, After;
    RefusesOne(hash, s, i);
    One(hash, s, JoinFails(i));
  }

  /** A ticket that has gone from the map stays gone. */
  predicate Spent(s: State, ticket: Ticket) { ticket in s.minted && ticket !in s.pending }

  lemma SpentKept(hash: K.Hash, s: State, a: Step, ticket: Ticket)
    requires Can(hash, s, a) && Spent(s, ticket)
    ensures Spent(Do(hash, s, a), ticket)
  {
    hide K.Answer, K.Rotated, Told;
  }

  /** And whoever offers it then changes nothing. */
  lemma {:induction false} SpentIsStale(hash: K.Hash, s: State, run: seq<Step>, from: Option<nat>, ticket: Ticket)
    requires Runs(hash, s, run) && Spent(s, ticket)
    requires from.Some? ==> from.value < |After(hash, s, run).holds|
    ensures var t := After(hash, s, run); Spent(t, ticket) && Do(hash, t, Offer(from, ticket)) == t
    decreases |run|
  {
    if run != [] {
      SpentKept(hash, s, run[0], ticket);
      hide Can, Do, Spent;
      SpentIsStale(hash, Do(hash, s, run[0]), run[1..], from, ticket);
    }
  }

  // --------------------------------------------------------------- who is refused

  /** A token is let in exactly when it speaks for somebody, for that purpose, by the
      keys as they are; a machine is put on the map exactly when its name is free in
      that account, and a client gets as far as being introduced exactly when the
      account has such a machine: whether another account has, makes no difference. */
  lemma GreetedIff(hash: K.Hash, s: State, token: string, name: string, account: string)
    requires K.Answer(s.keys, hash(token), K.Enrol) == Some(account)
    ensures var t := Do(hash, s, Enrol(token, name));
            && t.keys == s.keys && t.pending == s.pending && t.intros == s.intros
            && ((account, name) in s.machines ==> t == s)
            && ((account, name) !in s.machines ==>
                  && |t.holds| == |s.holds| + 1 && t.machines == s.machines[(account, name) := |s.holds|]
                  && Who(t.holds[|s.holds|]) == (account, name) && t.holds[|s.holds|].phase == Fresh)
  {
    hide K.Answer;
  }

  lemma AskedIff(hash: K.Hash, s: State, token: string, name: string, account: string)
    requires K.Answer(s.keys, hash(token), K.Reach) == Some(account)
    ensures var t := Do(hash, s, Reach(token, name));
            && ((account, name) !in s.machines ==> t == s)
            && ((account, name) in s.machines ==>
                  && |t.intros| == |s.intros| + 1 && t.intros[|s.intros|].dial == s.machines[(account, name)]
                  && IsIntro(t, |s.intros|, Looked) && t.machines == s.machines && t.holds == s.holds)
  {
    hide K.Answer;
  }

  lemma AdmittedIff(hash: K.Hash, s: State, token: string, name: string)
    ensures Can(hash, s, Enrol(token, name)) <==>
              exists k :: k in s.keys && k.hash == hash(token) && k.can == K.Enrol
    ensures Can(hash, s, Reach(token, name)) <==>
              exists k :: k in s.keys && k.hash == hash(token) && k.can == K.Reach
  {
    K.AnswersIff(s.keys, hash(token), K.Enrol);
    K.AnswersIff(s.keys, hash(token), K.Reach);
  }

  // -------------------------------------------------------------- a name set free

  /** A machine that hangs up, or that cannot be told of a client, frees its name, for
      the next to enrol under. */
  lemma NameIsFreed(hash: K.Hash, keys: seq<K.Key>, before: seq<Step>, h: nat, token: string)
    requires Runs(hash, Start(keys), before) && IsHold(After(hash, Start(keys), before), h, Looping)
    requires var s := After(hash, Start(keys), before);
             K.Answer(s.keys, hash(token), K.Enrol) == Some(s.holds[h].account)
    ensures var s := After(hash, Start(keys), before); var who := Who(s.holds[h]);
            && Do(hash, s, Enrol(token, who.1)) == s
            && (forall gone: Step :: gone == Hangup(h) || (gone == DeliverFails(h) && s.holds[h].queue != []) ==>
                  && Runs(hash, s, [gone, Remove(h), Enrol(token, who.1)])
                  && var t := After(hash, s, [gone, Remove(h), Enrol(token, who.1)]);
                  && who in t.machines && t.machines[who] == |s.holds| && |t.holds| == |s.holds| + 1)
  {
    hide Runs, After, Inv, K.Answer;
    Reached(hash, keys, before);
    var s := After(hash, Start(keys), before);
    assert Who(s.holds[h]) in s.machines by { Owned(s, h); }
    forall gone: Step | gone == Hangup(h) || (gone == DeliverFails(h) && s.holds[h].queue != [])
      ensures Runs(hash, s, [gone, Remove(h), Enrol(token, s.holds[h].name)])
      ensures var t := After(hash, s, [gone, Remove(h), Enrol(token, s.holds[h].name)]); var who := Who(s.holds[h]);
              who in t.machines && t.machines[who] == |s.holds| && |t.holds| == |s.holds| + 1
    {
      Three(hash, s, gone, Remove(h), Enrol(token, s.holds[h].name));
    }
  }

  lemma Owned(s: State, h: nat)
    requires Inv(s) && h < |s.holds| && Standing(s.holds[h])
    ensures Who(s.holds[h]) in s.machines
  {
    assert MachinesOk(s);
  }

  // ------------------------------------------------------------- a machine's queue

  /** A machine that is there can be asked for another client exactly while fewer than
      32 are waiting to be told to it. */
  lemma QueueHolds32(hash: K.Hash, s: State, i: nat)
    requires IsIntro(s, i, Looked) && s.intros[i].ticket.Some? && s.intros[i].dial < |s.holds|
    requires s.holds[s.intros[i].dial].phase !in {Left, Leaked}
    ensures Can(hash, s, Dial(i)) <==> |s.holds[s.intros[i].dial].queue| < 32
  {}

  /** And it is told of them in turn: of each after all those before it. */
  function Delivers(h: nat, n: nat): seq<Step> { if n == 0 then [] else [Deliver(h)] + Delivers(h, n - 1) }

  lemma {:induction false} ToldInTurn(hash: K.Hash, s: State, h: nat, n: nat)
    requires IsHold(s, h, Looping) && n <= |s.holds[h].queue|
    ensures Runs(hash, s, Delivers(h, n))
    ensures var t := After(hash, s, Delivers(h, n));
            && IsHold(t, h, Looping) && t.holds[h].queue == s.holds[h].queue[n..] && t.intros == s.intros
            && t.holds[h].dialled == s.holds[h].dialled + (set k | 0 <= k < n :: s.holds[h].queue[k])
    decreases n
  {
    if n > 0 {
      var x := s.holds[h];
      var t := Do(hash, s, Deliver(h));
      assert x.queue[1..][n - 1..] == x.queue[n..];
      ToldInTurn(hash, t, h, n - 1);
      Then(hash, s, Deliver(h), Delivers(h, n - 1));
      FirstAndRest(x.queue, n);
    }
  }

  lemma FirstAndRest(q: seq<Ticket>, n: nat)
    requires 0 < n <= |q|
    ensures (set k | 0 <= k < n :: q[k]) == {q[0]} + (set k | 0 <= k < n - 1 :: q[1..][k])
  {
    var all, rest := set k | 0 <= k < n :: q[k], set k | 0 <= k < n - 1 :: q[1..][k];
    forall t | t in all ensures t in {q[0]} + rest {
      var k :| 0 <= k < n && q[k] == t;
      if k > 0 { assert q[1..][k - 1] == t; }
    }
    forall t | t in rest ensures t in all {
      var k :| 0 <= k < n - 1 && q[1..][k] == t;
      assert q[k + 1] == t;
    }
  }

  lemma TurnsUp(hash: K.Hash, s: State, i: nat, ticket: Ticket)
    requires IsIntro(s, i, Looked) && s.intros[i].ticket == None && s.intros[i].claim == Open && ticket !in s.minted
    requires IsHold(s, s.intros[i].dial, Looping) && |s.holds[s.intros[i].dial].queue| < 32
    ensures var h := s.intros[i].dial;
            && Runs(hash, s, [Insert(i, ticket), Dial(i)])
            && var t := After(hash, s, [Insert(i, ticket), Dial(i)]);
            && IsHold(t, h, Looping) && t.holds[h].queue == s.holds[h].queue + [ticket]
            && IsIntro(t, i, Waiting) && t.intros[i].ticket == Some(ticket)
            && t.intros[i].dial == h && t.intros[i].claim == Open
            && t.holds[h].dialled == s.holds[h].dialled && t.pending == s.pending[ticket := i]
            && t.machines == s.machines && t.keys == s.keys && t.log == s.log
  {
    var h := s.intros[i].dial;
    var s1 := SetIntro(s, i, s.intros[i].(ticket := Some(ticket)))
              .(pending := s.pending[ticket := i], minted := s.minted + {ticket});
    assert Can(hash, s, Insert(i, ticket)) && Do(hash, s, Insert(i, ticket)) == s1;
    DialsOne(hash, s1, i);
    hide Can, Do, Runs, After;
    Two(hash, s, Insert(i, ticket), Dial(i));
  }

  lemma DialsOne(hash: K.Hash, s: State, i: nat)
    requires IsIntro(s, i, Looked) && s.intros[i].ticket.Some?
    requires IsHold(s, s.intros[i].dial, Looping) && |s.holds[s.intros[i].dial].queue| < 32
    ensures Can(hash, s, Dial(i))
    ensures var h := s.intros[i].dial;
            Do(hash, s, Dial(i))
            == SetHold(SetIntro(s, i, s.intros[i].(phase := Waiting, dialled := true)),
                       h, s.holds[h].(queue := s.holds[h].queue + [s.intros[i].ticket.value]))
  {}

  /** From every state that can be reached, whoever else is being introduced: a client
      that has asked for a machine that is there, and whose queue is not full, gets to be
      expected by it, once it has been told of those before. */
  lemma AskedIsExpected(hash: K.Hash, keys: seq<K.Key>, before: seq<Step>, i: nat, ticket: Ticket)
    requires Runs(hash, Start(keys), before)
    requires var s := After(hash, Start(keys), before);
             && IsIntro(s, i, Looked) && s.intros[i].ticket == None && ticket !in s.minted
             && IsHold(s, s.intros[i].dial, Looping) && |s.holds[s.intros[i].dial].queue| < 32
    ensures var s := After(hash, Start(keys), before);
            var h := s.intros[i].dial;
            var run := [Insert(i, ticket), Dial(i)] + Delivers(h, |s.holds[h].queue| + 1);
            && Runs(hash, s, run)
            && Expected(After(hash, s, run), i) && After(hash, s, run).intros[i].ticket == Some(ticket)
  {
    hide Runs, After, Inv;
    Reached(hash, keys, before);
    var s := After(hash, Start(keys), before);
    OpenUntilMinted(s, i);
    TurnsUp(hash, s, i, ticket);
    var t, h := After(hash, s, [Insert(i, ticket), Dial(i)]), s.intros[i].dial;
    var n := |s.holds[h].queue| + 1;
    ToldInTurn(hash, t, h, n);
    assert t.holds[h].queue[n - 1] == ticket;
    Onward(hash, s, [Insert(i, ticket), Dial(i)], Delivers(h, n));
  }

  lemma OpenUntilMinted(s: State, i: nat)
    requires Inv(s) && i < |s.intros| && s.intros[i].ticket == None
    ensures s.intros[i].claim == Open
  {
    assert IntroOk(s, s.intros[i]);
  }

  // ------------------------------------------------------------------- a rotation

  /** From the moment of a rotation the new token is admitted for that purpose, and no
      token that spoke for the account and purpose before, for any. */
  lemma RotationLocksOut(hash: K.Hash, s: State, n: nat, account: string, can: K.Can, token: string,
                         former: string, name: string)
    requires K.Injective(hash) && n >= 6 && K.Uniform(s.keys, n) && K.Distinct(s.keys) && account != ""
    requires (forall k :: k in s.keys ==> k.hash != hash(token)) && former != token
    requires K.Answer(s.keys, hash(former), can) == Some(account)
    ensures var t := Do(hash, s, Mint(account, can, token));
            && (can == K.Enrol ==> Can(hash, t, Enrol(token, name)))
            && (can == K.Reach ==> Can(hash, t, Reach(token, name)))
            && !Can(hash, t, Enrol(former, name)) && !Can(hash, t, Reach(former, name))
            && t.machines == s.machines && t.pending == s.pending && t.holds == s.holds && t.intros == s.intros
  {
    hide K.Answer, K.Rotated, K.Injective, K.Uniform, K.Distinct;
    K.MintReplaces(hash, s.keys, n, account, can, token, former, K.Enrol);
    K.MintReplaces(hash, s.keys, n, account, can, token, former, K.Reach);
  }
}
