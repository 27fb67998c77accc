/** The relay's introductions (devpipe/src/relay.rs), as the steps its connections take
    in any order: machines that enrol and hold a connection open, clients that
    ask for one by name, tickets dialled to a machine and offered back, timeouts,
    and keys rotated in between.

    A hold is one machine's control connection, an introduction one client's
    request; both are numbered as they arrive. */
module Relay {
  import opened Basics
  import K = Keys

  type Ticket = string

  /** Depth of the queue toward one machine. */
  const BACKLOG: nat := 32

  /** `Fresh` has inserted its entry and not yet been welcomed; `Leaked` is one
      whose welcome could not be sent, which returns without removing the entry;
      `Leaving` has left its loop and not yet removed it. */
  datatype HoldPhase = Fresh | Looping | Leaving | Left | Leaked

  datatype Hold = Hold(account: string, name: string, phase: HoldPhase, queue: seq<Ticket>, dialled: set<Ticket>)

  datatype IntroPhase = Looked | Waiting | Abandoned | Refused | Joined

  /** Whether the ticket has been taken out of the map, and whether the socket it
      was offered on has been handed over: `Lost` is one handed to a client that
      had given up. `from` is the enrolled machine that offered it, if it was one;
      `told`, whether that machine had been dialled the ticket. */
  datatype Claim = Open | Taken(from: Option<nat>, told: bool) | Sent(from: Option<nat>, told: bool) | Lost

  datatype Intro = Intro(account: string, machine: string, dial: nat, ticket: Option<Ticket>,
                         dialled: bool, phase: IntroPhase, claim: Claim)

  /** What happened, with the keys as they were when it was decided. */
  datatype Event =
    | Enrolled(hold: nat, token: string, keys: seq<K.Key>, account: string, name: string)
    | Asked(intro: nat, token: string, keys: seq<K.Key>, account: string, name: string)
    | Spliced(intro: nat, from: Option<nat>, told: bool, ticket: Ticket)

  datatype State = State(keys: seq<K.Key>, machines: map<(string, string), nat>, pending: map<Ticket, nat>,
                         holds: seq<Hold>, intros: seq<Intro>, minted: set<Ticket>, log: seq<Event>)

  function Start(keys: seq<K.Key>): State { State(keys, map[], map[], [], [], {}, []) }

  datatype Step =
    // a machine's control connection
    | Enrol(token: string, name: string) | Welcome(h: nat) | WelcomeFails(h: nat)
    | Deliver(h: nat) | DeliverFails(h: nat) | Hangup(h: nat) | Remove(h: nat)
    // a client's request
    | Reach(token: string, name: string) | Insert(i: nat, ticket: Ticket) | Dial(i: nat) | DialFails(i: nat)
    | TimeOut(i: nat) | Clean(i: nat) | Join(i: nat) | JoinFails(i: nat)
    // a data connection, from a machine or from anybody, offering any ticket
    | Offer(from: Option<nat>, ticket: Ticket) | HandOver(i: nat)
    // a browser's rotation
    | Mint(account: string, can: K.Can, token: string)

  function Who(x: Hold): (string, string) { (x.account, x.name) }

  predicate IsHold(s: State, h: nat, phase: HoldPhase) { h < |s.holds| && s.holds[h].phase == phase }

  predicate IsIntro(s: State, i: nat, phase: IntroPhase) { i < |s.intros| && s.intros[i].phase == phase }

  predicate Can(hash: K.Hash, s: State, a: Step) {
    match a
    case Enrol(token, name) => K.Answer(s.keys, hash(token), K.Enrol).Some?
    case Welcome(h) => IsHold(s, h, Fresh)
    case WelcomeFails(h) => IsHold(s, h, Fresh)
    case Deliver(h) => IsHold(s, h, Looping) && s.holds[h].queue != []
    case DeliverFails(h) => IsHold(s, h, Looping) && s.holds[h].queue != []
    case Hangup(h) => IsHold(s, h, Looping)
    case Remove(h) => IsHold(s, h, Leaving)
    case Reach(token, name) => K.Answer(s.keys, hash(token), K.Reach).Some?
    case Insert(i, ticket) => IsIntro(s, i, Looked) && s.intros[i].ticket == None && ticket !in s.minted
    case Dial(i) =>
      && IsIntro(s, i, Looked) && s.intros[i].ticket.Some?
      && s.intros[i].dial < |s.holds| && s.holds[s.intros[i].dial].phase !in {Left, Leaked}
      && |s.holds[s.intros[i].dial].queue| < BACKLOG
    case DialFails(i) =>
      && IsIntro(s, i, Looked) && s.intros[i].ticket.Some?
      && s.intros[i].dial < |s.holds| && s.holds[s.intros[i].dial].phase in {Left, Leaked}
    case TimeOut(i) => IsIntro(s, i, Waiting) && !s.intros[i].claim.Sent?
    case Clean(i) => IsIntro(s, i, Abandoned) && s.intros[i].ticket.Some?
    case Join(i) => IsIntro(s, i, Waiting) && s.intros[i].claim.Sent? && s.intros[i].ticket.Some?
    case JoinFails(i) => IsIntro(s, i, Waiting) && s.intros[i].claim.Sent?
    case Offer(from, ticket) => from.Some? ==> from.value < |s.holds|
    case HandOver(i) => i < |s.intros| && s.intros[i].claim.Taken?
    case Mint(account, can, token) => true
  }

  function SetHold(s: State, h: nat, x: Hold): State
    requires h < |s.holds|
  {
    s.(holds := s.holds[h := x])
  }

  function SetIntro(s: State, i: nat, x: Intro): State
    requires i < |s.intros|
  {
    s.(intros := s.intros[i := x])
  }

  /** Whoever offers this ticket is a machine that was dialled it. */
  predicate Told(s: State, from: Option<nat>, ticket: Ticket)
    requires from.Some? ==> from.value < |s.holds|
  {
    from.Some? && ticket in s.holds[from.value].dialled
  }

  function Do(hash: K.Hash, s: State, a: Step): State
    requires Can(hash, s, a)
  {
    match a
    case Enrol(token, name) =>
      var account := K.Answer(s.keys, hash(token), K.Enrol).value;
      if (account, name) in s.machines then s
      else s.(machines := s.machines[(account, name) := |s.holds|],
              holds := s.holds + [Hold(account, name, Fresh, [], {})],
              log := s.log + [Enrolled(|s.holds|, token, s.keys, account, name)])
    case Welcome(h) => SetHold(s, h, s.holds[h].(phase := Looping))
    case WelcomeFails(h) => SetHold(s, h, s.holds[h].(phase := Leaked))
    case Deliver(h) =>
      var x := s.holds[h];
      SetHold(s, h, x.(queue := x.queue[1..], dialled := x.dialled + {x.queue[0]}))
    case DeliverFails(h) => SetHold(s, h, s.holds[h].(queue := s.holds[h].queue[1..], phase := Leaving))
    case Hangup(h) => SetHold(s, h, s.holds[h].(phase := Leaving))
    case Remove(h) => SetHold(s, h, s.holds[h].(phase := Left)).(machines := s.machines - {Who(s.holds[h])})
    case Reach(token, name) =>
      var account := K.Answer(s.keys, hash(token), K.Reach).value;
      if (account, name) !in s.machines then s
      else s.(intros := s.intros + [Intro(account, name, s.machines[(account, name)], None, false, Looked, Open)],
              log := s.log + [Asked(|s.intros|, token, s.keys, account, name)])
    case Insert(i, ticket) =>
      SetIntro(s, i, s.intros[i].(ticket := Some(ticket)))
      .(pending := s.pending[ticket := i], minted := s.minted + {ticket})
    case Dial(i) =>
      var h := s.intros[i].dial;
      SetHold(SetIntro(s, i, s.intros[i].(phase := Waiting, dialled := true)),
              h, s.holds[h].(queue := s.holds[h].queue + [s.intros[i].ticket.value]))
    case DialFails(i) => SetIntro(s, i, s.intros[i].(phase := Abandoned))
    case TimeOut(i) => SetIntro(s, i, s.intros[i].(phase := Abandoned))
    case Clean(i) => SetIntro(s, i, s.intros[i].(phase := Refused)).(pending := s.pending - {s.intros[i].ticket.value})
    case Join(i) =>
      SetIntro(s, i, s.intros[i].(phase := Joined))
      .(log := s.log + [Spliced(i, s.intros[i].claim.from, s.intros[i].claim.told, s.intros[i].ticket.value)])
    case JoinFails(i) => SetIntro(s, i, s.intros[i].(phase := Refused))
    case Offer(from, ticket) =>
      if ticket !in s.pending || s.pending[ticket] >= |s.intros| then s
      else SetIntro(s, s.pending[ticket], s.intros[s.pending[ticket]].(claim := Taken(from, Told(s, from, ticket))))
           .(pending := s.pending - {ticket})
    case HandOver(i) =>
      var claim := s.intros[i].claim;
      SetIntro(s, i, s.intros[i].(claim :=
        if s.intros[i].phase in {Looked, Waiting} then Sent(claim.from, claim.told) else Lost))
    case Mint(account, can, token) => s.(keys := K.Rotated(s.keys, account, can, hash(token)))
  }

  predicate Runs(hash: K.Hash, s: State, run: seq<Step>)
    decreases |run|
  {
    run == [] || (Can(hash, s, run[0]) && Runs(hash, Do(hash, s, run[0]), run[1..]))
  }

  function After(hash: K.Hash, s: State, run: seq<Step>): State
    requires Runs(hash, s, run)
    decreases |run|
  {
    if run == [] then s else After(hash, Do(hash, s, run[0]), run[1..])
  }

  // ------------------------------------------------------------ what holds

  /** A hold whose entry is in the map: not yet removed, or never to be. */
  predicate Standing(x: Hold) { x.phase != Left }

  /** An introduction whose ticket is in the map: minted, and neither claimed nor
      cleaned away. */
  predicate Unclaimed(x: Intro) { x.ticket.Some? && x.claim == Open && x.phase in {Looked, Waiting, Abandoned} }

  ghost predicate MachinesOk(s: State) {
    && (forall h :: 0 <= h < |s.holds| && Standing(s.holds[h]) ==>
          Who(s.holds[h]) in s.machines && s.machines[Who(s.holds[h])] == h)
    && (forall w :: w in s.machines ==>
          s.machines[w] < |s.holds| && Who(s.holds[s.machines[w]]) == w && Standing(s.holds[s.machines[w]]))
  }

  ghost predicate PendingOk(s: State) {
    && (forall i :: 0 <= i < |s.intros| && Unclaimed(s.intros[i]) ==>
          s.intros[i].ticket.value in s.pending && s.pending[s.intros[i].ticket.value] == i)
    && (forall t :: t in s.pending ==>
          s.pending[t] < |s.intros| && s.intros[s.pending[t]].ticket == Some(t) && Unclaimed(s.intros[s.pending[t]]))
  }

  ghost predicate TicketsOk(s: State) {
    && (forall i :: 0 <= i < |s.intros| && s.intros[i].ticket.Some? ==> s.intros[i].ticket.value in s.minted)
    && (forall i, j :: 0 <= i < j < |s.intros| && s.intros[i].ticket.Some? ==> s.intros[i].ticket != s.intros[j].ticket)
  }

  /** A ticket on its way to a machine, or already there, is that of an
      introduction made to that hold. */
  predicate For(x: Intro, h: nat, t: Ticket) { x.ticket == Some(t) && x.dial == h && x.dialled }

  ghost predicate Has(s: State, h: nat, t: Ticket) {
    exists i :: 0 <= i < |s.intros| && For(s.intros[i], h, t)
  }

  ghost predicate DialledOk(s: State) {
    forall h, t :: 0 <= h < |s.holds| && (t in s.holds[h].queue || t in s.holds[h].dialled) ==> Has(s, h, t)
  }

  predicate IntroOk(s: State, x: Intro) {
    && x.dial < |s.holds| && Who(s.holds[x.dial]) == (x.account, x.machine)
    && (x.claim.Taken? || x.claim.Sent? ==> x.ticket.Some? && (x.claim.from.Some? ==> x.claim.from.value < |s.holds|))
    && ((x.claim.Taken? || x.claim.Sent?) && x.claim.told ==>
          x.claim.from == Some(x.dial) && x.ticket.value in s.holds[x.dial].dialled)
    && (x.phase == Joined ==> x.claim.Sent?)
    && (x.phase != Looked ==> x.ticket.Some?)
    && (x.dialled ==> x.ticket.Some?)
    && (x.ticket == None ==> x.claim == Open)
  }

  ghost predicate IntrosOk(s: State) { forall i :: 0 <= i < |s.intros| ==> IntroOk(s, s.intros[i]) }

  /** A machine that was never welcomed was never told a ticket. */
  ghost predicate QuietOk(s: State) {
    forall h :: 0 <= h < |s.holds| && s.holds[h].phase in {Fresh, Leaked} ==> s.holds[h].dialled == {}
  }

  ghost predicate Inv(s: State) {
    MachinesOk(s) && PendingOk(s) && TicketsOk(s) && DialledOk(s) && IntrosOk(s) && QuietOk(s)
  }

  /** Steps that touch one hold and leave its account and name alone. */
  lemma HoldStep(s: State, h: nat, x: Hold)
    requires Inv(s) && h < |s.holds| && Who(x) == Who(s.holds[h]) && Standing(x) && Standing(s.holds[h])
    requires s.holds[h].dialled <= x.dialled && (x.phase in {Fresh, Leaked} ==> x.dialled == {})
    requires forall t :: t in x.queue || t in x.dialled ==>
               t in s.holds[h].queue || t in s.holds[h].dialled || Has(s, h, t)
    ensures Inv(SetHold(s, h, x))
  {
    var s' := SetHold(s, h, x);
    forall g, t | 0 <= g < |s'.holds| && (t in s'.holds[g].queue || t in s'.holds[g].dialled) ensures Has(s', g, t) {
      assert Has(s, g, t);
    }
    forall i | 0 <= i < |s'.intros| ensures IntroOk(s', s'.intros[i]) { assert IntroOk(s, s.intros[i]); }
  }

  lemma RemoveStep(s: State, h: nat)
    requires Inv(s) && IsHold(s, h, Leaving)
    ensures Inv(SetHold(s, h, s.holds[h].(phase := Left)).(machines := s.machines - {Who(s.holds[h])}))
  {
    var s' := SetHold(s, h, s.holds[h].(phase := Left)).(machines := s.machines - {Who(s.holds[h])});
    forall g, t | 0 <= g < |s'.holds| && (t in s'.holds[g].queue || t in s'.holds[g].dialled) ensures Has(s', g, t) {
      assert Has(s, g, t);
    }
    forall i | 0 <= i < |s'.intros| ensures IntroOk(s', s'.intros[i]) { assert IntroOk(s, s.intros[i]); }
  }

  lemma EnrolStep(s: State, account: string, name: string)
    requires Inv(s) && (account, name) !in s.machines
    ensures Inv(s.(machines := s.machines[(account, name) := |s.holds|],
                   holds := s.holds + [Hold(account, name, Fresh, [], {})]))
  {
    var s' := s.(machines := s.machines[(account, name) := |s.holds|],
                 holds := s.holds + [Hold(account, name, Fresh, [], {})]);
    forall g, t | 0 <= g < |s'.holds| && (t in s'.holds[g].queue || t in s'.holds[g].dialled) ensures Has(s', g, t) {
      assert g < |s.holds| && s'.holds[g] == s.holds[g];
      assert Has(s, g, t);
    }
    forall i | 0 <= i < |s'.intros| ensures IntroOk(s', s'.intros[i]) { assert IntroOk(s, s.intros[i]); }
  }

  /** Tickets on their way stay accounted for while no introduction that dialled
      one changes it. */
  lemma DialledKept(s: State, s': State)
    requires DialledOk(s) && s'.holds == s.holds && |s'.intros| >= |s.intros|
    requires forall j :: 0 <= j < |s.intros| && s.intros[j].dialled ==>
               && s'.intros[j].dialled && s'.intros[j].ticket == s.intros[j].ticket
               && s'.intros[j].dial == s.intros[j].dial
    ensures DialledOk(s')
  {
    forall h, t | 0 <= h < |s'.holds| && (t in s'.holds[h].queue || t in s'.holds[h].dialled) ensures Has(s', h, t) {
      assert Has(s, h, t);
      var j :| 0 <= j < |s.intros| && For(s.intros[j], h, t);
      assert For(s'.intros[j], h, t);
    }
  }

  lemma HoldsSame(s: State, s': State)
    requires MachinesOk(s) && QuietOk(s) && s'.holds == s.holds && s'.machines == s.machines
    ensures MachinesOk(s') && QuietOk(s')
  {
    hide Standing;
  }

  lemma IntrosSet(s: State, s': State, i: nat, x: Intro)
    requires IntrosOk(s) && i < |s.intros| && IntroOk(s, x) && s'.holds == s.holds && s'.intros == s.intros[i := x]
    ensures IntrosOk(s')
  {
    forall j | 0 <= j < |s'.intros| ensures IntroOk(s', s'.intros[j]) {
      if j != i { assert IntroOk(s, s.intros[j]); }
    }
  }

  /** Steps that touch one introduction and neither mint nor claim a ticket. */
  lemma IntroStep(s: State, i: nat, x: Intro)
    requires Inv(s) && i < |s.intros| && IntroOk(s, x)
    requires x.ticket == s.intros[i].ticket && x.dial == s.intros[i].dial && (s.intros[i].dialled ==> x.dialled)
    requires Unclaimed(x) == Unclaimed(s.intros[i])
    ensures Inv(SetIntro(s, i, x))
  {
    hide MachinesOk, QuietOk, IntrosOk, DialledOk, IntroOk, Unclaimed;
    var s' := SetIntro(s, i, x);
    HoldsSame(s, s');
    DialledKept(s, s');
    IntrosSet(s, s', i, x);
  }

  /** Steps that take a ticket out of the map: a claim, or a clean-up. */
  lemma UnlistStep(s: State, i: nat, x: Intro)
    requires Inv(s) && i < |s.intros| && IntroOk(s, x) && x.ticket.Some?
    requires x.ticket == s.intros[i].ticket && x.dial == s.intros[i].dial && x.dialled == s.intros[i].dialled
    requires !Unclaimed(x)
    ensures Inv(SetIntro(s, i, x).(pending := s.pending - {x.ticket.value}))
  {
    hide MachinesOk, PendingOk, QuietOk, IntrosOk, DialledOk, IntroOk, Unclaimed;
    var s' := SetIntro(s, i, x).(pending := s.pending - {x.ticket.value});
    HoldsSame(s, s');
    DialledKept(s, s');
    IntrosSet(s, s', i, x);
    UnlistPending(s, s', i, x);
  }

  lemma UnlistPending(s: State, s': State, i: nat, x: Intro)
    requires PendingOk(s) && TicketsOk(s) && i < |s.intros|
    requires x.ticket.Some? && x.ticket == s.intros[i].ticket && !Unclaimed(x)
    requires s'.intros == s.intros[i := x] && s'.pending == s.pending - {x.ticket.value}
    ensures PendingOk(s')
  {
    forall j | 0 <= j < |s'.intros| && Unclaimed(s'.intros[j])
      ensures s'.intros[j].ticket.value in s'.pending && s'.pending[s'.intros[j].ticket.value] == j
    {
      assert j != i && Unclaimed(s.intros[j]) && s.intros[j].ticket != x.ticket;
    }
    hide Unclaimed;
    forall t | t in s'.pending
      ensures s'.pending[t] < |s'.intros|
      ensures s'.intros[s'.pending[t]].ticket == Some(t) && Unclaimed(s'.intros[s'.pending[t]])
    {
      assert t in s.pending && s.pending[t] != i;
    }
  }

  lemma ReachStep(s: State, account: string, name: string)
    requires Inv(s) && (account, name) in s.machines
    ensures Inv(s.(intros := s.intros + [Intro(account, name, s.machines[(account, name)], None, false, Looked, Open)]))
  {
    var s' := s.(intros := s.intros + [Intro(account, name, s.machines[(account, name)], None, false, Looked, Open)]);
    HoldsSame(s, s');
    DialledKept(s, s');
    hide DialledOk, QuietOk;
    forall j | 0 <= j < |s'.intros| ensures IntroOk(s', s'.intros[j]) {
      if j < |s.intros| { assert IntroOk(s, s.intros[j]); }
    }
  }

  lemma InsertStep(s: State, i: nat, ticket: Ticket)
    requires Inv(s) && IsIntro(s, i, Looked) && s.intros[i].ticket == None && ticket !in s.minted
    ensures Inv(SetIntro(s, i, s.intros[i].(ticket := Some(ticket)))
                .(pending := s.pending[ticket := i], minted := s.minted + {ticket}))
  {
    var x := s.intros[i].(ticket := Some(ticket));
    var s' := SetIntro(s, i, x).(pending := s.pending[ticket := i], minted := s.minted + {ticket});
    assert IntroOk(s, s.intros[i]);
    assert IntroOk(s, x) && Unclaimed(x);
    hide MachinesOk, PendingOk, TicketsOk, QuietOk, IntrosOk, DialledOk, IntroOk, Standing, Unclaimed;
    HoldsSame(s, s');
    DialledKept(s, s');
    IntrosSet(s, s', i, x);
    InsertMinted(s, s', i, x);
    InsertPending(s, s', i, x);
  }

  lemma InsertMinted(s: State, s': State, i: nat, x: Intro)
    requires TicketsOk(s) && i < |s.intros| && x.ticket.Some? && x.ticket.value !in s.minted
    requires s'.intros == s.intros[i := x] && s'.minted == s.minted + {x.ticket.value}
    ensures TicketsOk(s')
  {}

  lemma InsertPending(s: State, s': State, i: nat, x: Intro)
    requires PendingOk(s) && TicketsOk(s) && i < |s.intros| && x.ticket.Some? && x.ticket.value !in s.minted
    requires s.intros[i].ticket == None && Unclaimed(x)
    requires s'.intros == s.intros[i := x] && s'.pending == s.pending[x.ticket.value := i]
    ensures PendingOk(s')
  {
    forall j | 0 <= j < |s'.intros| && Unclaimed(s'.intros[j])
      ensures s'.intros[j].ticket.value in s'.pending && s'.pending[s'.intros[j].ticket.value] == j
    {
      if j != i { assert s.intros[j].ticket.value in s.minted; }
    }
    hide Unclaimed;
    forall t | t in s'.pending
      ensures s'.pending[t] < |s'.intros|
      ensures s'.intros[s'.pending[t]].ticket == Some(t) && Unclaimed(s'.intros[s'.pending[t]])
    {
      if t != x.ticket.value { assert s.pending[t] != i; }
    }
  }

  lemma DialStep(s: State, i: nat)
    requires Inv(s) && IsIntro(s, i, Looked) && s.intros[i].ticket.Some? && s.intros[i].dial < |s.holds|
    ensures var h := s.intros[i].dial;
            Inv(SetHold(SetIntro(s, i, s.intros[i].(phase := Waiting, dialled := true)),
                        h, s.holds[h].(queue := s.holds[h].queue + [s.intros[i].ticket.value])))
  {
    var x := s.intros[i].(phase := Waiting, dialled := true);
    assert IntroOk(s, s.intros[i]);
    IntroStep(s, i, x);
    var s1 := SetIntro(s, i, x);
    assert For(s1.intros[i], x.dial, x.ticket.value);
    assert Has(s1, x.dial, x.ticket.value);
    hide Inv, Has;
    QueueStep(s1, x.dial, x.ticket.value);
  }

  lemma QueueStep(s: State, h: nat, ticket: Ticket)
    requires Inv(s) && h < |s.holds| && Has(s, h, ticket)
    ensures Inv(SetHold(s, h, s.holds[h].(queue := s.holds[h].queue + [ticket])))
  {
    var s' := SetHold(s, h, s.holds[h].(queue := s.holds[h].queue + [ticket]));
    forall g, t | 0 <= g < |s'.holds| && (t in s'.holds[g].queue || t in s'.holds[g].dialled) ensures Has(s', g, t) {
      assert Has(s, g, t);
    }
    forall j | 0 <= j < |s'.intros| ensures IntroOk(s', s'.intros[j]) { assert IntroOk(s, s.intros[j]); }
  }

  lemma OfferStep(s: State, from: Option<nat>, ticket: Ticket)
    requires Inv(s) && (from.Some? ==> from.value < |s.holds|) && ticket in s.pending
    ensures s.pending[ticket] < |s.intros|
    ensures Inv(SetIntro(s, s.pending[ticket],
                         s.intros[s.pending[ticket]].(claim := Taken(from, Told(s, from, ticket))))
                .(pending := s.pending - {ticket}))
  {
    var i := s.pending[ticket];
    assert IntroOk(s, s.intros[i]) && s.intros[i].ticket == Some(ticket);
    if Told(s, from, ticket) { DialledIs(s, from.value, ticket, i); }
    UnlistStep(s, i, s.intros[i].(claim := Taken(from, Told(s, from, ticket))));
  }

  /** The introduction a machine was dialled for is the one that has the ticket. */
  lemma DialledIs(s: State, h: nat, ticket: Ticket, i: nat)
    requires DialledOk(s) && TicketsOk(s) && h < |s.holds| && ticket in s.holds[h].dialled
    requires i < |s.intros| && s.intros[i].ticket == Some(ticket)
    ensures s.intros[i].dial == h
  {
    assert Has(s, h, ticket);
    var j :| 0 <= j < |s.intros| && For(s.intros[j], h, ticket);
    assert i == j;
  }

  /** The maps do not depend on the keys or on what was recorded. */
  lemma Elsewhere(s: State, keys: seq<K.Key>, log: seq<Event>)
    requires Inv(s)
    ensures Inv(s.(keys := keys, log := log))
  {
    var s' := s.(keys := keys, log := log);
    forall h, t | 0 <= h < |s'.holds| && (t in s'.holds[h].queue || t in s'.holds[h].dialled) ensures Has(s', h, t) {
      assert Has(s, h, t);
    }
    forall i | 0 <= i < |s'.intros| ensures IntroOk(s', s'.intros[i]) { assert IntroOk(s, s.intros[i]); }
  }

  lemma HoldStepKeeps(hash: K.Hash, s: State, a: Step)
    requires Inv(s) && Can(hash, s, a) && (a.Welcome? || a.WelcomeFails? || a.Deliver? || a.DeliverFails? || a.Hangup?)
    ensures Inv(Do(hash, s, a))
  {
    HoldStep(s, a.h, Do(hash, s, a).holds[a.h]);
  }

  lemma IntroStepKeeps(hash: K.Hash, s: State, a: Step)
    requires Inv(s) && Can(hash, s, a)
    requires a.DialFails? || a.TimeOut? || a.Join? || a.JoinFails? || a.HandOver? || a.Clean?
    ensures Inv(Do(hash, s, a))
  {
    hide MachinesOk, PendingOk, TicketsOk, DialledOk, Has;
    var s' := Do(hash, s, a);
    assert IntroOk(s, s.intros[a.i]);
    if a.Clean? {
      UnlistStep(s, a.i, s'.intros[a.i]);
    } else {
      IntroStep(s, a.i, s'.intros[a.i]);
      Elsewhere(SetIntro(s, a.i, s'.intros[a.i]), s.keys, s'.log);
    }
  }

  /** Every step keeps the two maps exact. */
  lemma StepKeeps(hash: K.Hash, s: State, a: Step)
    requires Inv(s) && Can(hash, s, a)
    ensures Inv(Do(hash, s, a))
  {
    hide K.Answer, K.Rotated, Inv, Standing, Unclaimed;
    match a
    case Enrol(token, name) =>
      var account := K.Answer(s.keys, hash(token), K.Enrol).value;
      if (account, name) !in s.machines {
        EnrolStep(s, account, name);
        Elsewhere(s.(machines := s.machines[(account, name) := |s.holds|],
                     holds := s.holds + [Hold(account, name, Fresh, [], {})]), s.keys, Do(hash, s, a).log);
      }
    case Reach(token, name) =>
      var account := K.Answer(s.keys, hash(token), K.Reach).value;
      if (account, name) in s.machines {
        ReachStep(s, account, name);
        Elsewhere(s.(intros := Do(hash, s, a).intros), s.keys, Do(hash, s, a).log);
      }
    case Remove(h) => RemoveStep(s, h);
    case Insert(i, ticket) => InsertStep(s, i, ticket);
    case Dial(i) => DialStep(s, i);
    case Offer(from, ticket) =>
      if ticket in s.pending { OfferStep(s, from, ticket); }
    case Mint(account, can, token) => Elsewhere(s, Do(hash, s, a).keys, s.log);
    case Welcome(_) => HoldStepKeeps(hash, s, a);
    case WelcomeFails(_) => HoldStepKeeps(hash, s, a);
    case Deliver(_) => HoldStepKeeps(hash, s, a);
    case DeliverFails(_) => HoldStepKeeps(hash, s, a);
    case Hangup(_) => HoldStepKeeps(hash, s, a);
    case DialFails(_) => IntroStepKeeps(hash, s, a);
    case TimeOut(_) => IntroStepKeeps(hash, s, a);
    case Clean(_) => IntroStepKeeps(hash, s, a);
    case Join(_) => IntroStepKeeps(hash, s, a);
    case JoinFails(_) => IntroStepKeeps(hash, s, a);
    case HandOver(_) => IntroStepKeeps(hash, s, a);
  }

  lemma {:induction false} RunKeeps(hash: K.Hash, s: State, run: seq<Step>)
    requires Inv(s) && Runs(hash, s, run)
    ensures Inv(After(hash, s, run))
    decreases |run|
  {
    hide Inv, Can, Do;
    if run != [] {
      StepKeeps(hash, s, run[0]);
      RunKeeps(hash, Do(hash, s, run[0]), run[1..]);
    }
  }

  /** In every reachable state the keys of `pending` are exactly the tickets that
      were minted and neither claimed nor cleaned away, each leading to its own
      introduction; and every hold that has not removed its entry owns the one
      entry under its account and name. */
  lemma MapsAreExact(hash: K.Hash, keys: seq<K.Key>, run: seq<Step>)
    requires Runs(hash, Start(keys), run)
    ensures var s := After(hash, Start(keys), run);
            && (forall t :: t in s.pending <==>
                  exists i :: 0 <= i < |s.intros| && s.intros[i].ticket == Some(t) && Unclaimed(s.intros[i]))
            && (forall w :: w in s.machines <==>
                  exists h :: 0 <= h < |s.holds| && Who(s.holds[h]) == w && Standing(s.holds[h]))
            && (forall h :: 0 <= h < |s.holds| && Standing(s.holds[h]) ==>
                  Who(s.holds[h]) in s.machines && s.machines[Who(s.holds[h])] == h)
  {
    hide Runs, After;
    StartOk(keys);
    RunKeeps(hash, Start(keys), run);
  }

  /** A hold that is leaving takes away the entry it put there, and no other. */
  lemma RemovalIsOwn(hash: K.Hash, keys: seq<K.Key>, run: seq<Step>, h: nat)
    requires Runs(hash, Start(keys), run) && IsHold(After(hash, Start(keys), run), h, Leaving)
    ensures var s := After(hash, Start(keys), run);
            var who, after := Who(s.holds[h]), Do(hash, s, Remove(h)).machines;
            && who in s.machines && s.machines[who] == h && who !in after
            && forall w :: w in s.machines && w != who ==> w in after && after[w] == s.machines[w] != h
  {
    hide Runs, After;
    StartOk(keys);
    RunKeeps(hash, Start(keys), run);
  }

  lemma StartOk(keys: seq<K.Key>)
    ensures Inv(Start(keys))
  {}

  // ------------------------------------------------------------- who is joined

  predicate EnrolledAs(hash: K.Hash, e: Event, h: nat, account: string, name: string) {
    && e.Enrolled? && e.hold == h && e.account == account && e.name == name
    && K.Answer(e.keys, hash(e.token), K.Enrol) == Some(account)
  }

  predicate AskedFor(hash: K.Hash, e: Event, i: nat, account: string, name: string) {
    && e.Asked? && e.intro == i && e.account == account && e.name == name
    && K.Answer(e.keys, hash(e.token), K.Reach) == Some(account)
  }

  /** By position `p` of the log, this hold had enrolled, or this client asked. */
  ghost predicate HadEnrolled(hash: K.Hash, log: seq<Event>, p: nat, h: nat, account: string, name: string) {
    exists q :: 0 <= q < p <= |log| && EnrolledAs(hash, log[q], h, account, name)
  }

  ghost predicate HadAsked(hash: K.Hash, log: seq<Event>, p: nat, i: nat, account: string, name: string) {
    exists q :: 0 <= q < p <= |log| && AskedFor(hash, log[q], i, account, name)
  }

  /** A splice joins a client with a machine of the same account and name, each
      of whom had shown a key of that account for that purpose. */
  ghost predicate Rightful(hash: K.Hash, log: seq<Event>, p: nat)
    requires p < |log| && log[p].Spliced?
  {
    exists account, name ::
      && log[p].from.Some? && HadEnrolled(hash, log, p, log[p].from.value, account, name)
      && HadAsked(hash, log, p, log[p].intro, account, name)
  }

  ghost predicate HoldsLogged(hash: K.Hash, s: State) {
    forall h :: 0 <= h < |s.holds| ==> HadEnrolled(hash, s.log, |s.log|, h, s.holds[h].account, s.holds[h].name)
  }

  ghost predicate IntrosLogged(hash: K.Hash, s: State) {
    forall i :: 0 <= i < |s.intros| ==> HadAsked(hash, s.log, |s.log|, i, s.intros[i].account, s.intros[i].machine)
  }

  /** What was recorded is still so. */
  predicate Settled(s: State, e: Event) {
    match e
    case Enrolled(h, _, _, account, name) => h < |s.holds| && Who(s.holds[h]) == (account, name)
    case Asked(i, _, _, account, name) =>
      i < |s.intros| && (s.intros[i].account, s.intros[i].machine) == (account, name)
    case Spliced(i, from, told, ticket) =>
      && i < |s.intros| && s.intros[i].phase == Joined && s.intros[i].ticket == Some(ticket)
      && s.intros[i].claim == Sent(from, told)
  }

  /** Who was spliced at `p` had asked, and whoever offered, if a machine, had
      enrolled, before that. */
  ghost predicate Backed(hash: K.Hash, s: State, p: nat)
    requires p < |s.log| && s.log[p].Spliced?
  {
    var e := s.log[p];
    && e.intro < |s.intros| && HadAsked(hash, s.log, p, e.intro, s.intros[e.intro].account, s.intros[e.intro].machine)
    && (e.from.Some? ==>
          && e.from.value < |s.holds|
          && HadEnrolled(hash, s.log, p, e.from.value, s.holds[e.from.value].account, s.holds[e.from.value].name))
  }

  ghost predicate SplicesLogged(hash: K.Hash, s: State) {
    && (forall p :: 0 <= p < |s.log| ==> Settled(s, s.log[p]))
    && (forall p :: 0 <= p < |s.log| && s.log[p].Spliced? ==> Backed(hash, s, p))
    && (forall p, q :: 0 <= p < q < |s.log| && s.log[p].Spliced? && s.log[q].Spliced? ==>
          s.log[p].intro != s.log[q].intro)
  }

  ghost predicate Logged(hash: K.Hash, s: State) {
    HoldsLogged(hash, s) && IntrosLogged(hash, s) && SplicesLogged(hash, s)
  }

  /** What had happened before some point had happened before any later one. */
  lemma LogGrows(hash: K.Hash, log: seq<Event>, more: seq<Event>, p: nat, p': nat)
    requires p <= |log| && p <= p' <= |log + more|
    ensures forall h, account, name ::
              HadEnrolled(hash, log, p, h, account, name) ==> HadEnrolled(hash, log + more, p', h, account, name)
    ensures forall i, account, name ::
              HadAsked(hash, log, p, i, account, name) ==> HadAsked(hash, log + more, p', i, account, name)
  {
    hide EnrolledAs, AskedFor;
    forall h: nat, account, name | HadEnrolled(hash, log, p, h, account, name)
      ensures HadEnrolled(hash, log + more, p', h, account, name)
    {
      var q :| 0 <= q < p <= |log| && EnrolledAs(hash, log[q], h, account, name);
      assert (log + more)[q] == log[q];
    }
    forall i: nat, account, name | HadAsked(hash, log, p, i, account, name)
      ensures HadAsked(hash, log + more, p', i, account, name)
    {
      var q :| 0 <= q < p <= |log| && AskedFor(hash, log[q], i, account, name);
      assert (log + more)[q] == log[q];
    }
  }

  /** Names, once given, stay: holds and introductions are only added to, and a
      finished splice is left alone. */
  ghost predicate Succeeds(s: State, s': State) {
    && |s.holds| <= |s'.holds| && |s.intros| <= |s'.intros|
    && (forall h :: 0 <= h < |s.holds| ==> Who(s'.holds[h]) == Who(s.holds[h]))
    && (forall i :: 0 <= i < |s.intros| ==>
          (s'.intros[i].account, s'.intros[i].machine) == (s.intros[i].account, s.intros[i].machine))
    && (forall i :: 0 <= i < |s.intros| && s.intros[i].phase == Joined ==>
          && s'.intros[i].phase == Joined && s'.intros[i].ticket == s.intros[i].ticket
          && s'.intros[i].claim == s.intros[i].claim)
  }

  /** Then all that was recorded, and what backed it, stands. */
  lemma RecordStands(hash: K.Hash, s: State, s': State, more: seq<Event>)
    requires Logged(hash, s) && Succeeds(s, s') && s'.log == s.log + more
    ensures forall p :: 0 <= p < |s.log| ==> s'.log[p] == s.log[p] && Settled(s', s'.log[p])
    ensures forall p :: 0 <= p < |s.log| && s.log[p].Spliced? ==> Backed(hash, s', p)
    ensures forall h :: 0 <= h < |s.holds| ==>
              HadEnrolled(hash, s'.log, |s'.log|, h, s'.holds[h].account, s'.holds[h].name)
    ensures forall i :: 0 <= i < |s.intros| ==>
              HadAsked(hash, s'.log, |s'.log|, i, s'.intros[i].account, s'.intros[i].machine)
  {
    hide HadEnrolled, HadAsked;
    LogGrows(hash, s.log, more, |s.log|, |s'.log|);
    forall h | 0 <= h < |s.holds|
      ensures HadEnrolled(hash, s'.log, |s'.log|, h, s'.holds[h].account, s'.holds[h].name)
    {
      assert Who(s'.holds[h]) == Who(s.holds[h]);
    }
    forall p | 0 <= p < |s.log| ensures s'.log[p] == s.log[p] && Settled(s', s'.log[p]) { assert Settled(s, s.log[p]); }
    forall p | 0 <= p < |s.log| && s.log[p].Spliced? ensures Backed(hash, s', p) {
      assert Backed(hash, s, p);
      LogGrows(hash, s.log, more, p, p);
      if s.log[p].from.Some? { assert Who(s'.holds[s.log[p].from.value]) == Who(s.holds[s.log[p].from.value]); }
    }
  }

  /** Steps that record nothing. */
  lemma UnloggedKeeps(hash: K.Hash, s: State, s': State)
    requires Logged(hash, s) && Succeeds(s, s') && s'.log == s.log
    requires |s'.holds| == |s.holds| && |s'.intros| == |s.intros|
    ensures Logged(hash, s')
  {
    hide HadEnrolled, HadAsked, Settled, Backed, Succeeds;
    assert s.log + [] == s.log;
    RecordStands(hash, s, s', []);
  }

  /** Steps that record who came, and as whom. */
  lemma ArrivalKeeps(hash: K.Hash, s: State, s': State, e: Event)
    requires Logged(hash, s) && Succeeds(s, s') && s'.log == s.log + [e] && !e.Spliced? && Settled(s', e)
    requires |s'.holds| == |s.holds| + (if e.Enrolled? then 1 else 0)
    requires |s'.intros| == |s.intros| + (if e.Asked? then 1 else 0)
    requires e.Enrolled? ==> e.hold == |s.holds| && EnrolledAs(hash, e, e.hold, e.account, e.name)
    requires e.Asked? ==> e.intro == |s.intros| && AskedFor(hash, e, e.intro, e.account, e.name)
    ensures Logged(hash, s')
  {
    RecordStands(hash, s, s', [e]);
    assert s'.log[|s.log|] == e;
    if e.Enrolled? {
      assert HadEnrolled(hash, s'.log, |s'.log|, e.hold, e.account, e.name);
    } else {
      assert HadAsked(hash, s'.log, |s'.log|, e.intro, e.account, e.name);
    }
    hide HadEnrolled, HadAsked, Backed, Succeeds, EnrolledAs, AskedFor;
  }

  lemma EnrolLogged(hash: K.Hash, s: State, token: string, name: string)
    requires Logged(hash, s) && Can(hash, s, Enrol(token, name))
    ensures Logged(hash, Do(hash, s, Enrol(token, name)))
  {
    hide K.Answer, Logged;
    var s' := Do(hash, s, Enrol(token, name));
    if s' != s { ArrivalKeeps(hash, s, s', s'.log[|s.log|]); }
  }

  lemma ReachLogged(hash: K.Hash, s: State, token: string, name: string)
    requires Logged(hash, s) && Can(hash, s, Reach(token, name))
    ensures Logged(hash, Do(hash, s, Reach(token, name)))
  {
    hide K.Answer, Logged;
    var s' := Do(hash, s, Reach(token, name));
    if s' != s { ArrivalKeeps(hash, s, s', s'.log[|s.log|]); }
  }

  /** A step that records a splice. */
  lemma SpliceKeeps(hash: K.Hash, s: State, s': State, e: Event)
    requires Logged(hash, s) && Succeeds(s, s') && s'.log == s.log + [e] && e.Spliced? && Settled(s', e)
    requires |s'.holds| == |s.holds| && |s'.intros| == |s.intros| && (e.from.Some? ==> e.from.value < |s.holds|)
    requires forall p :: 0 <= p < |s.log| && s.log[p].Spliced? ==> s.log[p].intro != e.intro
    ensures Logged(hash, s')
  {
    assert e.intro < |s'.intros|;
    hide HadEnrolled, HadAsked, Settled;
    RecordStands(hash, s, s', [e]);
    LogGrows(hash, s.log, [e], |s.log|, |s.log|);
    assert HadAsked(hash, s.log, |s.log|, e.intro, s.intros[e.intro].account, s.intros[e.intro].machine);
    if e.from.Some? { assert Who(s'.holds[e.from.value]) == Who(s.holds[e.from.value]); }
    assert s'.log[|s.log|] == e && Backed(hash, s', |s.log|);
    hide Backed, Succeeds;
  }

  lemma JoinLogged(hash: K.Hash, s: State, i: nat)
    requires Inv(s) && Logged(hash, s) && Can(hash, s, Join(i))
    ensures Logged(hash, Do(hash, s, Join(i)))
  {
    assert IntroOk(s, s.intros[i]);
    hide Inv, HadEnrolled, HadAsked, Backed;
    forall p | 0 <= p < |s.log| && s.log[p].Spliced? ensures s.log[p].intro != i { assert Settled(s, s.log[p]); }
    hide Logged;
    var s' := Do(hash, s, Join(i));
    OneIntro(s, s', i);
    hide Succeeds;
    SpliceKeeps(hash, s, s', s'.log[|s.log|]);
  }

  /** A step that changes one introduction, not yet joined. */
  lemma OneIntro(s: State, s': State, i: nat)
    requires i < |s.intros| && s.intros[i].phase != Joined && s'.holds == s.holds && |s'.intros| == |s.intros|
    requires (s'.intros[i].account, s'.intros[i].machine) == (s.intros[i].account, s.intros[i].machine)
    requires s'.intros == s.intros[i := s'.intros[i]]
    ensures Succeeds(s, s')
  {}

  predicate OfHold(a: Step) {
    a.Welcome? || a.WelcomeFails? || a.Deliver? || a.DeliverFails? || a.Hangup? || a.Remove?
  }

  lemma HoldStepLogs(hash: K.Hash, s: State, a: Step)
    requires Logged(hash, s) && Can(hash, s, a) && OfHold(a)
    ensures Logged(hash, Do(hash, s, a))
  {
    hide Logged;
    UnloggedKeeps(hash, s, Do(hash, s, a));
  }

  lemma IntroStepLogs(hash: K.Hash, s: State, a: Step)
    requires Inv(s) && Logged(hash, s) && Can(hash, s, a)
    requires a.Insert? || a.Dial? || a.DialFails? || a.TimeOut? || a.Clean? || a.JoinFails?
    ensures Logged(hash, Do(hash, s, a))
  {
    hide Logged, Inv;
    UnloggedKeeps(hash, s, Do(hash, s, a));
  }

  lemma WaitingIsUnjoined(s: State, ticket: Ticket)
    requires Inv(s) && ticket in s.pending
    ensures s.pending[ticket] < |s.intros| && s.intros[s.pending[ticket]].phase != Joined
  {
    assert PendingOk(s);
  }

  /** A ticket is claimed before its client is joined. */
  lemma OfferLogs(hash: K.Hash, s: State, from: Option<nat>, ticket: Ticket)
    requires Inv(s) && Logged(hash, s) && Can(hash, s, Offer(from, ticket))
    ensures Logged(hash, Do(hash, s, Offer(from, ticket)))
  {
    if ticket in s.pending {
      WaitingIsUnjoined(s, ticket);
      hide Logged, Inv, Told, Succeeds, PendingOk;
      OneIntro(s, Do(hash, s, Offer(from, ticket)), s.pending[ticket]);
      UnloggedKeeps(hash, s, Do(hash, s, Offer(from, ticket)));
    }
  }

  /** And its socket handed over before that. */
  lemma HandOverLogs(hash: K.Hash, s: State, i: nat)
    requires Inv(s) && Logged(hash, s) && Can(hash, s, HandOver(i))
    ensures Logged(hash, Do(hash, s, HandOver(i)))
  {
    assert IntroOk(s, s.intros[i]);
    hide Logged, Inv, Succeeds;
    OneIntro(s, Do(hash, s, HandOver(i)), i);
    UnloggedKeeps(hash, s, Do(hash, s, HandOver(i)));
  }

  lemma MintLogs(hash: K.Hash, s: State, account: string, can: K.Can, token: string)
    requires Logged(hash, s)
    ensures Logged(hash, Do(hash, s, Mint(account, can, token)))
  {
    hide Logged, K.Rotated;
    UnloggedKeeps(hash, s, Do(hash, s, Mint(account, can, token)));
  }

  lemma StepLogs(hash: K.Hash, s: State, a: Step)
    requires Inv(s) && Logged(hash, s) && Can(hash, s, a)
    ensures Logged(hash, Do(hash, s, a))
  {
    hide Inv, Logged, Can, Do;
    match a
    case Enrol(token, name) => EnrolLogged(hash, s, token, name);
    case Reach(token, name) => ReachLogged(hash, s, token, name);
    case Join(i) => JoinLogged(hash, s, i);
    case Offer(from, ticket) => OfferLogs(hash, s, from, ticket);
    case HandOver(i) => HandOverLogs(hash, s, i);
    case Mint(account, can, token) => MintLogs(hash, s, account, can, token);
    case _ => if OfHold(a) { HoldStepLogs(hash, s, a); } else { IntroStepLogs(hash, s, a); }
  }

  lemma {:induction false} RunLogs(hash: K.Hash, s: State, run: seq<Step>)
    requires Inv(s) && Logged(hash, s) && Runs(hash, s, run)
    ensures Inv(After(hash, s, run)) && Logged(hash, After(hash, s, run))
    decreases |run|
  {
    hide Inv, Logged, Can, Do;
    if run != [] {
      StepKeeps(hash, s, run[0]);
      StepLogs(hash, s, run[0]);
      RunLogs(hash, Do(hash, s, run[0]), run[1..]);
    }
  }

  /** The socket came from a machine enrolled under the account and name the client
      asked for. */
  predicate Matches(s: State, e: Event) {
    && e.Spliced? && e.from.Some? && e.from.value < |s.holds| && e.intro < |s.intros|
    && Who(s.holds[e.from.value]) == (s.intros[e.intro].account, s.intros[e.intro].machine)
  }

  /** In every run, whoever offers whatever ticket, and whatever times out, fails or
      is rotated meanwhile: a splice joins a client that showed a reach key of some
      account and asked for a name with a machine that showed an enrolment key of
      that account under that name exactly when the socket came from a machine
      enrolled there, as it did if it came from one that was dialled the ticket;
      and no ticket, and no client, is spliced twice. */
  lemma SplicesAreRightful(hash: K.Hash, keys: seq<K.Key>, run: seq<Step>)
    requires Runs(hash, Start(keys), run)
    ensures var s := After(hash, Start(keys), run); var log := s.log;
            && (forall p :: 0 <= p < |log| && log[p].Spliced? ==>
                  (Rightful(hash, log, p) <==> Matches(s, log[p])) && (log[p].told ==> Matches(s, log[p])))
            && (forall p, q :: 0 <= p < q < |log| && log[p].Spliced? && log[q].Spliced? ==>
                  log[p].intro != log[q].intro && log[p].ticket != log[q].ticket)
  {
    StartOk(keys);
    RunLogs(hash, Start(keys), run);
    hide Runs, After;
    var s := After(hash, Start(keys), run);
    forall p | 0 <= p < |s.log| && s.log[p].Spliced?
      ensures (Rightful(hash, s.log, p) <==> Matches(s, s.log[p])) && (s.log[p].told ==> Matches(s, s.log[p]))
    {
      RightfulIffMatches(hash, s, p);
    }
    hide Rightful;
    forall p, q | 0 <= p < q < |s.log| && s.log[p].Spliced? && s.log[q].Spliced?
      ensures s.log[p].ticket != s.log[q].ticket
    {
      assert Settled(s, s.log[p]) && Settled(s, s.log[q]);
    }
  }

  lemma RightfulIffMatches(hash: K.Hash, s: State, p: nat)
    requires Inv(s) && Logged(hash, s) && p < |s.log| && s.log[p].Spliced?
    ensures (Rightful(hash, s.log, p) <==> Matches(s, s.log[p])) && (s.log[p].told ==> Matches(s, s.log[p]))
  {
    var e := s.log[p];
    assert Settled(s, e) && Backed(hash, s, p);
    assert IntroOk(s, s.intros[e.intro]);
    hide Inv;
    if Rightful(hash, s.log, p) {
      var account, name :|
        HadEnrolled(hash, s.log, p, e.from.value, account, name) && HadAsked(hash, s.log, p, e.intro, account, name);
      var q :| 0 <= q < p <= |s.log| && EnrolledAs(hash, s.log[q], e.from.value, account, name);
      assert Settled(s, s.log[q]);
      var r :| 0 <= r < p <= |s.log| && AskedFor(hash, s.log[r], e.intro, account, name);
      assert Settled(s, s.log[r]);
    }
  }

  // ------------------------------------------------------------ the leaked entry

  predicate LeakedAs(s: State, h: nat, who: (string, string)) { IsHold(s, h, Leaked) && Who(s.holds[h]) == who }

  lemma {:induction false} LeakStays(hash: K.Hash, s: State, run: seq<Step>, h: nat, who: (string, string))
    requires Inv(s) && Runs(hash, s, run) && LeakedAs(s, h, who)
    ensures Inv(After(hash, s, run)) && LeakedAs(After(hash, s, run), h, who)
    decreases |run|
  {
    if run != [] {
      LeakKept(hash, s, run[0], h, who);
      hide Inv, LeakedAs, Can, Do;
      LeakStays(hash, Do(hash, s, run[0]), run[1..], h, who);
    }
  }

  lemma LeakKept(hash: K.Hash, s: State, a: Step, h: nat, who: (string, string))
    requires Inv(s) && Can(hash, s, a) && LeakedAs(s, h, who)
    ensures Inv(Do(hash, s, a)) && LeakedAs(Do(hash, s, a), h, who)
  {
    hide *;
    StepKeeps(hash, s, a);
    LeakedStep(hash, s, a, h, who);
  }

  lemma LeakedStep(hash: K.Hash, s: State, a: Step, h: nat, who: (string, string))
    requires Can(hash, s, a) && LeakedAs(s, h, who)
    ensures LeakedAs(Do(hash, s, a), h, who)
  {
    hide Inv, Told, K.Rotated, K.Answer, PendingOk;
    if a.Welcome? || a.WelcomeFails? || a.Deliver? || a.DeliverFails? || a.Hangup? || a.Remove? {
      assert a.h != h;
    }
  }

  /** A hold whose welcome could not be sent leaves its entry behind for good:
      however the run goes on, the name stays taken, every later enrolment under
      it is refused, and a client that asks for it can no longer be dialled to
      that connection and is never handed a socket by the machine behind it. */
  lemma LeakIsForever(hash: K.Hash, s: State, run: seq<Step>, h: nat, token: string)
    requires Inv(s) && Runs(hash, s, run) && IsHold(s, h, Leaked)
    requires K.Answer(After(hash, s, run).keys, hash(token), K.Enrol) == Some(s.holds[h].account)
    ensures var s', who := After(hash, s, run), Who(s.holds[h]);
            && who in s'.machines && s'.machines[who] == h
            && Do(hash, s', Enrol(token, who.1)) == s'
            && forall i :: 0 <= i < |s'.intros| && s'.intros[i].dial == h ==>
                 !(s'.intros[i].claim.Sent? && s'.intros[i].claim.told) && !Can(hash, s', Dial(i))
  {
    LeakStays(hash, s, run, h, Who(s.holds[h]));
    hide Runs, After, K.Answer;
    var s' := After(hash, s, run);
    forall i | 0 <= i < |s'.intros| && s'.intros[i].dial == h
      ensures !(s'.intros[i].claim.Sent? && s'.intros[i].claim.told) && !Can(hash, s', Dial(i))
    {
      assert IntroOk(s', s'.intros[i]);
    }
  }

  /** How a hold that has not leaked gives its entry up. */
  function WayOut(phase: HoldPhase, h: nat): seq<Step> {
    match phase
    case Fresh => [Welcome(h), Hangup(h), Remove(h)]
    case Looping => [Hangup(h), Remove(h)]
    case _ => [Remove(h)]
  }

  lemma {:induction false} WayOutWorks(hash: K.Hash, s: State, h: nat)
    requires h < |s.holds| && s.holds[h].phase in {Fresh, Looping, Leaving}
    ensures var run := WayOut(s.holds[h].phase, h);
            Runs(hash, s, run) && Who(s.holds[h]) !in After(hash, s, run).machines
    decreases if s.holds[h].phase == Fresh then 2 else if s.holds[h].phase == Looping then 1 else 0
  {
    var run := WayOut(s.holds[h].phase, h);
    var next := Do(hash, s, run[0]);
    assert Who(next.holds[h]) == Who(s.holds[h]);
    if run[1..] == [] {
      assert Runs(hash, next, []) && After(hash, next, []) == next;
    } else {
      assert run[1..] == WayOut(next.holds[h].phase, h);
      WayOutWorks(hash, next, h);
    }
  }

  /** An entry in the map can go, exactly when it is not one that leaked. */
  lemma EntryGoesIffNotLeaked(hash: K.Hash, s: State, h: nat)
    requires Inv(s) && h < |s.holds| && Standing(s.holds[h])
    ensures s.holds[h].phase != Leaked
            <==> exists run :: Runs(hash, s, run) && Who(s.holds[h]) !in After(hash, s, run).machines
  {
    var who := Who(s.holds[h]);
    if s.holds[h].phase != Leaked {
      WayOutWorks(hash, s, h);
    } else {
      forall run | Runs(hash, s, run) ensures who in After(hash, s, run).machines {
        LeakStays(hash, s, run, h, who);
        assert Standing(After(hash, s, run).holds[h]);
      }
    }
  }

  /** Such a state is two steps from the start. */
  lemma LeakHappens(hash: K.Hash, keys: seq<K.Key>, token: string, name: string)
    requires K.Answer(keys, hash(token), K.Enrol).Some?
    ensures Runs(hash, Start(keys), [Enrol(token, name), WelcomeFails(0)])
    ensures IsHold(After(hash, Start(keys), [Enrol(token, name), WelcomeFails(0)]), 0, Leaked)
  {
    var s := Start(keys);
    var run := [Enrol(token, name), WelcomeFails(0)];
    var s1 := Do(hash, s, run[0]);
    var s2 := Do(hash, s1, run[1]);
    assert run[1..] == [run[1]] && [run[1]][1..] == [];
    assert Runs(hash, s2, []) && After(hash, s2, []) == s2;
    assert Runs(hash, s1, [run[1]]) && After(hash, s1, [run[1]]) == s2;
  }
}
