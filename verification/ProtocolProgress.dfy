/**
 What the protocol lets through: runs that were consented to, revocations and locks reach their end. The
 other results say what must not happen; these say that refusing everything would not do.
*/
module ProtocolProgress {
  import opened Bytes
  import opened Model
  import opened Grants
  import opened Approval
  import opened ApprovalMeaning
  import opened ApprovalTrace
  import opened Runs
  import opened Protocol

  // ----- runs of several steps -----

  function On(step: Step, now: Time): Protocol.Moment { Protocol.Moment(step, now) }

  /** Every step can be taken, and they lead from `s` to `t`. */
  ghost predicate Leads(s: System, moments: seq<Protocol.Moment>, t: System) {
    AllEnabled(s, moments) && Protocol.Run(s, moments) == t
  }

  lemma OneLeads(s: System, step: Step, now: Time)
    requires Enabled(s, step)
    ensures Leads(s, [On(step, now)], Take(s, step, now))
  {
    hide Enabled, Take;
    var one := [On(step, now)];
    assert one[1..] == [] && one[0] == On(step, now);
    assert AllEnabled(Take(s, step, now), one[1..]);
    assert Protocol.Run(Take(s, step, now), one[1..]) == Take(s, step, now);
  }

  lemma {:induction false} ThenLeads(s: System, first: seq<Protocol.Moment>, t: System, second: seq<Protocol.Moment>, u: System)
    requires Leads(s, first, t) && Leads(t, second, u)
    ensures Leads(s, first + second, u)
    decreases |first|
  {
    hide Enabled, Take;
    if first == [] {
      assert first + second == second;
    } else {
      var m := first[0];
      assert (first + second)[0] == m && (first + second)[1..] == first[1..] + second;
      ThenLeads(Take(s, m.step, m.now), first[1..], t, second, u);
    }
  }

  lemma StepLeads(s: System, moments: seq<Protocol.Moment>, t: System, step: Step, now: Time)
    requires Leads(s, moments, t) && Enabled(t, step)
    ensures Leads(s, moments + [On(step, now)], Take(t, step, now))
  {
    hide Enabled, Take, Leads;
    OneLeads(t, step, now);
    ThenLeads(s, moments, t, [On(step, now)], Take(t, step, now));
  }

  // ----- runs that were consented to -----

  /** Nothing stands in the way of a run of this client: no run, no block, no request, an active app. */
  predicate Unhindered(s: System, client: Client, token: Token, vault: Uid) {
    && s.board == Board(None, false) && s.w.s.access.Active? && s.w.s.pending.None? && s.w.s.vault == Some(vault)
    && Present(s.w.s, s.w.dead, client) && token !in s.w.dead
  }

  /** The thread that holds the lease has bound the secrets, and may ask for them. */
  ghost predicate ReadyToAsk(s: System, t: System, client: Client, token: Token, ids: seq<Secret>) {
    && t.board == Board(Some(ActiveRun(token, client, Some(ids), false)), false) && t.stage == Contexted
    && t.w.s == Gone(s.w.s, s.w.dead) && t.w.dead == s.w.dead
  }

  /** A free run is reserved, gets access and binds its secrets. */
  lemma RunIsReserved(s: System, client: Client, token: Token, vault: Uid, ids: seq<Secret>, t0: Time, t1: Time, t2: Time)
    requires Unhindered(s, client, token, vault)
    ensures Enabled(s, Start(client, token))
    ensures var s1 := Take(s, Start(client, token), t0);
            && Enabled(s1, Access)
            && var s2 := Take(s1, Access, t1);
               && Enabled(s2, SetContext(ids))
               && ReadyToAsk(s, Take(s2, SetContext(ids), t2), client, token, ids)
  {
    hide Gone, Look, ClientHasUnattended, SectionEvent;
    GoneMeans(s.w.s, s.w.dead);
  }

  /** The ticket of a run that may be launched. */
  ghost predicate HasTicket(t: System, client: Client, token: Token, ids: seq<Secret>) {
    && t.board == Board(Some(ActiveRun(token, client, Some(ids), false)), false)
    && t.stage.Ticketed? && t.stage.ticket.client == client
    && (forall x :: x in t.stage.ticket.secrets <==> x in ids)
    && t.w.s.access.Active? && t.w.s.vault == Some(t.stage.ticket.vault) && token !in t.w.dead
  }

  lemma GoneIsNotLost(s: State, dead: set<Token>, client: Client)
    ensures !Lost(Gone(s, dead), dead, client)
    ensures Present(Gone(s, dead), dead, client) <==> Present(s, dead, client)
  {}

  /** When everything is granted already, the ticket comes at once. */
  lemma GrantedRunIsTicketed(t: System, now: Time, request: Request, client: Client, token: Token, ids: seq<Secret>)
    requires t.board == Board(Some(ActiveRun(token, client, Some(ids), false)), false) && t.stage == Contexted
    requires t.w.s.access.Active? && t.w.s.pending.None? && t.w.s.vault == Some(request.vault) && token !in t.w.dead
    requires request.client == client && ids != [] && request.secrets == ids
    requires AllHeld(t.w.s, t.w.dead, now, client, ids)
    ensures Enabled(t, Ask(request)) && HasTicket(Take(t, Ask(request), now), client, token, ids)
  {
    hide Publish, AllHeld, SectionEvent;
    ActivePublishExactly(t.w.s, t.w.dead, now, request);
    PublishKeepsAccess(t.w.s, t.w.dead, now, request);
  }

  lemma PublishKeepsAccess(s: State, dead: set<Token>, now: Time, request: Request)
    ensures var t := Publish(s, dead, now, request).0;
            t.access == s.access && t.lockEpoch == s.lockEpoch && t.clientSessions == Gone(s, dead).clientSessions
  {
    hide Purge, Covered, MissingIn, Filter, Distinct, ClientHasUnattended, Disconnected;
  }

  /** The run waits for a decision on its request, for all its secrets. */
  ghost predicate Waits(t: System, request: Request, client: Client, token: Token, ids: seq<Secret>) {
    && t.board == Board(Some(ActiveRun(token, client, Some(ids), false)), false)
    && t.stage.Asking? && t.stage.id == request.id && t.stage.asked.client == client && t.stage.asked.vault == request.vault
    && (forall x :: x in t.stage.asked.secrets <==> x in ids)
    && t.w.s.access.Active? && t.w.s.vault == Some(request.vault) && token !in t.w.dead
    && Present(t.w.s, t.w.dead, client)
    && t.w.s.pending.Some? && t.w.s.pending.value.request.id == request.id && t.w.s.pending.value.request.client == client
    && (forall x :: x in t.w.s.pending.value.request.secrets <==> x in ids)
  }

  /** When nothing is granted, the request is published. */
  lemma RunAsks(t: System, now: Time, request: Request, client: Client, token: Token, ids: seq<Secret>)
    requires t.board == Board(Some(ActiveRun(token, client, Some(ids), false)), false) && t.stage == Contexted
    requires t.w.s.access.Active? && t.w.s.pending.None? && t.w.s.vault == Some(request.vault) && token !in t.w.dead
    requires Present(t.w.s, t.w.dead, client) && (forall p :: p in t.w.s.grants ==> p.0 != client)
    requires request.client == client && ids != [] && request.secrets == ids
    ensures Enabled(t, Ask(request))
    ensures var u := Take(t, Ask(request), now); Waits(u, request, client, token, ids) && u.w.s.pending.value.decision == None
  {
    hide Publish, SectionEvent, Gone;
    assert !Held(t.w.s, t.w.dead, now, (client, ids[0]));
    assert ids[0] in request.secrets;
    assert !AllHeld(t.w.s, t.w.dead, now, client, request.secrets);
    ActivePublishExactly(t.w.s, t.w.dead, now, request);
    PublishKeepsAccess(t.w.s, t.w.dead, now, request);
    GoneMeans(t.w.s, t.w.dead);
  }

  /** The person decides, and the decision is what the waiter finds. */
  lemma DecisionIsRecorded(t: System, now: Time, request: Request, client: Client, token: Token, ids: seq<Secret>, d: Decision)
    requires Waits(t, request, client, token, ids) && t.w.s.pending.value.decision == None && Positive(d)
    ensures Enabled(t, Env(DoDecide(request.id, d)))
    ensures var u := Take(t, Env(DoDecide(request.id, d)), now);
            Waits(u, request, client, token, ids) && u.w.s.pending.value.decision == Some(d)
  {
    hide Decide, SectionEvent, Gone;
    DecideExactly(t.w.s, t.w.dead, now, request.id, d);
    DecideKeeps(t.w.s, t.w.dead, now, request.id, d);
    GoneMeans(t.w.s, t.w.dead);
  }

  lemma DecideKeeps(s: State, dead: set<Token>, now: Time, id: Uid, d: Decision)
    ensures var t := Decide(s, dead, now, id, d).0;
            t.access == s.access && t.vault == s.vault && t.clientSessions == Gone(s, dead).clientSessions
  {
    hide Gone, Purge;
    GoneMeans(s, dead);
  }

  /** The waiter turns it into grants and gets its ticket. */
  lemma WaiterIsTicketed(t: System, now: Time, request: Request, client: Client, token: Token, ids: seq<Secret>, d: Decision, timedOut: bool)
    requires Waits(t, request, client, token, ids) && t.w.s.pending.value.decision == Some(d) && Positive(d)
    ensures Enabled(t, Wait(timedOut))
    ensures var u := Take(t, Wait(timedOut), now);
            && HasTicket(u, client, token, ids) && !Lost(u.w.s, u.w.dead, client)
            && forall x :: x in ids ==> (client, x) in u.w.s.grants && u.w.s.grants[(client, x)] == Chosen(d, now)
  {
    hide Poll, SectionEvent, Gone, Chosen;
    var id, asked := t.stage.id, t.stage.asked;
    PollExactly(t.w.s, t.w.dead, now, id, asked, token, timedOut);
    ApprovalGives(t.w.s, t.w.dead, now, id, asked, token, timedOut);
    PollKeepsTheRest(t.w.s, t.w.dead, now, id, asked, token, timedOut);
    GoneMeans(t.w.s, t.w.dead);
  }

  /** A run whose ticket is still good is launched, when the system can start the child. */
  lemma TicketedRunLaunches(t: System, now: Time, client: Client, token: Token, ids: seq<Secret>)
    requires HasTicket(t, client, token, ids) && AllHeld(t.w.s, t.w.dead, now, client, ids)
    ensures Enabled(t, LaunchBound(true))
    ensures var u := Take(t, LaunchBound(true), now);
            && u.board == Board(Some(ActiveRun(token, client, Some(ids), true)), false) && u.stage == Running
            && u.w.log != [] && u.w.log[|u.w.log| - 1] == Launched(client, ids)
  {
    hide Valid, SectionEvent, Held;
    assert AllHeld(t.w.s, t.w.dead, now, client, t.stage.ticket.secrets);
    ValidExactly(t.w.s, t.w.dead, now, t.stage.ticket);
  }

  /** The steps of a run that asks and is approved. */
  function ApprovedRun(client: Client, token: Token, ids: seq<Secret>, request: Request, d: Decision, t: seq<Time>, timedOut: bool): seq<Protocol.Moment>
    requires |t| == 7
  {
    [On(Start(client, token), t[0]), On(Access, t[1]), On(SetContext(ids), t[2]),
     On(Ask(request), t[3]), On(Env(DoDecide(request.id, d)), t[4]),
     On(Wait(timedOut), t[5]), On(LaunchBound(true), t[6])]
  }

  /** The child of this run is running, and its launch is the last thing that happened. */
  predicate JustLaunched(s: System, client: Client, token: Token, ids: seq<Secret>) {
    && s.board.active == Some(ActiveRun(token, client, Some(ids), true))
    && s.w.log != [] && s.w.log[|s.w.log| - 1] == Launched(client, ids)
  }

  lemma ReservedLeads(s: System, client: Client, token: Token, vault: Uid, ids: seq<Secret>, t0: Time, t1: Time, t2: Time) returns (u: System)
    requires Unhindered(s, client, token, vault)
    ensures Leads(s, [On(Start(client, token), t0), On(Access, t1), On(SetContext(ids), t2)], u)
    ensures ReadyToAsk(s, u, client, token, ids)
  {
    hide Enabled, Take, ReadyToAsk, Unhindered, Leads;
    RunIsReserved(s, client, token, vault, ids, t0, t1, t2);
    var s1 := Take(s, Start(client, token), t0);
    var s2 := Take(s1, Access, t1);
    u := Take(s2, SetContext(ids), t2);
    OneLeads(s, Start(client, token), t0);
    StepLeads(s, [On(Start(client, token), t0)], s1, Access, t1);
    StepLeads(s, [On(Start(client, token), t0)] + [On(Access, t1)], s2, SetContext(ids), t2);
    assert [On(Start(client, token), t0)] + [On(Access, t1)] + [On(SetContext(ids), t2)]
        == [On(Start(client, token), t0), On(Access, t1), On(SetContext(ids), t2)];
  }

  lemma AskedLeads(s: System, u: System, client: Client, token: Token, ids: seq<Secret>, request: Request, d: Decision, t3: Time, t4: Time, t5: Time, timedOut: bool)
    returns (v: System)
    requires Unhindered(s, client, token, request.vault) && (forall p :: p in s.w.s.grants ==> p.0 != client)
    requires ReadyToAsk(s, u, client, token, ids)
    requires request.client == client && ids != [] && request.secrets == ids && Positive(d)
    ensures Leads(u, [On(Ask(request), t3), On(Env(DoDecide(request.id, d)), t4), On(Wait(timedOut), t5)], v)
    ensures HasTicket(v, client, token, ids) && !Lost(v.w.s, v.w.dead, client)
    ensures forall x :: x in ids ==> (client, x) in v.w.s.grants && v.w.s.grants[(client, x)] == Chosen(d, t5)
  {
    hide Enabled, Take, Leads, Gone, Chosen, Lost, HasTicket, Waits;
    GoneMeans(s.w.s, s.w.dead);
    GoneIsNotLost(s.w.s, s.w.dead, client);
    RunAsks(u, t3, request, client, token, ids);
    var u1 := Take(u, Ask(request), t3);
    DecisionIsRecorded(u1, t4, request, client, token, ids, d);
    var u2 := Take(u1, Env(DoDecide(request.id, d)), t4);
    WaiterIsTicketed(u2, t5, request, client, token, ids, d, timedOut);
    v := Take(u2, Wait(timedOut), t5);
    var m3, m4, m5 := On(Ask(request), t3), On(Env(DoDecide(request.id, d)), t4), On(Wait(timedOut), t5);
    OneLeads(u, Ask(request), t3);
    StepLeads(u, [m3], u1, Env(DoDecide(request.id, d)), t4);
    StepLeads(u, [m3] + [m4], u2, Wait(timedOut), t5);
    assert [m3] + [m4] + [m5] == [m3, m4, m5];
  }

  /** From any state in which nothing stands in the way, and whatever the clocks show: a run that binds
      secrets nobody has granted yet asks, is approved in any of the ways there are, and is launched, as
      long as the approval is not over by then. */
  lemma ApprovedRunGoesThrough(s: System, client: Client, token: Token, ids: seq<Secret>, request: Request, d: Decision,
                               t: seq<Time>, timedOut: bool)
    requires Unhindered(s, client, token, request.vault) && (forall p :: p in s.w.s.grants ==> p.0 != client)
    requires request.client == client && ids != [] && request.secrets == ids
    requires Positive(d) && |t| == 7 && Before(Chosen(d, t[5]), t[6])
    ensures AllEnabled(s, ApprovedRun(client, token, ids, request, d, t, timedOut))
    ensures JustLaunched(Protocol.Run(s, ApprovedRun(client, token, ids, request, d, t, timedOut)), client, token, ids)
  {
    hide Enabled, Take, Gone, Chosen, Before, Lost, HasTicket, ReadyToAsk, Unhindered, AllEnabled, Protocol.Run;
    var u := ReservedLeads(s, client, token, request.vault, ids, t[0], t[1], t[2]);
    var v := AskedLeads(s, u, client, token, ids, request, d, t[3], t[4], t[5], timedOut);
    ChosenIsHeld(v.w.s, v.w.dead, t[6], client, ids, Chosen(d, t[5]));
    TicketedRunLaunches(v, t[6], client, token, ids);
    var plan := ApprovedRun(client, token, ids, request, d, t, timedOut);
    assert plan[..3] == [On(Start(client, token), t[0]), On(Access, t[1]), On(SetContext(ids), t[2])];
    assert plan[3..6] == [On(Ask(request), t[3]), On(Env(DoDecide(request.id, d)), t[4]), On(Wait(timedOut), t[5])];
    ThenLeads(s, plan[..3], u, plan[3..6], v);
    StepLeads(s, plan[..3] + plan[3..6], v, LaunchBound(true), t[6]);
    assert plan[..3] + plan[3..6] + [plan[6]] == plan;
  }

  lemma ChosenIsHeld(s: State, dead: set<Token>, now: Time, client: Client, ids: seq<Secret>, d: Deadline)
    requires !Lost(s, dead, client) && Before(d, now)
    requires forall x :: x in ids ==> (client, x) in s.grants && s.grants[(client, x)] == d
    ensures AllHeld(s, dead, now, client, ids)
  {}

  /** A run that binds no secrets needs no ticket: it is launched after one more look at its access. */
  lemma PlainRunGoesThrough(s: System, client: Client, token: Token, vault: Uid, t: seq<Time>)
    requires Unhindered(s, client, token, vault) && |t| == 5
    ensures AllEnabled(s, PlainRun(client, token, t))
    ensures JustLaunched(Protocol.Run(s, PlainRun(client, token, t)), client, token, [])
  {
    hide Enabled, Take, ReadyToAsk, Unhindered, AllEnabled, Protocol.Run, JustLaunched;
    var u := ReservedLeads(s, client, token, vault, [], t[0], t[1], t[2]);
    PlainRunLaunches(s, u, client, token, vault, t[3], t[4]);
    var v := Take(u, PlainCheck, t[3]);
    var plan := PlainRun(client, token, t);
    assert plan[..3] == [On(Start(client, token), t[0]), On(Access, t[1]), On(SetContext([]), t[2])];
    StepLeads(s, plan[..3], u, PlainCheck, t[3]);
    StepLeads(s, plan[..3] + [plan[3]], v, LaunchPlain(true), t[4]);
    assert plan[..3] + [plan[3]] + [plan[4]] == plan;
  }

  function PlainRun(client: Client, token: Token, t: seq<Time>): seq<Protocol.Moment>
    requires |t| == 5
  {
    [On(Start(client, token), t[0]), On(Access, t[1]), On(SetContext([]), t[2]), On(PlainCheck, t[3]), On(LaunchPlain(true), t[4])]
  }

  lemma PlainRunLaunches(s: System, u: System, client: Client, token: Token, vault: Uid, t3: Time, t4: Time)
    requires Unhindered(s, client, token, vault) && ReadyToAsk(s, u, client, token, [])
    ensures Enabled(u, PlainCheck)
    ensures var v := Take(u, PlainCheck, t3);
            Enabled(v, LaunchPlain(true)) && JustLaunched(Take(v, LaunchPlain(true), t4), client, token, [])
  {
    hide Gone, Look, ClientHasUnattended, SectionEvent;
    GoneMeans(s.w.s, s.w.dead);
    GoneMeans(u.w.s, u.w.dead);
  }

  // ----- revocations -----

  /** Revoking a grant does not disturb a run that is not bound to it: no token is cancelled, the run goes
      on, and the revocation is free to go on at once. */
  lemma UnrelatedRunGoesOn(s: System, t: nat, client: Client, secret: Secret, t0: Time, t1: Time, t2: Time)
    requires s.board.active.Some? && !s.board.blockNew && t !in s.threads
    requires s.board.active.value.client != client || (s.board.active.value.ids.Some? && secret !in s.board.active.value.ids.value)
    ensures Enabled(s, Enter(t, RevokeGrant(client, secret)))
    ensures var s1 := Take(s, Enter(t, RevokeGrant(client, secret)), t0);
            && Enabled(s1, TakeBlockBy(t))
            && var s2 := Take(s1, TakeBlockBy(t), t1);
               && s2.w == s.w && s2.board.active == s.board.active && s2.board.blockNew
               && Enabled(s2, WaitOver(t))
               && Take(s2, WaitOver(t), t2).threads[t] == Blocker(RevokeGrant(client, secret), Holding)
  {
  }

  predicate Revoking(goal: Goal) { goal.RevokeGrant? || goal.RevokeSession? }

  /** The pairs a revocation takes away. */
  predicate Covers(goal: Goal, p: Pair)
    requires Revoking(goal)
  {
    match goal
    case RevokeGrant(client, secret) => p == (client, secret)
    case RevokeSession(client) => p.0 == client
  }

  lemma RevocationTakesBlock(s: System, t: nat, goal: Goal, t0: Time, t1: Time)
    requires Revoking(goal) && Hinders(goal, s.board) && !s.board.blockNew && t !in s.threads
    ensures Enabled(s, Enter(t, goal))
    ensures var v := Take(s, Enter(t, goal), t0);
            Enabled(v, TakeBlockBy(t)) &&
            var u := Take(v, TakeBlockBy(t), t1);
            && u.w.s == s.w.s && s.board.active.value.token in u.w.dead && u.board == s.board.(blockNew := true) && u.stage == s.stage
            && t in u.threads && u.threads[t] == Blocker(goal, Blocking(true))
  {
    hide SectionEvent, Hinders;
    HindersSome(goal, s.board);
  }

  lemma HindersSome(goal: Goal, b: Board<Token>)
    requires Hinders(goal, b)
    ensures b.active.Some?
  {}

  lemma RevocationWaits(s: System, t: nat, goal: Goal, t0: Time, t1: Time) returns (u: System)
    requires Revoking(goal) && Hinders(goal, s.board) && !s.board.blockNew && t !in s.threads
    ensures s.board.active.Some?
    ensures Leads(s, [On(Enter(t, goal), t0), On(TakeBlockBy(t), t1)], u)
    ensures u.w.s == s.w.s && s.board.active.value.token in u.w.dead && u.board == s.board.(blockNew := true) && u.stage == s.stage
    ensures t in u.threads && u.threads[t] == Blocker(goal, Blocking(true))
  {
    hide Leads, Take, Enabled, Hinders;
    HindersSome(goal, s.board);
    RevocationTakesBlock(s, t, goal, t0, t1);
    OneLeads(s, Enter(t, goal), t0);
    var s1 := Take(s, Enter(t, goal), t0);
    StepLeads(s, [On(Enter(t, goal), t0)], s1, TakeBlockBy(t), t1);
    u := Take(s1, TakeBlockBy(t), t1);
    assert [On(Enter(t, goal), t0)] + [On(TakeBlockBy(t), t1)] == [On(Enter(t, goal), t0), On(TakeBlockBy(t), t1)];
  }

  lemma RunEndsAndRevocationHolds(u: System, t: nat, goal: Goal, t2: Time, t3: Time) returns (v: System)
    requires Revoking(goal) && Hinders(goal, u.board) && u.board.blockNew && !u.stage.Asking?
    requires t in u.threads && u.threads[t] == Blocker(goal, Blocking(true))
    ensures !Enabled(u, WaitOver(t))
    ensures Leads(u, [On(End, t2), On(WaitOver(t), t3)], v)
    ensures v.w == u.w && v.board == Board(None, true) && t in v.threads && v.threads[t] == Blocker(goal, Holding)
  {
    hide Leads;
    OneLeads(u, End, t2);
    var u1 := Take(u, End, t2);
    StepLeads(u, [On(End, t2)], u1, WaitOver(t), t3);
    v := Take(u1, WaitOver(t), t3);
    assert [On(End, t2)] + [On(WaitOver(t), t3)] == [On(End, t2), On(WaitOver(t), t3)];
  }

  lemma RevocationEnds(v: System, t: nat, goal: Goal, t4: Time, t5: Time) returns (x: System)
    requires Revoking(goal) && v.board == Board(None, true) && t in v.threads && v.threads[t] == Blocker(goal, Holding)
    requires v.w.s.revision < U64_MAX
    ensures Leads(v, [On(Revoke(t), t4), On(Release(t), t5)], x)
    ensures (forall p :: p in x.w.s.grants ==> !Covers(goal, p))
    ensures x.w.log == v.w.log + [if goal.RevokeGrant? then PairRevoked(goal.client, goal.secret) else ClientRevoked(goal.client)]
    ensures x.board == Board(None, false) && t !in x.threads
  {
    hide Leads, Take, Enabled;
    RevocationRevokes(v, t, goal, t4);
    OneLeads(v, Revoke(t), t4);
    var v1 := Take(v, Revoke(t), t4);
    RevocationReleases(v1, t, t5);
    StepLeads(v, [On(Revoke(t), t4)], v1, Release(t), t5);
    x := Take(v1, Release(t), t5);
    assert [On(Revoke(t), t4)] + [On(Release(t), t5)] == [On(Revoke(t), t4), On(Release(t), t5)];
  }

  lemma RevocationRevokes(v: System, t: nat, goal: Goal, t4: Time)
    requires Revoking(goal) && t in v.threads && v.threads[t] == Blocker(goal, Holding) && v.w.s.revision < U64_MAX
    ensures Enabled(v, Revoke(t))
    ensures var u := Take(v, Revoke(t), t4);
            && (forall p :: p in u.w.s.grants ==> !Covers(goal, p))
            && u.w.log == v.w.log + [if goal.RevokeGrant? then PairRevoked(goal.client, goal.secret) else ClientRevoked(goal.client)]
            && u.board == v.board && u.threads == v.threads
  {
    hide Approval.RevokePair, Approval.RevokeClient;
    if goal.RevokeGrant? { RevokePairExactly(v.w.s, t4, goal.client, goal.secret); } else { RevokeClientExactly(v.w.s, t4, goal.client); }
  }

  lemma RevocationReleases(v: System, t: nat, t5: Time)
    requires v.board == Board(None, true) && t in v.threads && v.threads[t].Blocker? && v.threads[t].hold.Holding?
    ensures Enabled(v, Release(t))
    ensures var x := Take(v, Release(t), t5); x.w == v.w && x.board == Board(None, false) && t !in x.threads
  {
  }

  /** The steps of a revocation that has to wait for a run. */
  function Revocation(t: nat, goal: Goal, now: seq<Time>): seq<Protocol.Moment>
    requires |now| == 6
  {
    [On(Enter(t, goal), now[0]), On(TakeBlockBy(t), now[1]), On(End, now[2]), On(WaitOver(t), now[3]), On(Revoke(t), now[4]), On(Release(t), now[5])]
  }

  /** A revocation of a pair or of a client, while the client runs something bound to the secret or not yet
      known not to be: the run is cancelled, and once it has ended the grants are revoked and the block is
      given back. */
  lemma RevocationGoesThrough(s: System, t: nat, goal: Goal, now: seq<Time>)
    requires Revoking(goal) && Hinders(goal, s.board) && !s.board.blockNew && t !in s.threads && !s.stage.Asking? && |now| == 6
    requires s.w.s.revision < U64_MAX
    ensures AllEnabled(s, Revocation(t, goal, now))
    ensures var v := Protocol.Run(s, Revocation(t, goal, now));
            && (forall p :: p in v.w.s.grants ==> !Covers(goal, p))
            && v.w.log != []
            && v.w.log[|v.w.log| - 1] == (if goal.RevokeGrant? then PairRevoked(goal.client, goal.secret) else ClientRevoked(goal.client))
            && v.board == Board(None, false) && t !in v.threads
  {
    hide Enabled, Take, AllEnabled, Protocol.Run;
    var u := RevocationWaits(s, t, goal, now[0], now[1]);
    var v := RunEndsAndRevocationHolds(u, t, goal, now[2], now[3]);
    var x := RevocationEnds(v, t, goal, now[4], now[5]);
    var plan := Revocation(t, goal, now);
    assert plan[..2] == [On(Enter(t, goal), now[0]), On(TakeBlockBy(t), now[1])];
    assert plan[2..4] == [On(End, now[2]), On(WaitOver(t), now[3])];
    assert plan[4..] == [On(Revoke(t), now[4]), On(Release(t), now[5])];
    ThenLeads(s, plan[..2], u, plan[2..4], v);
    ThenLeads(s, plan[..2] + plan[2..4], v, plan[4..], x);
    assert plan[..2] + plan[2..4] + plan[4..] == plan;
  }

  // ----- locks -----

  lemma LockBlocks(s: System, t: nat, t0: Time, t1: Time, t2: Time) returns (u: System)
    requires s.board == Board(None, false) && s.w.s.access.Active? && s.w.s.lockEpoch < U64_MAX && t !in s.threads
    ensures Leads(s, [On(BeginManual(t), t0), On(TakeBlockBy(t), t1), On(WaitOver(t), t2)], u)
    ensures u.w.s.access == Locking(s.w.s.lockEpoch + 1) && u.w.s.grants == map[] && u.board == Board(None, true)
    ensures t in u.threads && u.threads[t] == Blocker(ManualLock(s.w.s.lockEpoch + 1), Holding)
  {
    hide Leads, Take, Enabled;
    LockBegins(s, t, t0);
    var s1 := Take(s, BeginManual(t), t0);
    OneLeads(s, BeginManual(t), t0);
    LockTakesBlock(s1, t, s.w.s.lockEpoch + 1, t1, t2);
    StepLeads(s, [On(BeginManual(t), t0)], s1, TakeBlockBy(t), t1);
    var s2 := Take(s1, TakeBlockBy(t), t1);
    StepLeads(s, [On(BeginManual(t), t0)] + [On(TakeBlockBy(t), t1)], s2, WaitOver(t), t2);
    u := Take(s2, WaitOver(t), t2);
    assert [On(BeginManual(t), t0)] + [On(TakeBlockBy(t), t1)] + [On(WaitOver(t), t2)]
        == [On(BeginManual(t), t0), On(TakeBlockBy(t), t1), On(WaitOver(t), t2)];
  }

  lemma LockBegins(s: System, t: nat, t0: Time)
    requires s.board == Board(None, false) && s.w.s.access.Active? && s.w.s.lockEpoch < U64_MAX && t !in s.threads
    ensures Enabled(s, BeginManual(t))
    ensures var v := Take(s, BeginManual(t), t0);
            && v.w.s.access == Locking(s.w.s.lockEpoch + 1) && v.w.s.grants == map[] && v.board == s.board
            && t in v.threads && v.threads[t] == Blocker(ManualLock(s.w.s.lockEpoch + 1), Outside)
  {
    hide SectionEvent, BeginLock;
    BeginLockExactly(s.w.s, t0, false);
    assert BeginLock(s.w.s, t0, false).0.grants.Keys == {};
  }

  lemma LockTakesBlock(s: System, t: nat, epoch: nat, t1: Time, t2: Time)
    requires s.board == Board(None, false) && t in s.threads && s.threads[t] == Blocker(ManualLock(epoch), Outside)
    ensures Enabled(s, TakeBlockBy(t))
    ensures var v := Take(s, TakeBlockBy(t), t1);
            Enabled(v, WaitOver(t)) &&
            var u := Take(v, WaitOver(t), t2);
            u.w == s.w && u.board == Board(None, true) && t in u.threads && u.threads[t] == Blocker(ManualLock(epoch), Holding)
  {
  }

  lemma LockCompletes(u: System, t: nat, epoch: nat, t3: Time, t4: Time) returns (v: System)
    requires u.w.s.access == Locking(epoch) && u.board == Board(None, true) && t in u.threads && u.threads[t] == Blocker(ManualLock(epoch), Holding)
    ensures Leads(u, [On(FinishManual(t), t3), On(Release(t), t4)], v)
    ensures v.w.s == u.w.s.(access := Locked(epoch)) && v.board == Board(None, false)
  {
    hide Leads, SectionEvent;
    OneLeads(u, FinishManual(t), t3);
    var u1 := Take(u, FinishManual(t), t3);
    StepLeads(u, [On(FinishManual(t), t3)], u1, Release(t), t4);
    v := Take(u1, Release(t), t4);
    assert [On(FinishManual(t), t3)] + [On(Release(t), t4)] == [On(FinishManual(t), t3), On(Release(t), t4)];
  }

  /** The steps of a manual lock with no run in the way. */
  function ManualLocking(t: nat, now: seq<Time>): seq<Protocol.Moment>
    requires |now| == 5
  {
    [On(BeginManual(t), now[0]), On(TakeBlockBy(t), now[1]), On(WaitOver(t), now[2]),
     On(FinishManual(t), now[3]), On(Release(t), now[4])]
  }

  /** A manual lock completes, and with its epoch the app can be unlocked again. */
  lemma ManualLockGoesThrough(s: System, t: nat, now: seq<Time>, later: Time)
    requires s.board == Board(None, false) && s.w.s.access.Active? && s.w.s.lockEpoch < U64_MAX && t !in s.threads && |now| == 5
    ensures AllEnabled(s, ManualLocking(t, now))
    ensures var v := Protocol.Run(s, ManualLocking(t, now));
            var unlock := Env(DoUnlockApp(s.w.s.lockEpoch + 1));
            && v.w.s.access == Locked(s.w.s.lockEpoch + 1) && v.w.s.grants == map[] && v.board == Board(None, false)
            && Enabled(v, unlock) && Take(v, unlock, later).w.s.access == Active
  {
    hide AllEnabled, Protocol.Run;
    var u := LockBlocks(s, t, now[0], now[1], now[2]);
    var v := LockCompletes(u, t, s.w.s.lockEpoch + 1, now[3], now[4]);
    var plan := ManualLocking(t, now);
    assert plan[..3] == [On(BeginManual(t), now[0]), On(TakeBlockBy(t), now[1]), On(WaitOver(t), now[2])];
    assert plan[3..] == [On(FinishManual(t), now[3]), On(Release(t), now[4])];
    ThenLeads(s, plan[..3], u, plan[3..], v);
    assert plan[..3] + plan[3..] == plan;
  }

  // ----- an automatic lock beside a run -----

  /** All that a run of this client uses is granted unattended, and not over at either moment. */
  predicate Spared(s: System, client: Client, token: Token, ids: seq<Secret>, first: Time, second: Time) {
    && s.board.active.Some? && s.board.active.value.client == client && s.board.active.value.token == token
    && s.board.active.value.ids == Some(ids) && ids != [] && token !in s.w.dead
    && Present(s.w.s, s.w.dead, client)
    && forall x :: x in ids ==>
         && (client, x) in s.w.s.grants && s.w.s.grants[(client, x)].Unattended?
         && Before(s.w.s.grants[(client, x)], first) && Before(s.w.s.grants[(client, x)], second)
  }

  lemma AutoLockBegins(s: System, t: nat, client: Client, token: Token, ids: seq<Secret>, t0: Time, t1: Time, t2: Time)
    requires Spared(s, client, token, ids, t0, t2) && s.w.s.access.Active? && s.w.s.lockEpoch < U64_MAX && t !in s.threads
    ensures Enabled(s, BeginAuto(t))
    ensures var s1 := Take(s, BeginAuto(t), t0);
            && s1.board == s.board && s1.w.dead == s.w.dead && s1.w.s.access == Locking(s.w.s.lockEpoch + 1)
            && t in s1.threads && s1.threads[t] == Auto(s.w.s.lockEpoch + 1, Begun)
            && CoveredBy(s1.w.s, s1.w.dead, t2, client, ids)
  {
    hide SectionEvent, BeginLock, Before;
    BeginLockExactly(s.w.s, t0, true);
    SameClients(s.w.s, t0);
    var g := BeginLock(s.w.s, t0, true).0;
    forall x | x in ids ensures HeldUnattended(g, s.w.dead, t2, (client, x)) {}
    assert HeldUnattended(g, s.w.dead, t2, (client, ids[0])) by { assert ids[0] in ids; }
  }

  lemma SameClients(s: State, now: Time)
    ensures BeginLock(s, now, true).0.clientSessions == s.clientSessions
  {
    hide Purge;
  }

  lemma AutoLockSpares(s: System, t: nat, epoch: nat, client: Client, token: Token, ids: seq<Secret>, t1: Time, t2: Time)
    requires s.board.active.Some? && s.board.active.value.client == client && s.board.active.value.token == token
    requires s.board.active.value.ids == Some(ids)
    requires s.w.s.access == Locking(epoch) && t in s.threads && s.threads[t] == Auto(epoch, Begun)
    requires CoveredBy(s.w.s, s.w.dead, t2, client, ids)
    ensures Enabled(s, LookActive(t))
    ensures var s1 := Take(s, LookActive(t), t1);
            Enabled(s1, CheckCovered(t)) &&
            var s2 := Take(s1, CheckCovered(t), t2);
            s2.board == s.board && s2.w.dead == s.w.dead && s2.w.s.access == Locking(epoch) && t in s2.threads && s2.threads[t] == Auto(epoch, Checked)
  {
    hide Next, UnattendedCovers, CoveredBy;
    AccessExactly(s.w.s, s.w.dead, t2, client, ids);
    CoversChanges(s.w, client, ids, t2);
  }

  lemma CoversChanges(w: World, client: Client, ids: seq<Secret>, now: Time)
    ensures var v := Next(w, DoCovers(client, ids), now); v.s.access == w.s.access && v.dead == w.dead
  {
    hide UnattendedCovers, SectionEvent;
    CoversKeepsAccess(w.s, w.dead, now, client, ids);
  }

  lemma AutoLockEnds(s: System, t: nat, epoch: nat, token: Token, t3: Time, t4: Time)
    requires s.board.active.Some? && s.board.active.value.token == token && token !in s.w.dead
    requires s.w.s.access == Locking(epoch) && t in s.threads && s.threads[t] == Auto(epoch, Checked)
    ensures Enabled(s, AutoWaitOver(t))
    ensures var s1 := Take(s, AutoWaitOver(t), t3);
            Enabled(s1, FinishAuto(t)) &&
            var s2 := Take(s1, FinishAuto(t), t4);
            s2.board == s.board && s2.w.dead == s.w.dead && s2.w.s.access == Locked(epoch) && t !in s2.threads
  {
    hide SectionEvent;
  }

  lemma CoversKeepsAccess(s: State, dead: set<Token>, now: Time, client: Client, ids: seq<Secret>)
    ensures UnattendedCovers(s, dead, now, client, ids).0.access == s.access
  {
    hide Purge, Covered, Disconnected;
  }

  /** An automatic lock goes on beside a run whose secrets are all granted unattended: the run is left alone,
      and the lock completes. */
  lemma CoveredRunIsSpared(s: System, t: nat, client: Client, token: Token, ids: seq<Secret>, now: seq<Time>)
    requires |now| == 5 && Spared(s, client, token, ids, now[0], now[2])
    requires s.w.s.access.Active? && s.w.s.lockEpoch < U64_MAX && t !in s.threads
    ensures AllEnabled(s, AutoLocking(t, now))
    ensures var v := Protocol.Run(s, AutoLocking(t, now));
            v.board == s.board && token !in v.w.dead && v.w.s.access == Locked(s.w.s.lockEpoch + 1)
  {
    hide Enabled, Take, AllEnabled, Protocol.Run, CoveredBy;
    var epoch := s.w.s.lockEpoch + 1;
    AutoLockBegins(s, t, client, token, ids, now[0], now[1], now[2]);
    var s1 := Take(s, BeginAuto(t), now[0]);
    AutoLockSpares(s1, t, epoch, client, token, ids, now[1], now[2]);
    var s2 := Take(s1, LookActive(t), now[1]);
    var s3 := Take(s2, CheckCovered(t), now[2]);
    AutoLockEnds(s3, t, epoch, token, now[3], now[4]);
    var s4 := Take(s3, AutoWaitOver(t), now[3]);
    var plan := AutoLocking(t, now);
    OneLeads(s, BeginAuto(t), now[0]);
    StepLeads(s, [plan[0]], s1, LookActive(t), now[1]);
    StepLeads(s, [plan[0]] + [plan[1]], s2, CheckCovered(t), now[2]);
    StepLeads(s, [plan[0]] + [plan[1]] + [plan[2]], s3, AutoWaitOver(t), now[3]);
    StepLeads(s, [plan[0]] + [plan[1]] + [plan[2]] + [plan[3]], s4, FinishAuto(t), now[4]);
    assert [plan[0]] + [plan[1]] + [plan[2]] + [plan[3]] + [plan[4]] == plan;
  }

  function AutoLocking(t: nat, now: seq<Time>): seq<Protocol.Moment>
    requires |now| == 5
  {
    [On(BeginAuto(t), now[0]), On(LookActive(t), now[1]), On(CheckCovered(t), now[2]), On(AutoWaitOver(t), now[3]), On(FinishAuto(t), now[4])]
  }
}
