/**
 Revoking everything (`revoke_grants`, the hard lock): what holds when the thread that holds the block
 revokes all grants or resets, in every interleaving, and from then on.
*/
module RevokeAllResults {
  import opened Bytes
  import opened Model
  import opened Grants
  import opened Approval
  import opened ApprovalTrace
  import opened Runs
  import opened Protocol
  import opened ProtocolSafety
  import opened ProtocolResults

  // ----- a pending request belongs to the run that asks -----

  predicate Owned(s: System) {
    s.w.s.pending.Some? ==> s.board.active.Some? && s.stage.Asking? && s.stage.id == s.w.s.pending.value.request.id
  }

  predicate KeepsRequest(s: State, t: State) {
    t.pending.Some? ==> s.pending.Some? && t.pending.value.request == s.pending.value.request
  }

  lemma PollKeepsRequest(s: State, dead: set<Token>, now: Time, id: Uid, ticket: Ticket, token: Token, timedOut: bool)
    ensures KeepsRequest(s, Poll(s, dead, now, id, ticket, token, timedOut).0)
  {
    hide Gone, Purge, Grants.Do, MissingIn, GrantOf;
    GoneLeaves(s, dead);
  }

  lemma CloseKeepsRequest(s: State, dead: set<Token>)
    ensures KeepsRequest(s, Close(s, dead).0)
  {
    hide Gone;
    GoneLeaves(s.(closed := true), Close(s, dead).1);
  }

  /** Sections that first drop the disconnected clients. */
  lemma VisitKeepsRequest(w: World, a: Section, now: Time)
    requires a.DoDecide? || a.DoRegister? || a.DoValid? || a.DoRequireAccess? || a.DoCovers? || a.DoCapture? || a.DoGrantUnattended? || a.DoLook?
    ensures KeepsRequest(w.s, SectionState(w, a, now))
  {
    hide Gone, Purge, Grants.Do, MissingIn, Covered, ClientHasUnattended;
    GoneLeaves(w.s, w.dead);
  }

  lemma OtherKeepsRequest(w: World, a: Section, now: Time)
    requires a.DoBeginLock? || a.DoFinishLock? || a.DoUnlockApp? || a.DoReset? || a.DoCancelPending? || a.DoRevokeAll?
             || a.DoRevokePair? || a.DoRevokeClient? || a.DoMutate? || a.DoCut?
    ensures KeepsRequest(w.s, SectionState(w, a, now))
  {
    hide Gone, Purge, Grants.Do;
  }

  /** Only asking makes a request; every other section keeps it, decides it or drops it. */
  lemma SectionPending(w: World, a: Section, now: Time)
    requires !a.DoPublish?
    ensures KeepsRequest(w.s, Next(w, a, now).s)
  {
    hide Gone, KeepsRequest, SectionEvent, SectionDead, Poll, Close;
    match a
    case DoPoll(id, ticket, token, timedOut) => PollKeepsRequest(w.s, w.dead, now, id, ticket, token, timedOut);
    case DoClose => CloseKeepsRequest(w.s, w.dead);
    case DoDecide(_, _) => VisitKeepsRequest(w, a, now);
    case DoRegister(_, _, _) => VisitKeepsRequest(w, a, now);
    case DoValid(_) => VisitKeepsRequest(w, a, now);
    case DoRequireAccess(_) => VisitKeepsRequest(w, a, now);
    case DoCovers(_, _) => VisitKeepsRequest(w, a, now);
    case DoCapture(_, _) => VisitKeepsRequest(w, a, now);
    case DoGrantUnattended(_, _, _, _) => VisitKeepsRequest(w, a, now);
    case DoLook => VisitKeepsRequest(w, a, now);
    case _ => OtherKeepsRequest(w, a, now);
  }

  /** A waiter that settles takes its request with it. */
  lemma PollClears(s: State, dead: set<Token>, now: Time, id: Uid, ticket: Ticket, token: Token, timedOut: bool)
    ensures var r := Poll(s, dead, now, id, ticket, token, timedOut);
            r.1.Settled? && r.0.pending.Some? ==> r.0.pending.value.request.id != id
  {
    hide Gone, Purge, Grants.Do, MissingIn, GrantOf;
  }

  lemma PublishMakes(s: State, dead: set<Token>, now: Time, request: Request)
    requires s.pending.None?
    ensures var r := Publish(s, dead, now, request);
            r.0.pending.Some? ==> r.1.Waiting? && r.0.pending.value.request.id == request.id
  {
    hide Gone, Purge, MissingIn, Covered, Filter, Distinct;
    GoneLeaves(s, dead);
  }

  /** While a run asks, only its own waiting moves it. */
  lemma AskingStays(s: System, step: Step, now: Time)
    requires Enabled(s, step) && s.board.active.Some? && s.stage.Asking? && !step.Wait?
    ensures Take(s, step, now).board.active.Some? && Take(s, step, now).stage == s.stage
  {
    hide Next, Publish, Poll, RequireAccess, Valid, UnattendedCovers, BeginLock, Possible, Hinders;
  }

  lemma StepOwned(s: System, step: Step, now: Time)
    requires Owned(s) && Enabled(s, step)
    ensures Owned(Take(s, step, now))
  {
    hide Next, Take, Enabled, SectionOf;
    if step.Ask? {
      AskOwned(s, step.request, now);
    } else if step.Wait? {
      WaitOwned(s, step.timedOut, now);
    } else {
      TakeIsSection(s, step, now);
      NotAsking(s, step);
      if SectionOf(s, step).Some? { SectionPending(s.w, SectionOf(s, step).value, now); }
      if s.w.s.pending.Some? { AskingStays(s, step, now); }
    }
  }

  lemma NotAsking(s: System, step: Step)
    requires Enabled(s, step) && !step.Ask?
    ensures SectionOf(s, step).Some? ==> !SectionOf(s, step).value.DoPublish?
  {
    hide Possible, Hinders;
  }

  lemma NextState(w: World, a: Section, now: Time)
    ensures Next(w, a, now).s == SectionState(w, a, now)
  {
    hide SectionState, SectionDead, SectionEvent;
  }

  lemma AskOwned(s: System, request: Request, now: Time)
    requires Owned(s) && Enabled(s, Ask(request))
    ensures Owned(Take(s, Ask(request), now))
  {
    hide Next, Publish;
    NextState(s.w, DoPublish(request), now);
    PublishMakes(s.w.s, s.w.dead, now, request);
  }

  lemma WaitOwned(s: System, timedOut: bool, now: Time)
    requires Owned(s) && Enabled(s, Wait(timedOut))
    ensures Owned(Take(s, Wait(timedOut), now))
  {
    hide Next, Poll;
    var a := DoPoll(s.stage.id, s.stage.asked, s.board.active.value.token, timedOut);
    NextState(s.w, a, now);
    SectionPending(s.w, a, now);
    PollClears(s.w.s, s.w.dead, now, a.id, a.ticket, a.token, timedOut);
  }

  lemma {:induction false} RunOwned(s: System, moments: seq<Protocol.Moment>)
    requires Owned(s) && AllEnabled(s, moments)
    ensures Owned(Protocol.Run(s, moments))
    decreases |moments|
  {
    hide Owned, Enabled, Take;
    if moments != [] {
      StepOwned(s, moments[0].step, moments[0].now);
      RunOwned(Take(s, moments[0].step, moments[0].now), moments[1..]);
    }
  }

  // ----- the moment of revocation -----

  /** The last thing a revocation of everything does while it holds the block. */
  predicate Wipes(s: System, t: nat, a: Section) {
    && t in s.threads && s.threads[t] == Blocker(Other, Holding)
    && ((a.DoRevokeAll? && s.w.s.revision < U64_MAX) || (a.DoReset? && s.w.s.lockEpoch < U64_MAX))
  }

  predicate Wiped(s: System) {
    s.w.s.grants == map[] && s.w.s.pending.None? && s.board.active.None? && RunningPairs(s.board) == {}
  }

  /** In every interleaving, when the thread that holds the block revokes all grants or resets, nothing is
      left: no grant, no request that a decision could still turn into grants, and no run. */
  lemma NothingIsLeft(moments: seq<Protocol.Moment>, t: nat, a: Section, now: Time)
    requires AllEnabled(START, moments) && Wipes(Protocol.Run(START, moments), t, a)
    ensures Enabled(Protocol.Run(START, moments), Env(a)) && Wiped(Take(Protocol.Run(START, moments), Env(a), now))
  {
    hide AllEnabled, Protocol.Run, Safe;
    ReachableIsSafe(moments);
    RunOwned(START, moments);
    OwnerIs(Protocol.Run(START, moments), t);
  }

  // ----- and from then on -----

  ghost predicate ConsentSince(log: seq<Event>, n: nat, upTo: nat, p: Pair) {
    exists d :: n <= d < upTo && d < |log| && ConsentsTo(log[d], p)
  }

  ghost predicate GrantsSince(w: World, n: nat) {
    forall p :: p in w.s.grants ==> ConsentSince(w.log, n, |w.log|, p)
  }

  /** Every grant there is, and every grant the pending request can still become, was consented to after
      entry `n`. */
  ghost predicate Since(w: World, n: nat) {
    && n <= |w.log| && GrantsSince(w, n)
    && (w.s.pending.Some? && w.s.pending.value.decision.Some? && Positive(w.s.pending.value.decision.value)
        && w.s.pending.value.request.client !in Disconnected(w.s, w.dead) ==>
          var q := w.s.pending.value.request;
          forall x :: x in q.secrets ==> ConsentSince(w.log, n, |w.log|, (q.client, x)))
  }

  lemma SinceGrows(log: seq<Event>, n: nat, p: Pair, e: Event)
    requires ConsentSince(log, n, |log|, p) || (n <= |log| && ConsentsTo(e, p))
    ensures ConsentSince(log + [e], n, |log| + 1, p)
  {
    if ConsentsTo(e, p) && n <= |log| {
      assert (log + [e])[|log|] == e;
    } else {
      var d :| n <= d < |log| && ConsentsTo(log[d], p);
      assert (log + [e])[d] == log[d];
    }
  }

  lemma SinceNext(w: World, a: Section, now: Time, n: nat)
    requires Sound(w) && Possible(w, a) && Since(w, n)
    ensures Since(Next(w, a, now), n)
  {
    hide Next, Sound, SectionEvent, ConsentSince, UndoesGrant, UndoesConsent, LockedSound, SessionsTame, CountsTame, AccessTame, Disconnected;
    var v, e := Next(w, a, now), SectionEvent(w, a, now);
    NextIsTame(w, a, now);
    NextLog(w, a, now);
    forall p | p in v.s.grants ensures ConsentSince(v.log, n, |v.log|, p) { SinceGrows(w.log, n, p, e); }
    if v.s.pending.Some? && v.s.pending.value.decision.Some? && Positive(v.s.pending.value.decision.value)
       && v.s.pending.value.request.client !in Disconnected(v.s, v.dead)
    {
      var q := v.s.pending.value.request;
      forall x | x in q.secrets ensures ConsentSince(v.log, n, |v.log|, (q.client, x)) { SinceGrows(w.log, n, (q.client, x), e); }
    }
  }

  lemma SinceNote(w: World, e: Event, n: nat)
    requires Since(w, n)
    ensures Since(w.(log := w.log + [e]), n)
  {
    hide ConsentSince, Disconnected;
    var v := w.(log := w.log + [e]);
    forall p | p in v.s.grants ensures ConsentSince(v.log, n, |v.log|, p) { SinceGrows(w.log, n, p, e); }
    if w.s.pending.Some? {
      var q := w.s.pending.value.request;
      forall x | x in q.secrets && ConsentSince(w.log, n, |w.log|, (q.client, x)) ensures ConsentSince(v.log, n, |v.log|, (q.client, x)) {
        SinceGrows(w.log, n, (q.client, x), e);
      }
    }
  }

  /** Every child launched from entry `n` on is bound only to pairs consented to between `n` and its launch. */
  ghost predicate LaunchesSince(log: seq<Event>, n: nat) {
    forall l, x :: n <= l < |log| && log[l].Launched? && x in log[l].secrets ==> ConsentSince(log, n, l, (log[l].client, x))
  }

  lemma LaunchesStay(log: seq<Event>, n: nat, e: Event)
    requires LaunchesSince(log, n) && n <= |log|
    requires e.Launched? ==> forall x :: x in e.secrets ==> ConsentSince(log, n, |log|, (e.client, x))
    ensures LaunchesSince(log + [e], n)
  {
    var longer := log + [e];
    forall l, x | n <= l < |longer| && longer[l].Launched? && x in longer[l].secrets ensures ConsentSince(longer, n, l, (longer[l].client, x)) {
      if l < |log| { assert longer[l] == log[l]; }
      var d :| n <= d < l && d < |log| && ConsentsTo(log[d], (longer[l].client, x));
      assert longer[d] == log[d];
    }
  }

  ghost predicate After(s: System, n: nat) { Since(s.w, n) && LaunchesSince(s.w.log, n) }

  lemma PerformAfter(s: System, a: Section, now: Time, v: System, n: nat)
    requires Safe(s) && Possible(s.w, a) && After(s, n) && v.w == Next(s.w, a, now)
    ensures After(v, n)
  {
    hide Safe, Next, Sound, SectionEvent, ConsentSince, GrantsSince;
    SafeParts(s);
    SinceNext(s.w, a, now, n);
    NextLog(s.w, a, now);
    EventKinds(s.w, a, now);
    LaunchesStay(s.w.log, n, SectionEvent(s.w, a, now));
  }

  lemma NoteAfter(s: System, e: Event, v: System, n: nat)
    requires After(s, n) && v.w == s.w.(log := s.w.log + [e])
    requires e.Launched? ==> forall x :: x in e.secrets ==> ConsentSince(s.w.log, n, |s.w.log|, (e.client, x))
    ensures After(v, n)
  {
    hide ConsentSince, GrantsSince, Disconnected;
    SinceNote(s.w, e, n);
    LaunchesStay(s.w.log, n, e);
  }

  lemma LaunchAfter(s: System, spawned: bool, underLock: bool, n: nat)
    requires After(s, n) && s.board.active.Some? && s.board.active.value.ids.Some?
    requires forall x :: x in s.board.active.value.ids.value ==> ConsentSince(s.w.log, n, |s.w.log|, (s.board.active.value.client, x))
    ensures After(Launch(s, spawned, underLock), n)
  {
    hide After, ConsentSince;
    var a := s.board.active.value;
    if SpawnChild(s.board, a.token in s.w.dead, spawned).Err? {
      SameAfter(s, Launch(s, spawned, underLock), n);
    } else if underLock {
      var c := Cleared(s.run, a.client, a.ids.value);
      var u := Note(s, c);
      NoteAfter(s, c, u, n);
      forall x | x in a.ids.value ensures ConsentSince(u.w.log, n, |u.w.log|, (a.client, x)) { SinceGrows(s.w.log, n, (a.client, x), c); }
      NoteAfter(u, Launched(a.client, a.ids.value), Launch(s, spawned, underLock), n);
    } else {
      NoteAfter(s, Launched(a.client, a.ids.value), Launch(s, spawned, underLock), n);
    }
  }

  lemma SameAfter(s: System, v: System, n: nat)
    requires After(s, n) && v.w == s.w
    ensures After(v, n)
  {
    hide Since, LaunchesSince;
  }

  lemma LaunchBoundAfter(s: System, spawned: bool, now: Time, n: nat)
    requires Safe(s) && After(s, n) && Enabled(s, LaunchBound(spawned))
    ensures After(Take(s, LaunchBound(spawned), now), n)
  {
    hide Safe, Sound, Next, Valid, Launch, SectionEvent, ConsentSince, After;
    SafeParts(s);
    var k := s.stage.ticket;
    var v := Perform(s, DoValid(k), now);
    PerformAfter(s, DoValid(k), now, v, n);
    if Valid(s.w.s, s.w.dead, now, k).1 && s.board.active.value.ids.Some? {
      ValidIsGranted(s.w.s, s.w.dead, now, k);
      NextLog(s.w, DoValid(k), now);
      AfterGrants(s, n);
      forall x | x in s.board.active.value.ids.value ensures ConsentSince(v.w.log, n, |v.w.log|, (s.board.active.value.client, x)) {
        SinceGrows(s.w.log, n, (k.client, x), SectionEvent(s.w, DoValid(k), now));
      }
      LaunchAfter(v, spawned, !s.w.s.access.Active?, n);
    } else {
      SameAfter(v, Ended(v), n);
    }
  }

  lemma AfterGrants(s: System, n: nat)
    requires After(s, n)
    ensures forall p :: p in s.w.s.grants ==> ConsentSince(s.w.log, n, |s.w.log|, p)
  {
    hide ConsentSince, LaunchesSince;
  }

  lemma PlainCheckAfter(s: System, now: Time, n: nat)
    requires Safe(s) && After(s, n) && Enabled(s, PlainCheck)
    ensures After(Take(s, PlainCheck, now), n)
  {
    hide Safe, Next, After, RequireAccess;
    var client := s.board.active.value.client;
    var u := Perform(s, DoRequireAccess(client), now);
    PerformAfter(s, DoRequireAccess(client), now, u, n);
    var e := Cleared(s.run, client, []);
    NoteAfter(u, e, Note(u, e), n);
    if RequireAccess(s.w.s, s.w.dead, now, client).1 && !s.w.s.access.Active? {
      SameAfter(Note(u, e), Take(s, PlainCheck, now), n);
    } else {
      SameAfter(u, Take(s, PlainCheck, now), n);
    }
  }

  lemma CheckCoveredAfter(s: System, t: nat, now: Time, n: nat)
    requires Safe(s) && After(s, n) && Enabled(s, CheckCovered(t))
    ensures After(Take(s, CheckCovered(t), now), n)
  {
    hide Safe, Next, After, UnattendedCovers;
    match s.threads[t].stage.seen
    case None => SameAfter(s, Take(s, CheckCovered(t), now), n);
    case Some(run) =>
      var ids := if run.ids.Some? then run.ids.value else [];
      var u := Perform(s, DoCovers(run.client, ids), now);
      PerformAfter(s, DoCovers(run.client, ids), now, u, n);
      var e := Cleared(run.run, run.client, ids);
      NoteAfter(u, e, Note(u, e), n);
      if UnattendedCovers(s.w.s, s.w.dead, now, run.client, ids).1 {
        SameAfter(Note(u, e), Take(s, CheckCovered(t), now), n);
      } else {
        SameAfter(u, Take(s, CheckCovered(t), now), n);
      }
  }

  lemma StepAfter(s: System, step: Step, now: Time, n: nat)
    requires Safe(s) && After(s, n) && Enabled(s, step)
    ensures After(Take(s, step, now), n)
  {
    hide Safe, Next, After, Take, Enabled, SectionOf, Possible;
    match step
    case PlainCheck => PlainCheckAfter(s, now, n);
    case LaunchPlain(spawned) => LaunchPlainAfter(s, spawned, now, n);
    case LaunchBound(spawned) => LaunchBoundAfter(s, spawned, now, n);
    case CheckCovered(t) => CheckCoveredAfter(s, t, now, n);
    case _ =>
      TakeIsSection(s, step, now);
      var v := Take(s, step, now);
      if SectionOf(s, step).Some? {
        PerformAfter(s, SectionOf(s, step).value, now, v, n);
      } else {
        SameAfter(s, v, n);
      }
  }

  lemma LaunchPlainAfter(s: System, spawned: bool, now: Time, n: nat)
    requires Safe(s) && After(s, n) && Enabled(s, LaunchPlain(spawned))
    ensures After(Take(s, LaunchPlain(spawned), now), n)
  {
    hide Safe, Sound, After, Launch;
    SafeParts(s);
    LaunchAfter(s, spawned, false, n);
  }

  lemma {:induction false} RunAfter(s: System, moments: seq<Protocol.Moment>, n: nat)
    requires Safe(s) && After(s, n) && AllEnabled(s, moments)
    ensures After(Protocol.Run(s, moments), n)
    decreases |moments|
  {
    hide Safe, After, Enabled, Take;
    if moments != [] {
      StepAfter(s, moments[0].step, moments[0].now, n);
      TakeKeeps(s, moments[0].step, moments[0].now);
      RunAfter(Take(s, moments[0].step, moments[0].now), moments[1..], n);
    }
  }

  lemma WipedIsAfter(s: System)
    requires Wiped(s)
    ensures After(s, |s.w.log|)
  {}

  /** Revoking everything is final: in every continuation of every interleaving, a grant that exists and a
      child that is launched rest on a consent given after it. A decision made before it gives nothing,
      whenever its waiter runs. */
  lemma RevokeEverythingIsFinal(before: seq<Protocol.Moment>, t: nat, a: Section, now: Time, after: seq<Protocol.Moment>)
    requires AllEnabled(START, before) && Wipes(Protocol.Run(START, before), t, a)
    requires AllEnabled(Take(Protocol.Run(START, before), Env(a), now), after)
    ensures var v := Take(Protocol.Run(START, before), Env(a), now);
            var u := Protocol.Run(v, after);
            && (forall p :: p in u.w.s.grants ==> ConsentSince(u.w.log, |v.w.log|, |u.w.log|, p))
            && LaunchesSince(u.w.log, |v.w.log|)
  {
    hide AllEnabled, Protocol.Run, Safe, Wiped, Take, Enabled, LaunchesSince, ConsentSince, Wipes;
    var s := Protocol.Run(START, before);
    ReachableIsSafe(before);
    NothingIsLeft(before, t, a, now);
    var v := Take(s, Env(a), now);
    TakeKeeps(s, Env(a), now);
    WipedIsAfter(v);
    RunAfter(v, after, |v.w.log|);
  }
}
