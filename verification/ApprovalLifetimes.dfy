/**
 How long an approval is good for, over whole runs of the approval coordinator: as long as the person who
 made it chose, unless it is undone, and no longer.
*/
module ApprovalLifetimes {
  import opened Bytes
  import opened Model
  import opened Grants
  import opened Approval
  import opened ApprovalMeaning
  import opened ApprovalTrace

  /** In this section the client is told that it may use the secret, without anyone being asked. */
  predicate Releases(w: World, a: Section, now: Time, p: Pair) {
    match a
    case DoPublish(request) =>
      var r := Publish(w.s, w.dead, now, request).1;
      r.Issued? && p.0 == r.ticket.client && p.1 in r.ticket.secrets
    case DoValid(ticket) => Valid(w.s, w.dead, now, ticket).1 && p.0 == ticket.client && p.1 in ticket.secrets
    case DoPoll(id, ticket, token, timedOut) =>
      && Poll(w.s, w.dead, now, id, ticket, token, timedOut).1 == Settled(Ok(ticket))
      && DecisionNow(w.s, w.dead, id) == Some(Decision.Granted)
      && p.0 == ticket.client && p.1 in ticket.secrets
    case _ => false
  }

  lemma PublishReleasesHeld(s: State, dead: set<Token>, now: Time, request: Request, x: Secret)
    requires Publish(s, dead, now, request).1.Issued? && x in Publish(s, dead, now, request).1.ticket.secrets
    ensures Publish(s, dead, now, request).1.ticket.client == request.client && Held(s, dead, now, (request.client, x))
  {
    hide Publish, Gone;
    if s.access.Active? { ActivePublishExactly(s, dead, now, request); } else { LockedPublishExactly(s, dead, now, request); }
  }

  /** Only what is granted and not over is released. */
  lemma ReleasedIsHeld(w: World, a: Section, now: Time, p: Pair)
    requires Releases(w, a, now, p)
    ensures Held(w.s, w.dead, now, p)
  {
    hide Publish, Poll, Valid, Held;
    match a
    case DoPublish(request) => PublishReleasesHeld(w.s, w.dead, now, request, p.1);
    case DoValid(ticket) => ValidExactly(w.s, w.dead, now, ticket);
    case DoPoll(id, ticket, token, timedOut) => PollExactly(w.s, w.dead, now, id, ticket, token, timedOut);
  }

  // ----- a grant changes only by being made anew -----

  lemma StepGivesNothing(w: World, a: Section, now: Time, p: Pair)
    requires Sound(w) && Possible(w, a) && !Makes(SectionEvent(w, a, now), p) && p in Next(w, a, now).s.grants
    ensures p in w.s.grants && w.s.grants[p] == Next(w, a, now).s.grants[p]
  {
    hide Sound, SectionEvent, SectionState, SectionDead, PendingTame, SessionsTame, CountsTame, AccessTame, LockedSound, UndoesGrant, Disconnected;
    NextIsTame(w, a, now);
  }

  /** Nothing the run wrote after the first `n` entries makes the pair. */
  ghost predicate NotMadeSince(log: seq<Event>, n: nat, p: Pair) { forall i :: n <= i < |log| ==> !Makes(log[i], p) }

  lemma FirstEntry(w: World, turns: seq<Turn>)
    requires turns != []
    ensures |w.log| < |ApprovalTrace.Run(w, turns).log|
    ensures ApprovalTrace.Run(w, turns).log[|w.log|] == SectionEvent(w, turns[0].section, turns[0].now)
    ensures |Next(w, turns[0].section, turns[0].now).log| == |w.log| + 1
  {
    hide SectionEvent, SectionState, SectionDead;
    RunExtends(Next(w, turns[0].section, turns[0].now), turns[1..]);
  }

  lemma {:induction false} RunGivesNothing(w: World, turns: seq<Turn>, p: Pair)
    requires Sound(w) && AllPossible(w, turns) && NotMadeSince(ApprovalTrace.Run(w, turns).log, |w.log|, p)
    requires p in ApprovalTrace.Run(w, turns).s.grants
    ensures p in w.s.grants && w.s.grants[p] == ApprovalTrace.Run(w, turns).s.grants[p]
    decreases |turns|
  {
    hide Sound, Possible, Next, Makes;
    if turns != [] {
      var v := Next(w, turns[0].section, turns[0].now);
      FirstEntry(w, turns);
      NextKeeps(w, turns[0].section, turns[0].now);
      RunGivesNothing(v, turns[1..], p);
      StepGivesNothing(w, turns[0].section, turns[0].now, p);
    }
  }

  // ----- a grant that nothing undoes stays until it is over -----

  /** Sections that only move between lock states, or cut connections. */
  lemma QuietStays(w: World, a: Section, now: Time, p: Pair)
    requires a.DoFinishLock? || a.DoUnlockApp? || a.DoCut?
    requires Held(w.s, w.dead, now, p) && !UndoesGrant(SectionEvent(w, a, now), p, w.s.grants[p].Unattended?)
    ensures Stays(w, Next(w, a, now), p)
  {
  }

  /** The pair is granted as before, and its client is not lost. */
  ghost predicate Stays(w: World, v: World, p: Pair) {
    p in w.s.grants && p in v.s.grants && v.s.grants[p] == w.s.grants[p] && !Lost(v.s, v.dead, p.0)
  }

  lemma LockStays(w: World, a: Section, now: Time, p: Pair)
    requires a.DoBeginLock? || a.DoReset? || a.DoCancelPending? || a.DoRevokeAll?
    requires Held(w.s, w.dead, now, p) && !UndoesGrant(SectionEvent(w, a, now), p, w.s.grants[p].Unattended?)
    ensures Stays(w, Next(w, a, now), p)
  {
    hide Live, Before;
    LiveIsBefore(w.s.grants[p], now);
  }

  lemma RevokeStays(w: World, a: Section, now: Time, p: Pair)
    requires a.DoRevokePair? || a.DoRevokeClient? || a.DoMutate?
    requires Held(w.s, w.dead, now, p) && !UndoesGrant(SectionEvent(w, a, now), p, w.s.grants[p].Unattended?)
    ensures Stays(w, Next(w, a, now), p)
  {
    hide Live, Before;
    LiveIsBefore(w.s.grants[p], now);
  }

  /** A section that drops the lost clients and perhaps looks at the grants. */
  ghost predicate OnlyLooks(w: World, v: World, now: Time) {
    && v.dead == w.dead && v.s.clientSessions == Gone(w.s, w.dead).clientSessions
    && (v.s.grants == Gone(w.s, w.dead).grants || v.s.grants == Purge(Gone(w.s, w.dead).grants, now))
  }

  lemma LookingOnlyLooks(w: World, a: Section, now: Time)
    requires a.DoValid? || a.DoRequireAccess? || a.DoCovers? || a.DoLook? || a.DoDecide?
    ensures OnlyLooks(w, Next(w, a, now), now)
  {
    hide Gone, Purge, Covered, ClientHasUnattended, MissingIn, SectionEvent, Decide;
    if a.DoDecide? { DecidingOnlyLooks(w.s, w.dead, now, a.id, a.decision); }
  }

  lemma DecidingOnlyLooks(s: State, dead: set<Token>, now: Time, id: Uid, d: Decision)
    ensures var t := Decide(s, dead, now, id, d).0;
            && t.clientSessions == Gone(s, dead).clientSessions
            && (t.grants == Gone(s, dead).grants || t.grants == Purge(Gone(s, dead).grants, now))
  {
    hide Gone, Purge;
  }

  lemma LookStays(w: World, a: Section, now: Time, p: Pair)
    requires a.DoValid? || a.DoRequireAccess? || a.DoCovers? || a.DoLook? || a.DoDecide?
    requires Held(w.s, w.dead, now, p)
    ensures Stays(w, Next(w, a, now), p)
  {
    hide Gone, Purge, Before, Next;
    LookingOnlyLooks(w, a, now);
    GoneMeans(w.s, w.dead);
    PurgeMeans(w.s, w.dead, now);
    PurgeIsLess(Gone(w.s, w.dead).grants, now);
  }

  lemma RegisterStays(w: World, client: Client, token: Token, connection: Uid, now: Time, p: Pair)
    requires Held(w.s, w.dead, now, p)
    requires !UndoesGrant(SectionEvent(w, DoRegister(client, token, connection), now), p, w.s.grants[p].Unattended?)
    ensures Stays(w, Next(w, DoRegister(client, token, connection), now), p)
  {
    hide Gone, Register, Before, Purge;
    RegisterExactly(w.s, w.dead, client, token, connection);
  }

  lemma CloseStays(w: World, now: Time, p: Pair)
    requires Held(w.s, w.dead, now, p) && !UndoesGrant(SectionEvent(w, DoClose, now), p, w.s.grants[p].Unattended?)
    ensures Stays(w, Next(w, DoClose, now), p)
  {
    hide Gone, Before, Purge;
    CloseExactly(w.s, w.dead);
    var after := w.dead + w.s.clientSessions.Values;
    GoneMeans(w.s.(closed := true), after);
    assert !Lost(w.s.(closed := true), after, p.0);
  }

  lemma PublishStays(w: World, request: Request, now: Time, p: Pair)
    requires Held(w.s, w.dead, now, p)
    requires !UndoesGrant(SectionEvent(w, DoPublish(request), now), p, w.s.grants[p].Unattended?)
    ensures Stays(w, Next(w, DoPublish(request), now), p)
  {
    hide Gone, Purge, Before, Publish;
    GoneMeans(w.s, w.dead);
    PurgeMeans(w.s, w.dead, now);
    PurgeIsLess(Gone(w.s, w.dead).grants, now);
    PublishOnlyLooks(w.s, w.dead, now, request);
  }

  lemma PublishOnlyLooks(s: State, dead: set<Token>, now: Time, request: Request)
    ensures var t, gone := Publish(s, dead, now, request).0, Gone(s, dead);
            && t.clientSessions == gone.clientSessions
            && ((gone.access.Active? && gone.pending.None? && gone.vault != Some(request.vault))
                || t.grants == gone.grants || t.grants == Purge(gone.grants, now))
  {
    hide Gone, Purge, Covered, MissingIn, Filter, Distinct;
  }

  lemma CaptureStays(w: World, client: Client, snapshot: Result<Uid>, now: Time, p: Pair)
    requires Held(w.s, w.dead, now, p)
    requires !UndoesGrant(SectionEvent(w, DoCapture(client, snapshot), now), p, w.s.grants[p].Unattended?)
    ensures Stays(w, Next(w, DoCapture(client, snapshot), now), p)
  {
    hide Gone, Before;
    GoneMeans(w.s, w.dead);
  }

  lemma GrantUnattendedStays(w: World, a: Section, now: Time, p: Pair)
    requires a.DoGrantUnattended? && Held(w.s, w.dead, now, p) && !Makes(SectionEvent(w, a, now), p)
    ensures Stays(w, Next(w, a, now), p)
  {
    hide Gone, Purge, Before, Live;
    GoneMeans(w.s, w.dead);
    PurgeMeans(w.s, w.dead, now);
  }

  lemma PollStays(w: World, a: Section, now: Time, p: Pair)
    requires a.DoPoll? && Held(w.s, w.dead, now, p) && !Makes(SectionEvent(w, a, now), p)
    ensures Stays(w, Next(w, a, now), p)
  {
    hide Gone, Purge, Before, Poll, DecisionFor, DecisionNow, Lost, Held;
    GoneMeans(w.s, w.dead);
    PollSessions(w.s, w.dead, now, a.id, a.ticket, a.token, a.timedOut);
    HeldIsNotLost(w.s, w.dead, now);
    PollExactly(w.s, w.dead, now, a.id, a.ticket, a.token, a.timedOut);
    if Poll(w.s, w.dead, now, a.id, a.ticket, a.token, a.timedOut).1 == Settled(Ok(a.ticket))
       && DecisionNow(w.s, w.dead, a.id).Some? && Positive(DecisionNow(w.s, w.dead, a.id).value) {
      ApprovalGives(w.s, w.dead, now, a.id, a.ticket, a.token, a.timedOut);
    } else {
      PollGivesNothing(w.s, w.dead, now, a.id, a.ticket, a.token, a.timedOut, p);
    }
  }

  lemma PollSessions(s: State, dead: set<Token>, now: Time, id: Uid, ticket: Ticket, token: Token, timedOut: bool)
    ensures Poll(s, dead, now, id, ticket, token, timedOut).0.clientSessions == Gone(s, dead).clientSessions
    ensures forall c :: !Lost(Poll(s, dead, now, id, ticket, token, timedOut).0, dead, c)
  {
    hide Gone, Poll;
    GoneMeans(s, dead);
    PollKeepsTheRest(s, dead, now, id, ticket, token, timedOut);
  }

  lemma StepStays(w: World, a: Section, now: Time, p: Pair)
    requires Held(w.s, w.dead, now, p)
    requires !Makes(SectionEvent(w, a, now), p) && !UndoesGrant(SectionEvent(w, a, now), p, w.s.grants[p].Unattended?)
    ensures Stays(w, Next(w, a, now), p)
  {
    hide Held, Stays, SectionEvent, Next, Makes, UndoesGrant;
    match a
    case DoPublish(request) => PublishStays(w, request, now, p);
    case DoCapture(client, snapshot) => CaptureStays(w, client, snapshot, now, p);
    case DoPoll(_, _, _, _) => PollStays(w, a, now, p);
    case DoGrantUnattended(_, _, _, _) => GrantUnattendedStays(w, a, now, p);
    case DoRegister(client, token, connection) => RegisterStays(w, client, token, connection, now, p);
    case DoClose => CloseStays(w, now, p);
    case DoFinishLock(_) => QuietStays(w, a, now, p);
    case DoUnlockApp(_) => QuietStays(w, a, now, p);
    case DoCut(_) => QuietStays(w, a, now, p);
    case DoBeginLock(_) => LockStays(w, a, now, p);
    case DoReset => LockStays(w, a, now, p);
    case DoCancelPending => LockStays(w, a, now, p);
    case DoRevokeAll => LockStays(w, a, now, p);
    case DoRevokePair(_, _) => RevokeStays(w, a, now, p);
    case DoRevokeClient(_) => RevokeStays(w, a, now, p);
    case DoMutate(_, _, _) => RevokeStays(w, a, now, p);
    case _ => LookStays(w, a, now, p);
  }

  /** Since entry `n` nothing has made the pair anew or undone its grant. */
  ghost predicate LeftAlone(log: seq<Event>, n: nat, p: Pair, unattended: bool) {
    forall i :: n <= i < |log| ==> !Makes(log[i], p) && !UndoesGrant(log[i], p, unattended)
  }

  lemma {:induction false} RunStays(w: World, turns: seq<Turn>, p: Pair)
    requires p in w.s.grants && !Lost(w.s, w.dead, p.0)
    requires LeftAlone(ApprovalTrace.Run(w, turns).log, |w.log|, p, w.s.grants[p].Unattended?)
    requires forall k :: 0 <= k < |turns| ==> Before(w.s.grants[p], turns[k].now)
    ensures var v := ApprovalTrace.Run(w, turns);
            p in v.s.grants && v.s.grants[p] == w.s.grants[p] && !Lost(v.s, v.dead, p.0)
    decreases |turns|
  {
    hide Next, Makes, UndoesGrant, Before, Lost;
    if turns != [] {
      var v := Next(w, turns[0].section, turns[0].now);
      FirstEntry(w, turns);
      HeldNow(w.s, w.dead, turns[0].now, p);
      StepStays(w, turns[0].section, turns[0].now, p);
      RunStays(v, turns[1..], p);
    }
  }

  lemma HeldNow(s: State, dead: set<Token>, now: Time, p: Pair)
    requires p in s.grants && !Lost(s, dead, p.0) && Before(s.grants[p], now)
    ensures Held(s, dead, now, p)
  {}

  /** In `w` the waiter turns a person's decision on a request into grants, one of them for `p`. */
  predicate Approves(w: World, start: Time, id: Uid, ticket: Ticket, token: Token, timedOut: bool, p: Pair) {
    && Poll(w.s, w.dead, start, id, ticket, token, timedOut).1 == Settled(Ok(ticket))
    && DecisionNow(w.s, w.dead, id).Some? && Positive(DecisionNow(w.s, w.dead, id).value)
    && w.s.pending.value.request.client == p.0 && p.1 in w.s.pending.value.request.secrets
  }

  lemma ApprovedHas(w: World, start: Time, id: Uid, ticket: Ticket, token: Token, timedOut: bool, p: Pair)
    requires Approves(w, start, id, ticket, token, timedOut, p)
    ensures var v := Next(w, DoPoll(id, ticket, token, timedOut), start);
            && p in v.s.grants && v.s.grants[p] == Chosen(DecisionNow(w.s, w.dead, id).value, start)
            && !Lost(v.s, v.dead, p.0)
  {
    hide Poll, DecisionNow, Chosen, SectionEvent, Lost;
    ApprovalGives(w.s, w.dead, start, id, ticket, token, timedOut);
    PollSessions(w.s, w.dead, start, id, ticket, token, timedOut);
  }

  /** An approval is good no longer than was chosen. In every run: after an approval has become grants, and
      as long as no new grant is made for the pair, the secret is released without asking only before the
      end of the lifetime given, before the moment named, or, for a session grant, at any time. */
  lemma ApprovalEnds(before: seq<Turn>, start: Time, id: Uid, ticket: Ticket, token: Token, timedOut: bool,
                     after: seq<Turn>, a: Section, now: Time, p: Pair)
    requires AllPossible(BEGINNING, before)
    requires Approves(ApprovalTrace.Run(BEGINNING, before), start, id, ticket, token, timedOut, p)
    requires var v := Next(ApprovalTrace.Run(BEGINNING, before), DoPoll(id, ticket, token, timedOut), start);
             AllPossible(v, after) && NotMadeSince(ApprovalTrace.Run(v, after).log, |v.log|, p)
             && Releases(ApprovalTrace.Run(v, after), a, now, p)
    ensures var w := ApprovalTrace.Run(BEGINNING, before);
            match DecisionNow(w.s, w.dead, id).value
            case Approve(Some(lifetime)) => now.elapsed < Saturate(start.elapsed + Saturate(lifetime / 1_000_000))
            case Approve(None) => now.elapsed < Saturate(start.elapsed + 30 * 60 * 1000)
            case ApproveUntil(time) => now.wall < time
            case _ => true
  {
    hide ApprovalTrace.Run, AllPossible, Sound, Approves, Releases, Next, DecisionNow, NotMadeSince;
    var w := ApprovalTrace.Run(BEGINNING, before);
    var poll := DoPoll(id, ticket, token, timedOut);
    var v := Next(w, poll, start);
    RunIsSound(before);
    PollIsPossible(w, poll);
    NextKeeps(w, poll, start);
    ReleasedIsHeld(ApprovalTrace.Run(v, after), a, now, p);
    RunGivesNothing(v, after, p);
    ApprovesPositively(w, start, id, ticket, token, timedOut, p);
    ApprovedHas(w, start, id, ticket, token, timedOut, p);
  }

  lemma ApprovesPositively(w: World, start: Time, id: Uid, ticket: Ticket, token: Token, timedOut: bool, p: Pair)
    requires Approves(w, start, id, ticket, token, timedOut, p)
    ensures DecisionNow(w.s, w.dead, id).Some? && Positive(DecisionNow(w.s, w.dead, id).value)
  {
    hide DecisionNow, Poll;
  }

  lemma PollIsPossible(w: World, a: Section)
    requires a.DoPoll?
    ensures Possible(w, a)
  {}

  /** And it is good as long as was chosen: while nothing undoes it and no section comes after its end, the
      pair stays granted, so that a request for that secret is answered at once. */
  lemma ApprovalHolds(before: seq<Turn>, start: Time, id: Uid, ticket: Ticket, token: Token, timedOut: bool,
                      after: seq<Turn>, now: Time, p: Pair, again: Request)
    requires AllPossible(BEGINNING, before)
    requires Approves(ApprovalTrace.Run(BEGINNING, before), start, id, ticket, token, timedOut, p)
    requires var w := ApprovalTrace.Run(BEGINNING, before);
             var v := Next(w, DoPoll(id, ticket, token, timedOut), start);
             && LeftAlone(ApprovalTrace.Run(v, after).log, |v.log|, p, false)
             && Before(Chosen(DecisionNow(w.s, w.dead, id).value, start), now)
             && forall k :: 0 <= k < |after| ==> Before(Chosen(DecisionNow(w.s, w.dead, id).value, start), after[k].now)
    requires again.client == p.0 && again.secrets == [p.1]
    ensures var v := Next(ApprovalTrace.Run(BEGINNING, before), DoPoll(id, ticket, token, timedOut), start);
            var u := ApprovalTrace.Run(v, after);
            && Held(u.s, u.dead, now, p)
            && (u.s.access.Active? && u.s.pending.None? && u.s.vault == Some(again.vault) ==>
                  Publish(u.s, u.dead, now, again).1.Issued?)
  {
    hide ApprovalTrace.Run, AllPossible, Approves, Next, DecisionNow, LeftAlone, Before, Chosen, Lost, Publish;
    var w := ApprovalTrace.Run(BEGINNING, before);
    var v := Next(w, DoPoll(id, ticket, token, timedOut), start);
    ApprovesPositively(w, start, id, ticket, token, timedOut, p);
    ApprovedHas(w, start, id, ticket, token, timedOut, p);
    ChosenIsAttended(DecisionNow(w.s, w.dead, id).value, start);
    RunStays(v, after, p);
    var u := ApprovalTrace.Run(v, after);
    HeldNow(u.s, u.dead, now, p);
    if u.s.access.Active? && u.s.pending.None? && u.s.vault == Some(again.vault) {
      assert AllHeld(u.s, u.dead, now, again.client, again.secrets);
      ActivePublishExactly(u.s, u.dead, now, again);
    }
  }

  lemma ChosenIsAttended(d: Decision, now: Time)
    requires Positive(d)
    ensures !Chosen(d, now).Unattended?
  {}
}
