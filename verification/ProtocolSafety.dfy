/** What every interleaving of the run, revocation and lock protocol keeps. */
module ProtocolSafety {
  import opened Bytes
  import opened Model
  import opened Grants
  import opened Approval
  import opened ApprovalTrace
  import opened Runs
  import opened Protocol

  // ----- the invariant -----

  /** A block is held by one thread at a time, and the coordinator knows. */
  predicate BlocksSound(s: System) {
    && (s.board.blockNew <==> s.owner.Some?)
    && forall t :: t in s.threads && s.threads[t].Blocker? && !s.threads[t].hold.Outside? ==> s.owner == Some(t)
  }

  /** A ticket is for the client and the secrets the run is bound to. */
  predicate Fits(k: Ticket, a: ActiveRun<Token>) {
    && a.ids.Some? && k.client == a.client
    && (forall x :: x in k.secrets ==> x in a.ids.value) && (forall x :: x in a.ids.value ==> x in k.secrets)
  }

  predicate RunSound(s: System) {
    s.board.active.Some? ==>
      var a := s.board.active.value;
      && (a.running <==> s.stage.Running?)
      && (s.stage.Reserved? || s.stage.Allowed? <==> a.ids.None?)
      && (s.stage.Asking? ==> Fits(s.stage.asked, a))
      && (s.stage.Ticketed? ==> Fits(s.stage.ticket, a))
      && (s.stage.Ready? ==> a.ids == Some([]))
  }

  predicate Revoked(e: Event, p: Pair) { e == PairRevoked(p.0, p.1) || e == ClientRevoked(p.0) }

  ghost predicate ConsentedAt(log: seq<Event>, p: Pair, d: nat) {
    && d < |log| && ConsentsTo(log[d], p)
    && forall i :: d < i < |log| ==> !Revoked(log[i], p)
  }

  /** There is a consent to the pair that no revocation of the pair or the client has followed. */
  ghost predicate Consent(log: seq<Event>, p: Pair) { exists d: nat :: ConsentedAt(log, p, d) }

  ghost predicate ChildSound(s: System) {
    s.board.active.Some? && s.stage.Running? && s.board.active.value.ids.Some? ==>
      forall x :: x in s.board.active.value.ids.value ==> Consent(s.w.log, (s.board.active.value.client, x))
  }

  /** A thread that no longer has to wait, or is done waiting, has nothing to wait for. */
  predicate WaitsSound(s: System) {
    forall t :: t in s.threads && s.threads[t].Blocker? && (s.threads[t].hold == Blocking(false) || s.threads[t].hold.Holding?) ==>
      !Hinders(s.threads[t].goal, s.board)
  }

  predicate EpochOk(s: System, thread: Thread) {
    match thread
    case Auto(e, _) => e <= s.w.s.lockEpoch && (e == s.w.s.lockEpoch ==> !s.manual)
    case Blocker(goal, _) => goal.ManualLock? ==> goal.epoch <= s.w.s.lockEpoch && (goal.epoch == s.w.s.lockEpoch ==> s.manual)
  }

  predicate EpochsSound(s: System) { forall t :: t in s.threads ==> EpochOk(s, s.threads[t]) }

  /** From a manual lock's beginning to the unlock there is no grant, and once it has finished there is no
      run that got further than its reservation. */
  predicate ManualSound(s: System) {
    && (!s.w.s.access.Active? && s.manual ==> s.w.s.grants == map[])
    && (s.w.s.access.Locked? && s.manual && s.board.active.Some? ==> s.stage.Reserved?)
  }

  ghost predicate ClearedAt(s: System, k: nat) {
    && s.board.active.Some? && s.board.active.value.ids.Some? && s.lockStart <= k < |s.w.log|
    && s.w.log[k] == Cleared(s.run, s.board.active.value.client, s.board.active.value.ids.value)
  }

  /** The child runs, or is about to without another check, and nothing since the lock began has found
      unattended grants for all it is bound to. */
  ghost predicate Risky(s: System) {
    s.board.active.Some? && (s.stage.Ready? || s.stage.Running?) && !exists k: nat :: ClearedAt(s, k)
  }

  ghost predicate AutoOk(s: System, stage: AutoStage) {
    Risky(s) ==>
      var a := s.board.active.value;
      match stage
      case Begun => true
      case Looked(seen) => seen == Some(Snapshot(s.run, a.token, a.client, a.ids))
      case Doomed(token) => token == a.token
      case Checked => a.token in s.w.dead
      case Passed => false
  }

  ghost predicate AutoSound(s: System) {
    && s.lockStart <= |s.w.log|
    && (s.w.s.access.Locking? && !s.manual ==>
          forall t :: t in s.threads && s.threads[t].Auto? && s.threads[t].epoch == s.w.s.lockEpoch ==> AutoOk(s, s.threads[t].stage))
    && (s.w.s.access.Locked? && !s.manual ==> !Risky(s))
  }

  /** In the log, a child is only launched with a secret whose pair was consented to after each
      revocation of it. */
  ghost predicate LaunchesSound(log: seq<Event>) {
    forall r, l, x :: 0 <= r < l < |log| && log[l].Launched? && x in log[l].secrets && Revoked(log[r], (log[l].client, x)) ==>
      ConsentBetween(log, r, l, (log[l].client, x))
  }

  ghost predicate Safe(s: System) {
    && Sound(s.w) && BlocksSound(s) && RunSound(s) && ChildSound(s) && WaitsSound(s)
    && EpochsSound(s) && ManualSound(s) && AutoSound(s) && LaunchesSound(s.w.log)
  }

  // ----- what a section can add to the log -----

  lemma EventKinds(w: World, a: Section, now: Time)
    ensures var e := SectionEvent(w, a, now);
            && (e.PairRevoked? ==> a == DoRevokePair(e.client, e.secret))
            && (e.ClientRevoked? ==> a == DoRevokeClient(e.client))
            && (e.LockBegun? ==> a == DoBeginLock(e.preserve))
            && (e.LockFinished? ==> a.DoFinishLock?)
            && !e.Launched? && !e.Cleared?
  {
    hide Gone, Publish, Poll, Decide, Register, BeginLock, FinishLock, UnlockApp, Reset, Approval.RevokeAll, Approval.RevokePair, Approval.RevokeClient, GrantUnattended, DecisionFor;
  }

  lemma DeadGrows(w: World, a: Section)
    ensures w.dead <= SectionDead(w, a)
  {
    hide Gone;
  }

  lemma ConsentGrows(log: seq<Event>, p: Pair, e: Event)
    requires Consent(log, p) && !Revoked(e, p)
    ensures Consent(log + [e], p)
  {
    var d: nat :| ConsentedAt(log, p, d);
    assert ConsentedAt(log + [e], p, d);
  }

  /** A consent between `r` and `l`. */
  ghost predicate ConsentBetween(log: seq<Event>, r: nat, l: nat, p: Pair) {
    exists d :: r < d < l && d < |log| && ConsentsTo(log[d], p)
  }

  lemma ConsentStays(log: seq<Event>, e: Event, r: nat, l: nat, p: Pair)
    requires ConsentBetween(log, r, l, p)
    ensures ConsentBetween(log + [e], r, l, p)
  {
    var d :| r < d < l && d < |log| && ConsentsTo(log[d], p);
    assert (log + [e])[d] == log[d];
  }

  lemma ConsentAfter(log: seq<Event>, r: nat, p: Pair)
    requires Consent(log, p) && r < |log| && Revoked(log[r], p)
    ensures ConsentBetween(log, r, |log|, p)
  {
    var d: nat :| ConsentedAt(log, p, d);
    RevokedIsNoConsent(log[r], p);
  }

  lemma RevokedIsNoConsent(e: Event, p: Pair)
    requires Revoked(e, p)
    ensures !ConsentsTo(e, p)
  {}

  lemma LaunchesGrow(log: seq<Event>, e: Event)
    requires LaunchesSound(log) && !e.Launched?
    ensures LaunchesSound(log + [e])
  {
    hide ConsentBetween, Revoked;
    var longer := log + [e];
    forall r, l, x | 0 <= r < l < |longer| && longer[l].Launched? && x in longer[l].secrets && Revoked(longer[r], (longer[l].client, x))
      ensures ConsentBetween(longer, r, l, (longer[l].client, x))
    {
      assert l < |log| && log[r] == longer[r] && log[l] == longer[l];
      ConsentStays(log, e, r, l, (log[l].client, x));
    }
  }

  lemma LaunchIsConsented(log: seq<Event>, client: Client, ids: seq<Secret>)
    requires LaunchesSound(log) && forall x :: x in ids ==> Consent(log, (client, x))
    ensures LaunchesSound(log + [Launched(client, ids)])
  {
    hide ConsentBetween, Revoked, Consent;
    var e := Launched(client, ids);
    var longer := log + [e];
    forall r, l, x | 0 <= r < l < |longer| && longer[l].Launched? && x in longer[l].secrets && Revoked(longer[r], (longer[l].client, x))
      ensures ConsentBetween(longer, r, l, (longer[l].client, x))
    {
      assert longer[r] == log[r];
      if l < |log| {
        assert log[l] == longer[l];
      } else {
        ConsentAfter(log, r, (client, x));
      }
      ConsentStays(log, e, r, l, (longer[l].client, x));
    }
  }

  /** A cleared run stays cleared as the log grows. */
  lemma RiskShrinks(s: System, v: System)
    requires v.board.active == s.board.active && v.run == s.run && v.lockStart == s.lockStart
    requires s.w.log <= v.w.log && Risky(v)
    requires v.stage == s.stage
    ensures Risky(s)
  {
    if k: nat :| ClearedAt(s, k) { assert ClearedAt(v, k); }
  }

  // ----- sections that begin or finish no lock and revoke no pair or client -----

  predicate Plain(a: Section) { !(a.DoBeginLock? || a.DoFinishLock? || a.DoRevokePair? || a.DoRevokeClient?) }

  lemma PlainAccess(w: World, a: Section, now: Time)
    requires Sound(w) && Possible(w, a) && Plain(a)
    ensures var v := Next(w, a, now);
            && Sound(v) && v.s.lockEpoch >= w.s.lockEpoch
            && (v.s.access == w.s.access || v.s.access.Active?)
            && (v.s.access == w.s.access && !w.s.access.Active? ==> v.s.lockEpoch == w.s.lockEpoch && v.s.grants.Keys <= w.s.grants.Keys)
  {
    hide Sound, SectionState, SectionDead, SectionEvent, GrantsGrounded, PendingSound, SessionsSound, CountsSound, PendingTame, SessionsTame;
    EventKinds(w, a, now);
    NextIsTame(w, a, now);
    NextKeeps(w, a, now);
    SoundLocks(w);
    SoundLocks(Next(w, a, now));
  }

  lemma SoundLocks(w: World)
    requires Sound(w)
    ensures LockedSound(w.s)
  {}

  /** A section that leaves the run, the threads and the lock epoch of a lock in progress alone. */
  lemma MoveKeeps(s: System, v: System, e: Event)
    requires Safe(s) && v == s.(w := v.w) && Sound(v.w)
    requires v.w.log == s.w.log + [e] && !e.Launched? && s.w.dead <= v.w.dead
    requires s.board.active.Some? && s.board.active.value.ids.Some? ==>
               forall x :: x in s.board.active.value.ids.value ==> !Revoked(e, (s.board.active.value.client, x))
    requires v.w.s.lockEpoch >= s.w.s.lockEpoch
    requires v.w.s.access == s.w.s.access || v.w.s.access.Active?
    requires v.w.s.access == s.w.s.access && !s.w.s.access.Active? ==> v.w.s.lockEpoch == s.w.s.lockEpoch && v.w.s.grants.Keys <= s.w.s.grants.Keys
    ensures Safe(v)
  {
    hide Sound, LaunchesSound, Consent, Hinders, Fits, EpochOk, Risky, Revoked;
    DoKeepsChild(s, v, e);
    LaunchesGrow(s.w.log, e);
    DoKeepsEpochs(s, v);
    DoKeepsAuto(s, v);
  }

  lemma DoKeeps(s: System, a: Section, now: Time)
    requires Safe(s) && Possible(s.w, a) && Plain(a)
    ensures Safe(Perform(s, a, now))
  {
    hide Safe, Sound, Next, SectionEvent, SectionDead;
    SafeParts(s);
    PlainAccess(s.w, a, now);
    EventKinds(s.w, a, now);
    DeadGrows(s.w, a);
    NextLog(s.w, a, now);
    MoveKeeps(s, Perform(s, a, now), SectionEvent(s.w, a, now));
  }

  lemma SafeParts(s: System)
    requires Safe(s)
    ensures Sound(s.w) && RunSound(s) && ManualSound(s) && s.lockStart <= |s.w.log|
  {
    hide Sound, RunSound, ManualSound, LaunchesSound;
  }

  lemma NextLog(w: World, a: Section, now: Time)
    ensures Next(w, a, now).log == w.log + [SectionEvent(w, a, now)] && Next(w, a, now).dead == SectionDead(w, a)
  {
    hide SectionEvent, SectionDead, SectionState;
  }

  lemma DoKeepsChild(s: System, v: System, e: Event)
    requires ChildSound(s) && v == s.(w := v.w) && v.w.log == s.w.log + [e]
    requires s.board.active.Some? && s.board.active.value.ids.Some? ==>
               forall x :: x in s.board.active.value.ids.value ==> !Revoked(e, (s.board.active.value.client, x))
    ensures ChildSound(v)
  {
    hide Consent;
    if s.board.active.Some? && s.stage.Running? && s.board.active.value.ids.Some? {
      forall x | x in s.board.active.value.ids.value ensures Consent(v.w.log, (s.board.active.value.client, x)) {
        ConsentGrows(s.w.log, (s.board.active.value.client, x), e);
      }
    }
  }

  lemma DoKeepsEpochs(s: System, v: System)
    requires EpochsSound(s) && v.threads == s.threads && v.manual == s.manual && v.w.s.lockEpoch >= s.w.s.lockEpoch
    ensures EpochsSound(v)
  {
    forall t | t in v.threads ensures EpochOk(v, v.threads[t]) {
      assert EpochOk(s, s.threads[t]);
    }
  }

  lemma DoKeepsAuto(s: System, v: System)
    requires AutoSound(s) && v == s.(w := v.w) && s.w.log <= v.w.log && s.w.dead <= v.w.dead
    requires v.w.s.access == s.w.s.access || v.w.s.access.Active?
    requires v.w.s.access == s.w.s.access && !s.w.s.access.Active? ==> v.w.s.lockEpoch == s.w.s.lockEpoch
    ensures AutoSound(v)
  {
    hide Risky;
    if Risky(v) { RiskShrinks(s, v); }
  }

  // ----- moves of the run -----

  lemma EndKeeps(s: System)
    requires Safe(s)
    ensures Safe(Ended(s))
  {
    hide Sound, LaunchesSound, EpochOk, ClearedAt;
    DoKeepsEpochs(s, Ended(s));
  }

  lemma StartKeeps(s: System, client: Client, token: Token)
    requires Safe(s) && TryStart(s.board, token, client).Ok?
    ensures Safe(s.(board := TryStart(s.board, token, client).value, stage := Reserved, run := s.nextRun, nextRun := s.nextRun + 1))
  {
    hide Sound, LaunchesSound, EpochOk, ClearedAt;
    DoKeepsEpochs(s, s.(board := TryStart(s.board, token, client).value, stage := Reserved, run := s.nextRun, nextRun := s.nextRun + 1));
  }

  /** A move to a stage before the last check. Under a finished manual lock there is no such move. */
  lemma StageKeeps(s: System, stage: Stage)
    requires Safe(s) && s.board.active.Some?
    requires !stage.Ready? && !stage.Running? && !s.stage.Running?
    requires stage.Reserved? || stage.Allowed? <==> s.board.active.value.ids.None?
    requires stage.Asking? ==> Fits(stage.asked, s.board.active.value)
    requires stage.Ticketed? ==> Fits(stage.ticket, s.board.active.value)
    requires s.w.s.access.Locked? && s.manual ==> stage.Reserved?
    ensures Safe(s.(stage := stage))
  {
    hide Sound, LaunchesSound, EpochOk, ClearedAt, Fits;
    DoKeepsEpochs(s, s.(stage := stage));
  }

  lemma ContextKeeps(s: System, ids: seq<Secret>)
    requires Safe(s) && At(s, Allowed)
    ensures SetSecretContext(s.board, ids).Ok? && Safe(s.(board := SetSecretContext(s.board, ids).value, stage := Contexted))
  {
    hide Sound, LaunchesSound, EpochOk, ClearedAt;
    DoKeepsEpochs(s, s.(board := SetSecretContext(s.board, ids).value, stage := Contexted));
  }

  /** A run that has just been cleared, or is checked while the app is active, may move to its last stage. */
  lemma ReadyKeeps(s: System)
    requires Safe(s) && s.board.active.Some? && s.board.active.value.ids == Some([]) && !s.stage.Running?
    requires s.w.s.access.Active? || (!s.manual && exists k: nat :: ClearedAt(s, k))
    ensures Safe(s.(stage := Ready))
  {
    hide Sound, LaunchesSound, EpochOk;
    var v := s.(stage := Ready);
    DoKeepsEpochs(s, v);
    if !s.w.s.access.Active? {
      var k: nat :| ClearedAt(s, k);
      assert ClearedAt(v, k);
    }
  }

  lemma NoteKeeps(s: System, run: nat, client: Client, ids: seq<Secret>)
    requires Safe(s)
    ensures Safe(Note(s, Cleared(run, client, ids)))
  {
    hide LaunchesSound, Consent, Hinders, Fits, EpochOk, Risky, Sound;
    var v := Note(s, Cleared(run, client, ids));
    NoteIsSound(s.w, Cleared(run, client, ids));
    LaunchesGrow(s.w.log, Cleared(run, client, ids));
    DoKeepsChild(s, v, Cleared(run, client, ids));
    DoKeepsEpochs(s, v);
    DoKeepsAuto(s, v);
  }

  lemma NoteIsSound(w: World, e: Event)
    requires Sound(w) && (e.Cleared? || e.Launched?)
    ensures Sound(w.(log := w.log + [e]))
  {
    hide Sound, Tame;
    InertIsTame(w, e);
    TameKeeps(w, w.(log := w.log + [e]), e);
  }

  lemma InertIsTame(w: World, e: Event)
    requires Sound(w) && (e.Cleared? || e.Launched?)
    ensures Tame(w, w.(log := w.log + [e]), e)
  {
    hide Grounded, Decided, Connected, Count, GrantsGrounded, CountsSound, Disconnected;
  }

  // ----- launching -----

  /** A live grant of a connected client rests on a consent that no revocation has followed. */
  lemma GroundedIsConsent(log: seq<Event>, p: Pair, unattended: bool)
    requires Grounded(log, p, unattended)
    ensures Consent(log, p)
  {
    var d: nat, g: nat :| Stands(log, p, unattended, d, g);
    forall i | d < i < |log| ensures !Revoked(log[i], p) {
      if i < g { assert !UndoesConsent(log[i], p); }
      if i > g { assert !UndoesGrant(log[i], p, unattended); }
    }
    assert ConsentedAt(log, p, d);
  }

  /** A valid ticket's grants are all live, of a client whose connection is not cut. */
  lemma ValidIsGranted(s: State, dead: set<Token>, now: Time, ticket: Ticket)
    requires Valid(s, dead, now, ticket).1
    ensures forall x :: x in ticket.secrets ==> (ticket.client, x) in s.grants && ticket.client !in Disconnected(s, dead)
    ensures !s.access.Active? ==> Covered(Gone(s, dead), ticket.client, ticket.secrets, now)
  {
    hide Gone, Purge, Covered, Disconnected;
    var t := Gone(s, dead);
    GoneLeaves(s, dead);
    PurgeKeeps(t.grants, now);
    forall x | x in ticket.secrets ensures (ticket.client, x) in s.grants && ticket.client !in Disconnected(s, dead) {
      assert x !in MissingIn(Purge(t.grants, now), ticket.client, ticket.secrets);
    }
  }

  lemma ValidIsConsent(w: World, now: Time, ticket: Ticket)
    requires Sound(w) && Valid(w.s, w.dead, now, ticket).1
    ensures forall x :: x in ticket.secrets ==> Consent(w.log, (ticket.client, x))
  {
    hide Valid, Grounded, Consent, Disconnected, PendingSound, LockedSound, SessionsSound, CountsSound;
    ValidIsGranted(w.s, w.dead, now, ticket);
    forall x | x in ticket.secrets ensures Consent(w.log, (ticket.client, x)) {
      GroundedIsConsent(w.log, (ticket.client, x), w.s.grants[(ticket.client, x)].Unattended?);
    }
  }

  /** The child of a run whose secrets are all consented to, and which has been cleared if a lock began. */
  lemma RunningKeeps(s: System, spawned: bool)
    requires Safe(s) && s.board.active.Some? && s.board.active.value.ids.Some?
    requires forall x :: x in s.board.active.value.ids.value ==> Consent(s.w.log, (s.board.active.value.client, x))
    requires SpawnChild(s.board, s.board.active.value.token in s.w.dead, spawned).Ok?
    requires s.w.s.access.Locked? ==> !s.manual
    requires !s.w.s.access.Active? && !s.manual ==> (exists k: nat :: ClearedAt(s, k)) || s.stage.Ready?
    ensures var a := s.board.active.value;
            Safe(Note(s.(board := SpawnChild(s.board, a.token in s.w.dead, spawned).value, stage := Running), Launched(a.client, a.ids.value)))
  {
    hide LaunchesSound, Consent, EpochOk, Sound, Hinders, Risky, ClearedAt;
    var a := s.board.active.value;
    var b := SpawnChild(s.board, a.token in s.w.dead, spawned).value;
    var v := Note(s.(board := b, stage := Running), Launched(a.client, a.ids.value));
    NoteIsSound(s.w, Launched(a.client, a.ids.value));
    LaunchIsConsented(s.w.log, a.client, a.ids.value);
    forall x | x in a.ids.value ensures Consent(v.w.log, (a.client, x)) {
      ConsentGrows(s.w.log, (a.client, x), Launched(a.client, a.ids.value));
    }
    DoKeepsEpochs(s, v);
    RunningHinders(s, b);
    RunningRisk(s, v);
  }

  /** Whether the run is running makes no difference to who waits for it. */
  lemma RunningHinders(s: System, b: Board<Token>)
    requires s.board.active.Some? && b.active.Some? && b.active.value == s.board.active.value.(running := b.active.value.running)
    ensures forall goal :: Hinders(goal, b) == Hinders(goal, s.board)
  {}

  lemma RunningRisk(s: System, v: System)
    requires s.board.active.Some? && v.board.active.Some? && v.board.active.value == s.board.active.value.(running := true)
    requires v.run == s.run && v.lockStart == s.lockStart && s.w.log <= v.w.log && v.stage.Running?
    ensures Risky(v) ==> !exists k: nat :: ClearedAt(s, k)
    ensures s.stage.Ready? && Risky(v) ==> Risky(s)
  {
    if k: nat :| ClearedAt(s, k) { assert ClearedAt(v, k); }
  }

  // ----- every step of the run -----

  /** Sections of the run do not lock or unlock. */
  lemma SameAccess(w: World, a: Section, now: Time)
    requires a.DoRequireAccess? || a.DoPublish? || a.DoPoll? || a.DoValid? || a.DoCovers? || a.DoCut?
    ensures Next(w, a, now).s.access == w.s.access && Next(w, a, now).s.lockEpoch == w.s.lockEpoch
  {
    hide Gone, Publish, Poll, Valid, RequireAccess, UnattendedCovers, SectionEvent, SectionDead;
    match a
    case DoPublish(request) => PublishAccess(w.s, w.dead, now, request);
    case DoPoll(id, ticket, token, timedOut) => PollAccess(w.s, w.dead, now, id, ticket, token, timedOut);
    case DoValid(ticket) => CheckAccess(w.s, w.dead, now, ticket, 0, []);
    case DoRequireAccess(client) => CheckAccess(w.s, w.dead, now, Ticket(0, 0, []), client, []);
    case DoCovers(client, ids) => CheckAccess(w.s, w.dead, now, Ticket(0, 0, []), client, ids);
    case DoCut(_) =>
  }

  lemma PublishAccess(s: State, dead: set<Token>, now: Time, request: Request)
    ensures var t := Publish(s, dead, now, request).0; t.access == s.access && t.lockEpoch == s.lockEpoch
  {
    hide Gone, Purge, MissingIn, Covered, Filter, Distinct;
    GoneLeaves(s, dead);
  }

  lemma PollAccess(s: State, dead: set<Token>, now: Time, id: Uid, ticket: Ticket, token: Token, timedOut: bool)
    ensures var t := Poll(s, dead, now, id, ticket, token, timedOut).0; t.access == s.access && t.lockEpoch == s.lockEpoch
  {
    hide Gone, Purge, MissingIn, Grants.Do, GrantOf;
    GoneLeaves(s, dead);
  }

  lemma CheckAccess(s: State, dead: set<Token>, now: Time, ticket: Ticket, client: Client, ids: seq<Secret>)
    ensures var t := Valid(s, dead, now, ticket).0; t.access == s.access && t.lockEpoch == s.lockEpoch
    ensures var t := RequireAccess(s, dead, now, client).0; t.access == s.access && t.lockEpoch == s.lockEpoch
    ensures var t := UnattendedCovers(s, dead, now, client, ids).0; t.access == s.access && t.lockEpoch == s.lockEpoch
  {
    hide Gone, Purge, MissingIn, Covered, ClientHasUnattended;
    GoneLeaves(s, dead);
  }

  /** With no grants left, nothing passes an access check under a lock. */
  lemma NoGrantsNoAccess(s: State, dead: set<Token>, now: Time, client: Client, ids: seq<Secret>)
    requires s.grants == map[] && !s.access.Active?
    ensures !RequireAccess(s, dead, now, client).1
    ensures !Covered(Gone(s, dead), client, ids, now)
    ensures forall k: Ticket :: !Valid(s, dead, now, k).1
  {
    hide Live, MissingIn, MissingUnattendedIn;
    assert Purge(Gone(s, dead).grants, now) == map[];
  }

  lemma AccessKeeps(s: System, now: Time)
    requires Safe(s) && Enabled(s, Access)
    ensures Safe(Take(s, Access, now))
  {
    hide Safe, Sound, Next, RequireAccess;
    SafeParts(s);
    var client := s.board.active.value.client;
    var v := Perform(s, DoRequireAccess(client), now);
    DoKeeps(s, DoRequireAccess(client), now);
    SameAccess(s.w, DoRequireAccess(client), now);
    if RequireAccess(s.w.s, s.w.dead, now, client).1 {
      if !s.w.s.access.Active? && s.manual { NoGrantsNoAccess(s.w.s, s.w.dead, now, client, []); }
      StageKeeps(v, Allowed);
    } else {
      EndKeeps(v);
    }
  }

  lemma PublishedFits(s: State, dead: set<Token>, now: Time, request: Request, a: ActiveRun<Token>)
    requires a.ids.Some? && request.client == a.client
    requires (forall x :: x in request.secrets ==> x in a.ids.value) && (forall x :: x in a.ids.value ==> x in request.secrets)
    ensures var r := Publish(s, dead, now, request).1; r.Issued? || r.Waiting? ==> Fits(r.ticket, a)
  {
    hide Gone, Purge, MissingIn, Covered, Filter, Look;
  }

  lemma AskKeeps(s: System, request: Request, now: Time)
    requires Safe(s) && Enabled(s, Ask(request))
    ensures Safe(Take(s, Ask(request), now))
  {
    hide Safe, Sound, Next, Publish, Fits;
    SafeParts(s);
    var v := Perform(s, DoPublish(request), now);
    DoKeeps(s, DoPublish(request), now);
    SameAccess(s.w, DoPublish(request), now);
    PublishedFits(s.w.s, s.w.dead, now, request, s.board.active.value);
    match Publish(s.w.s, s.w.dead, now, request).1
    case Refused(_) => EndKeeps(v);
    case Issued(ticket) => StageKeeps(v, Ticketed(ticket));
    case Waiting(ticket) => StageKeeps(v, Asking(request.id, ticket));
  }

  lemma PolledTicket(s: State, dead: set<Token>, now: Time, id: Uid, ticket: Ticket, token: Token, timedOut: bool)
    ensures var r := Poll(s, dead, now, id, ticket, token, timedOut).1; r.Settled? && r.result.Ok? ==> r.result.value == ticket
  {
    hide Gone, Purge, MissingIn, Grants.Do, GrantOf;
  }

  lemma WaitKeeps(s: System, timedOut: bool, now: Time)
    requires Safe(s) && Enabled(s, Wait(timedOut))
    ensures Safe(Take(s, Wait(timedOut), now))
  {
    hide Safe, Sound, Next, Poll, Fits;
    SafeParts(s);
    var a := DoPoll(s.stage.id, s.stage.asked, s.board.active.value.token, timedOut);
    var v := Perform(s, a, now);
    DoKeeps(s, a, now);
    SameAccess(s.w, a, now);
    PolledTicket(s.w.s, s.w.dead, now, a.id, a.ticket, a.token, timedOut);
    match Poll(s.w.s, s.w.dead, now, a.id, a.ticket, a.token, timedOut).1
    case NotYet =>
    case Settled(r) => if r.Ok? { StageKeeps(v, Ticketed(r.value)); } else { EndKeeps(v); }
  }

  lemma JustCleared(s: System, v: System)
    requires s.board.active.Some? && s.board.active.value.ids.Some? && s.lockStart <= |s.w.log|
    requires v == Note(s, Cleared(s.run, s.board.active.value.client, s.board.active.value.ids.value))
    ensures exists k: nat :: ClearedAt(v, k)
  {
    assert ClearedAt(v, |s.w.log|);
  }

  lemma PlainCheckKeeps(s: System, now: Time)
    requires Safe(s) && Enabled(s, PlainCheck)
    ensures Safe(Take(s, PlainCheck, now))
  {
    hide Safe, Sound, Next, RequireAccess, ClearedAt;
    SafeParts(s);
    var client := s.board.active.value.client;
    var v := Perform(s, DoRequireAccess(client), now);
    DoKeeps(s, DoRequireAccess(client), now);
    SafeParts(v);
    SameAccess(s.w, DoRequireAccess(client), now);
    if !RequireAccess(s.w.s, s.w.dead, now, client).1 {
      EndKeeps(v);
    } else if s.w.s.access.Active? {
      ReadyKeeps(v);
    } else {
      if s.manual { NoGrantsNoAccess(s.w.s, s.w.dead, now, client, []); }
      NoteKeeps(v, s.run, client, []);
      JustCleared(v, Note(v, Cleared(s.run, client, [])));
      ReadyKeeps(Note(v, Cleared(s.run, client, [])));
    }
  }

  lemma LaunchKeeps(s: System, spawned: bool, underLock: bool)
    requires Safe(s) && s.board.active.Some? && s.board.active.value.ids.Some? && !s.stage.Running?
    requires forall x :: x in s.board.active.value.ids.value ==> Consent(s.w.log, (s.board.active.value.client, x))
    requires s.w.s.access.Locked? ==> !s.manual
    requires !s.w.s.access.Active? && !s.manual ==> underLock || s.stage.Ready?
    ensures Safe(Launch(s, spawned, underLock))
  {
    hide Safe, Consent, ClearedAt, Sound;
    SafeParts(s);
    var a := s.board.active.value;
    if SpawnChild(s.board, a.token in s.w.dead, spawned).Err? {
      EndKeeps(s);
    } else if underLock {
      var v := Note(s, Cleared(s.run, a.client, a.ids.value));
      NoteKeeps(s, s.run, a.client, a.ids.value);
      JustCleared(s, v);
      forall x | x in a.ids.value ensures Consent(v.w.log, (a.client, x)) {
        ConsentGrows(s.w.log, (a.client, x), Cleared(s.run, a.client, a.ids.value));
      }
      RunningKeeps(v, spawned);
    } else {
      RunningKeeps(s, spawned);
    }
  }

  lemma LaunchPlainKeeps(s: System, spawned: bool, now: Time)
    requires Safe(s) && Enabled(s, LaunchPlain(spawned))
    ensures Safe(Take(s, LaunchPlain(spawned), now))
  {
    hide Safe, Consent, Launch, Sound;
    SafeParts(s);
    LaunchKeeps(s, spawned, false);
  }

  lemma LaunchBoundKeeps(s: System, spawned: bool, now: Time)
    requires Safe(s) && Enabled(s, LaunchBound(spawned))
    ensures Safe(Take(s, LaunchBound(spawned), now))
  {
    hide Safe, Sound, Next, Valid, Consent, Launch, SectionEvent;
    SafeParts(s);
    var k := s.stage.ticket;
    var v := Perform(s, DoValid(k), now);
    DoKeeps(s, DoValid(k), now);
    SameAccess(s.w, DoValid(k), now);
    if Valid(s.w.s, s.w.dead, now, k).1 && s.board.active.value.ids.Some? {
      ValidIsConsent(s.w, now, k);
      NextLog(s.w, DoValid(k), now);
      EventKinds(s.w, DoValid(k), now);
      forall x | x in s.board.active.value.ids.value ensures Consent(v.w.log, (s.board.active.value.client, x)) {
        ConsentGrows(s.w.log, (k.client, x), SectionEvent(s.w, DoValid(k), now));
      }
      if !s.w.s.access.Active? && s.manual { NoGrantsNoAccess(s.w.s, s.w.dead, now, k.client, []); }
      LaunchKeeps(v, spawned, !s.w.s.access.Active?);
    } else {
      EndKeeps(v);
    }
  }

  // ----- every step of the other threads -----

  /** Threads and blocks make no difference to the risk. */
  lemma SameRisk(s: System, v: System)
    requires v.board.active == s.board.active && v.stage == s.stage && v.run == s.run && v.lockStart == s.lockStart && v.w == s.w
    ensures Risky(v) == Risky(s)
    ensures forall stage :: AutoOk(v, stage) == AutoOk(s, stage)
  {
    assert forall k: nat :: ClearedAt(v, k) == ClearedAt(s, k);
  }

  /** Only the block, its owner and one thread change, and the block stays with one thread. */
  lemma PutBlocker(s: System, t: nat, goal: Goal, hold: Hold, taken: bool)
    requires Safe(s)
    requires if taken then !s.board.blockNew && hold.Blocking? else hold.Outside? || s.owner == Some(t)
    requires t in s.threads ==> s.threads[t].Blocker? && s.threads[t].goal == goal
    requires t !in s.threads ==> hold.Outside? && !goal.ManualLock?
    requires hold == Blocking(false) || hold.Holding? ==> !Hinders(goal, s.board)
    ensures Safe(Put(if taken then s.(board := Runs.TakeBlock(s.board), owner := Some(t)) else s, t, Blocker(goal, hold)))
  {
    hide Sound, LaunchesSound, Risky, AutoOk, Fits, Consent;
    SameRisk(s, Put(if taken then s.(board := Runs.TakeBlock(s.board), owner := Some(t)) else s, t, Blocker(goal, hold)));
  }

  lemma TakeBlockKeeps(s: System, t: nat, now: Time)
    requires Safe(s) && Enabled(s, TakeBlockBy(t))
    ensures Safe(Take(s, TakeBlockBy(t), now))
  {
    hide Safe, Sound, Next;
    var goal := s.threads[t].goal;
    if Hinders(goal, s.board) {
      var a := DoCut(s.board.active.value.token);
      DoKeeps(s, a, now);
      PutBlocker(Perform(s, a, now), t, goal, Blocking(true), true);
    } else {
      PutBlocker(s, t, goal, Blocking(false), true);
    }
  }

  lemma OwnerIs(s: System, t: nat)
    requires Safe(s) && t in s.threads && s.threads[t].Blocker? && !s.threads[t].hold.Outside?
    ensures s.owner == Some(t)
    ensures s.threads[t].hold == Blocking(false) || s.threads[t].hold.Holding? ==> !Hinders(s.threads[t].goal, s.board)
  {
    hide Sound, LaunchesSound, ClearedAt, Fits, Consent, Hinders;
  }

  lemma WaitOverKeeps(s: System, t: nat, now: Time)
    requires Safe(s) && Enabled(s, WaitOver(t))
    ensures Safe(Take(s, WaitOver(t), now))
  {
    hide Safe;
    OwnerIs(s, t);
    PutBlocker(s, t, s.threads[t].goal, Holding, false);
  }

  /** What the two revocations do to the rest of the state. */
  lemma RevokeFrame(w: World, a: Section, now: Time)
    requires a.DoRevokePair? || a.DoRevokeClient?
    ensures var v := Next(w, a, now);
            && v.s.access == w.s.access && v.s.lockEpoch == w.s.lockEpoch && v.dead == w.dead && v.s.grants.Keys <= w.s.grants.Keys
    ensures SectionEvent(w, a, now) == Quiet
            || (a.DoRevokePair? && SectionEvent(w, a, now) == PairRevoked(a.client, a.secret))
            || (a.DoRevokeClient? && SectionEvent(w, a, now) == ClientRevoked(a.client))
  {
    hide Live;
  }

  lemma RevokeKeepsSafe(s: System, t: nat, now: Time)
    requires Safe(s) && Enabled(s, Revoke(t))
    ensures Safe(Take(s, Revoke(t), now))
  {
    hide Safe, Sound, Next, SectionEvent;
    SafeParts(s);
    OwnerIs(s, t);
    var goal := s.threads[t].goal;
    var a := if goal.RevokeGrant? then DoRevokePair(goal.client, goal.secret) else DoRevokeClient(goal.client);
    RevokeFrame(s.w, a, now);
    NextKeeps(s.w, a, now);
    NextLog(s.w, a, now);
    MoveKeeps(s, Perform(s, a, now), SectionEvent(s.w, a, now));
  }

  lemma ReleaseKeeps(s: System, t: nat, now: Time)
    requires Safe(s) && Enabled(s, Release(t))
    ensures Safe(Take(s, Release(t), now))
  {
    hide Sound, LaunchesSound, Risky, AutoOk, Fits, Consent;
    OwnerIs(s, t);
    SameRisk(s, Take(s, Release(t), now));
  }

  /** Finishing a lock: either nothing happens, or the lock in progress is now complete. */
  lemma FinishFrame(w: World, epoch: nat, now: Time)
    requires Sound(w)
    ensures var v := Next(w, DoFinishLock(epoch), now);
            && Sound(v) && v.dead == w.dead && v.s.grants == w.s.grants && v.s.lockEpoch == w.s.lockEpoch
            && (w.s.access == Locking(epoch) ==> epoch == w.s.lockEpoch && v.s.access == Locked(epoch) && v.log == w.log + [LockFinished])
            && (w.s.access != Locking(epoch) ==> v.s.access == w.s.access && v.log == w.log + [Quiet])
  {
    hide Sound;
    NextKeeps(w, DoFinishLock(epoch), now);
    SoundLocks(w);
  }

  lemma FinishKeeps(s: System, epoch: nat, now: Time)
    requires Safe(s)
    requires epoch == s.w.s.lockEpoch && s.w.s.access.Locking? && s.manual ==> s.board.active.None?
    requires epoch == s.w.s.lockEpoch && s.w.s.access.Locking? && !s.manual ==> !Risky(s)
    ensures Safe(Perform(s, DoFinishLock(epoch), now))
  {
    hide Sound, LaunchesSound, Consent, Hinders, Fits, EpochOk, Risky, Revoked, Next;
    FinishFrame(s.w, epoch, now);
    var v := Perform(s, DoFinishLock(epoch), now);
    var e := if s.w.s.access == Locking(epoch) then LockFinished else Quiet;
    LockFinishedRevokesNothing();
    DoKeepsChild(s, v, e);
    LaunchesGrow(s.w.log, e);
    DoKeepsEpochs(s, v);
    if v.w.s.access == s.w.s.access {
      DoKeepsAuto(s, v);
    } else if Risky(v) {
      RiskShrinks(s, v);
    }
  }

  lemma LockFinishedRevokesNothing()
    ensures forall p :: !Revoked(LockFinished, p) && !Revoked(Quiet, p)
  {}

  lemma FinishManualKeeps(s: System, t: nat, now: Time)
    requires Safe(s) && Enabled(s, FinishManual(t))
    ensures Safe(Take(s, FinishManual(t), now))
  {
    hide Safe, Sound, Risky;
    OwnerIs(s, t);
    ThreadEpoch(s, t);
    FinishKeeps(s, s.threads[t].goal.epoch, now);
  }

  lemma ThreadEpoch(s: System, t: nat)
    requires Safe(s) && t in s.threads
    ensures EpochOk(s, s.threads[t])
    ensures s.threads[t].Auto? && s.threads[t].epoch == s.w.s.lockEpoch && s.w.s.access.Locking? && !s.manual ==> AutoOk(s, s.threads[t].stage)
  {
    hide Sound, LaunchesSound, Consent, Fits, EpochOk, AutoOk;
  }

  lemma FinishAutoKeeps(s: System, t: nat, now: Time)
    requires Safe(s) && Enabled(s, FinishAuto(t))
    ensures Safe(Take(s, FinishAuto(t), now))
  {
    hide Safe, Sound, Risky;
    ThreadEpoch(s, t);
    FinishKeeps(s, s.threads[t].epoch, now);
    var v := Perform(s, DoFinishLock(s.threads[t].epoch), now);
    RemoveAuto(v, t);
  }

  lemma RemoveAuto(s: System, t: nat)
    requires Safe(s) && t in s.threads && s.threads[t].Auto?
    ensures Safe(s.(threads := s.threads - {t}))
  {
    hide Sound, LaunchesSound, Risky, AutoOk, Fits, Consent;
    SameRisk(s, s.(threads := s.threads - {t}));
  }

  lemma BeginFrame(w: World, preserve: bool, now: Time)
    requires Sound(w)
    ensures var v := Next(w, DoBeginLock(preserve), now);
            var r := BeginLock(w.s, now, preserve).1;
            && Sound(v) && v.dead == w.dead
            && (r.Ok? ==> r.value == w.s.lockEpoch + 1 && v.s.lockEpoch == r.value && v.s.access == Locking(r.value)
                          && v.log == w.log + [LockBegun(preserve)] && (!preserve ==> v.s.grants == map[]))
            && (r.Err? ==> v.s == w.s && v.log == w.log + [Quiet])
  {
    hide Sound, Live;
    NextKeeps(w, DoBeginLock(preserve), now);
  }

  lemma BeginKeeps(s: System, t: nat, preserve: bool, now: Time)
    requires Safe(s) && t !in s.threads
    ensures Safe(BeginAppLock(s, t, preserve, now))
  {
    hide Sound, LaunchesSound, Consent, Fits, Risky, Revoked, Next, BeginLock;
    BeginFrame(s.w, preserve, now);
    LockBegunRevokesNothing(preserve);
    LockFinishedRevokesNothing();
    var v := Perform(s, DoBeginLock(preserve), now);
    if BeginLock(s.w.s, now, preserve).1.Err? {
      MoveKeeps(s, v, Quiet);
    } else {
      DoKeepsChild(s, v, LockBegun(preserve));
      LaunchesGrow(s.w.log, LockBegun(preserve));
    }
  }

  lemma LockBegunRevokesNothing(preserve: bool)
    ensures forall p :: !Revoked(LockBegun(preserve), p)
  {}

  /** An automatic lock's thread moves on. */
  lemma PutAuto(s: System, t: nat, stage: AutoStage)
    requires Safe(s) && t in s.threads && s.threads[t].Auto?
    requires s.threads[t].epoch == s.w.s.lockEpoch && s.w.s.access.Locking? && !s.manual ==> AutoOk(s, stage)
    ensures Safe(Put(s, t, Auto(s.threads[t].epoch, stage)))
  {
    hide Sound, LaunchesSound, Consent, Fits, Risky, AutoOk;
    PutEpochs(s, t, stage);
    SameRisk(s, Put(s, t, Auto(s.threads[t].epoch, stage)));
  }

  lemma PutEpochs(s: System, t: nat, stage: AutoStage)
    requires EpochsSound(s) && t in s.threads && s.threads[t].Auto?
    ensures EpochsSound(Put(s, t, Auto(s.threads[t].epoch, stage)))
  {
    assert EpochOk(s, s.threads[t]);
  }

  /** After a section, a run that is still risky was risky before it. */
  lemma StillRisky(s: System, a: Section, now: Time)
    ensures Risky(Perform(s, a, now)) ==> Risky(s)
  {
    hide SectionState, SectionEvent, SectionDead, Risky;
    if Risky(Perform(s, a, now)) { RiskShrinks(s, Perform(s, a, now)); }
  }

  lemma CheckCoveredKeeps(s: System, t: nat, now: Time)
    requires Safe(s) && Enabled(s, CheckCovered(t))
    ensures Safe(Take(s, CheckCovered(t), now))
  {
    hide Safe, Sound, Next, UnattendedCovers, Risky;
    ThreadEpoch(s, t);
    match s.threads[t].stage.seen
    case None => PutAuto(s, t, Checked);
    case Some(seen) =>
      var ids := if seen.ids.Some? then seen.ids.value else [];
      var a := DoCovers(seen.client, ids);
      var v := Perform(s, a, now);
      DoKeeps(s, a, now);
      SameAccess(s.w, a, now);
      StillRisky(s, a, now);
      if UnattendedCovers(s.w.s, s.w.dead, now, seen.client, ids).1 {
        var u := Note(v, Cleared(seen.run, seen.client, ids));
        NoteKeeps(v, seen.run, seen.client, ids);
        SafeParts(v);
        if Risky(u) {
          RiskShrinks(v, u);
          RiskyIsBound(s);
          if s.threads[t].epoch == s.w.s.lockEpoch && s.w.s.access.Locking? && !s.manual {
            JustCleared(v, u);
            NotRisky(u);
          }
        }
        PutAuto(u, t, Checked);
      } else {
        PutAuto(v, t, Doomed(seen.token));
      }
  }

  lemma NotRisky(s: System)
    requires exists k: nat :: ClearedAt(s, k)
    ensures !Risky(s)
  {}

  lemma RiskyIsBound(s: System)
    requires Safe(s) && Risky(s)
    ensures s.board.active.Some? && s.board.active.value.ids.Some?
  {
    hide Sound, LaunchesSound, ClearedAt, Fits, Consent;
  }

  lemma LookKeeps(s: System, t: nat, now: Time)
    requires Safe(s) && Enabled(s, LookActive(t))
    ensures Safe(Take(s, LookActive(t), now))
  {
    hide Safe, ClearedAt;
    var seen := if s.board.active.None? then None
                else Some(Snapshot(s.run, s.board.active.value.token, s.board.active.value.client, s.board.active.value.ids));
    PutAuto(s, t, Looked(seen));
  }

  lemma KillKeeps(s: System, t: nat, now: Time)
    requires Safe(s) && Enabled(s, KillSeen(t))
    ensures Safe(Take(s, KillSeen(t), now))
  {
    hide Safe, Sound, Risky, SectionState, SectionEvent;
    var a := DoCut(s.threads[t].stage.token);
    ThreadEpoch(s, t);
    DoKeeps(s, a, now);
    SameAccess(s.w, a, now);
    StillRisky(s, a, now);
    PutAuto(Perform(s, a, now), t, Checked);
  }

  lemma AutoWaitKeeps(s: System, t: nat, now: Time)
    requires Safe(s) && Enabled(s, AutoWaitOver(t))
    ensures Safe(Take(s, AutoWaitOver(t), now))
  {
    hide Safe, ClearedAt;
    ThreadEpoch(s, t);
    PutAuto(s, t, Passed);
  }

  // ----- every step -----

  lemma TakeKeeps(s: System, step: Step, now: Time)
    requires Safe(s) && Enabled(s, step)
    ensures Safe(Take(s, step, now))
  {
    hide Safe, Next, Sound, Launch, BeginAppLock;
    match step
    case Env(section) => DoKeeps(s, section, now);
    case CancelActive => DoKeeps(s, DoCut(s.board.active.value.token), now);
    case Start(client, token) => StartKeeps(s, client, token);
    case Access => AccessKeeps(s, now);
    case SetContext(ids) => ContextKeeps(s, ids);
    case Ask(request) => AskKeeps(s, request, now);
    case Wait(timedOut) => WaitKeeps(s, timedOut, now);
    case PlainCheck => PlainCheckKeeps(s, now);
    case LaunchPlain(spawned) => LaunchPlainKeeps(s, spawned, now);
    case LaunchBound(spawned) => LaunchBoundKeeps(s, spawned, now);
    case End => EndKeeps(s);
    case Enter(t, goal) => PutBlocker(s, t, goal, Outside, false);
    case TakeBlockBy(t) => TakeBlockKeeps(s, t, now);
    case WaitOver(t) => WaitOverKeeps(s, t, now);
    case Revoke(t) => RevokeKeepsSafe(s, t, now);
    case FinishManual(t) => FinishManualKeeps(s, t, now);
    case Release(t) => ReleaseKeeps(s, t, now);
    case BeginManual(t) => BeginKeeps(s, t, false, now);
    case BeginAuto(t) => BeginKeeps(s, t, true, now);
    case LookActive(t) => LookKeeps(s, t, now);
    case CheckCovered(t) => CheckCoveredKeeps(s, t, now);
    case KillSeen(t) => KillKeeps(s, t, now);
    case AutoWaitOver(t) => AutoWaitKeeps(s, t, now);
    case FinishAuto(t) => FinishAutoKeeps(s, t, now);
  }
}
