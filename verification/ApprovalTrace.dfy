/**
 Whole runs of the approval coordinator: any interleaving of its sections, with connections cut at any
 moment, and a log of what happened.
*/
module ApprovalTrace {
  import opened Bytes
  import opened Model
  import opened Grants
  import opened Approval

  datatype Section =
    | DoPublish(request: Request)
    | DoPoll(id: Uid, ticket: Ticket, token: Token, timedOut: bool)
    | DoDecide(id: Uid, decision: Decision)
    | DoRegister(client: Client, token: Token, connection: Uid)
    | DoClose
    | DoBeginLock(preserve: bool)
    | DoFinishLock(epoch: nat)
    | DoUnlockApp(epoch: nat)
    | DoReset
    | DoCancelPending
    | DoRevokeAll
    | DoRevokePair(client: Client, secret: Secret)
    | DoRevokeClient(client: Client)
    | DoMutate(secret: Secret, prepared: Result<()>, committed: Result<()>)
    | DoValid(ticket: Ticket)
    | DoRequireAccess(client: Client)
    | DoCovers(client: Client, ids: seq<Secret>)
    | DoCapture(client: Client, snapshot: Result<Uid>)
    | DoGrantUnattended(context: Context, secrets: seq<Secret>, deadline: int, validated: Result<()>)
    | DoLook     // pending, active grants, sessions, observing a client
    | DoCut(token: Token)   // a connection is lost, or its run is cancelled

  datatype Event =
    | Quiet
    | Consented(client: Client, secrets: seq<Secret>)        // a positive decision on the pending request
    | Made(client: Client, secrets: seq<Secret>)             // the waiter turned it into grants
    | MadeUnattended(client: Client, secrets: seq<Secret>)   // consent and grants in one section
    | PairRevoked(client: Client, secret: Secret)
    | ClientRevoked(client: Client)
    | SecretMutated(secret: Secret)
    | LockBegun(preserve: bool)
    | LockFinished
    | AppUnlocked
    | VaultReset
    | PendingCancelled
    | AllRevoked
    | Switched
    | Registered(client: Client, connection: Uid)
    | Cut(clients: set<Client>)
    // Written by the run protocol.
    | Launched(client: Client, secrets: seq<Secret>)
    | Cleared(run: nat, client: Client, secrets: seq<Secret>)

  /** The approval state, the cancelled tokens, and the log. */
  datatype World = World(s: State, dead: set<Token>, log: seq<Event>)

  function SectionState(w: World, a: Section, now: Time): State {
    match a
    case DoPublish(request) => Publish(w.s, w.dead, now, request).0
    case DoPoll(id, ticket, token, timedOut) => Poll(w.s, w.dead, now, id, ticket, token, timedOut).0
    case DoDecide(id, decision) => Decide(w.s, w.dead, now, id, decision).0
    case DoRegister(client, token, connection) => Register(w.s, w.dead, client, token, connection).0
    case DoClose => Close(w.s, w.dead).0
    case DoBeginLock(preserve) => BeginLock(w.s, now, preserve).0
    case DoFinishLock(epoch) => FinishLock(w.s, epoch).0
    case DoUnlockApp(epoch) => UnlockApp(w.s, epoch).0
    case DoReset => Reset(w.s).0
    case DoCancelPending => CancelPending(w.s, now)
    case DoRevokeAll => Approval.RevokeAll(w.s).0
    case DoRevokePair(client, secret) => Approval.RevokePair(w.s, now, client, secret).0
    case DoRevokeClient(client) => Approval.RevokeClient(w.s, now, client).0
    case DoMutate(secret, prepared, committed) => Mutate(w.s, now, secret, prepared, committed).0
    case DoValid(ticket) => Valid(w.s, w.dead, now, ticket).0
    case DoRequireAccess(client) => RequireAccess(w.s, w.dead, now, client).0
    case DoCovers(client, ids) => UnattendedCovers(w.s, w.dead, now, client, ids).0
    case DoCapture(client, snapshot) => Capture(w.s, w.dead, client, snapshot).0
    case DoGrantUnattended(context, secrets, deadline, validated) =>
      GrantUnattended(w.s, w.dead, now, context, secrets, deadline, validated).0
    case DoLook => Prune(Gone(w.s, w.dead), now)
    case DoCut(_) => w.s
  }

  function SectionDead(w: World, a: Section): set<Token> {
    match a
    case DoClose => Close(w.s, w.dead).1
    case DoCut(token) => w.dead + {token}
    case _ => w.dead
  }

  function SectionEvent(w: World, a: Section, now: Time): Event {
    var t := Gone(w.s, w.dead);
    match a
    case DoPublish(request) => if t.access.Active? && t.pending.None? && t.vault != Some(request.vault) then Switched else Quiet
    case DoPoll(id, ticket, token, timedOut) =>
      var d := DecisionFor(t, id);
      if token !in w.dead && d.Some? && Positive(d.value) && Poll(w.s, w.dead, now, id, ticket, token, timedOut).1.result.Ok?
      then Made(t.pending.value.request.client, t.pending.value.request.secrets)
      else Quiet
    case DoDecide(id, decision) =>
      if Decide(w.s, w.dead, now, id, decision).1.Ok? && Positive(decision)
      then Consented(t.pending.value.request.client, t.pending.value.request.secrets)
      else Quiet
    case DoRegister(client, token, connection) =>
      if Register(w.s, w.dead, client, token, connection).1.Ok? then Registered(client, connection) else Quiet
    case DoClose => Cut(w.s.clientSessions.Keys)
    case DoBeginLock(preserve) => if BeginLock(w.s, now, preserve).1.Ok? then LockBegun(preserve) else Quiet
    case DoFinishLock(epoch) => if FinishLock(w.s, epoch).1.Ok? then LockFinished else Quiet
    case DoUnlockApp(epoch) => if UnlockApp(w.s, epoch).1.Ok? then AppUnlocked else Quiet
    case DoReset => if Reset(w.s).1.Ok? then VaultReset else Quiet
    case DoCancelPending => PendingCancelled
    case DoRevokeAll => if Approval.RevokeAll(w.s).1.Ok? then AllRevoked else Quiet
    case DoRevokePair(client, secret) => if Approval.RevokePair(w.s, now, client, secret).1.Ok? then PairRevoked(client, secret) else Quiet
    case DoRevokeClient(client) => if Approval.RevokeClient(w.s, now, client).1.Ok? then ClientRevoked(client) else Quiet
    case DoMutate(secret, prepared, committed) =>
      if prepared.Ok? && w.s.revision < U64_MAX then SecretMutated(secret) else Quiet
    case DoCapture(client, snapshot) =>
      if t.access.Active? && client in t.clientSessions && snapshot.Ok? && t.vault != Some(snapshot.value) then Switched else Quiet
    case DoGrantUnattended(context, secrets, deadline, validated) =>
      if GrantUnattended(w.s, w.dead, now, context, secrets, deadline, validated).1.Ok? then MadeUnattended(context.client, secrets) else Quiet
    case DoCut(token) => Cut(set c | c in w.s.clientSessions && w.s.clientSessions[c] == token)
    case _ => Quiet
  }

  /** A registration draws a connection id that was never used before. */
  predicate Possible(w: World, a: Section) {
    && (a.DoRegister? ==> forall e :: e in w.log ==> !(e.Registered? && e.connection == a.connection))
    // A decision is one of the four a person can make.
    && (a.DoDecide? ==> Positive(a.decision) || a.decision.Deny?)
  }

  function Next(w: World, a: Section, now: Time): World {
    World(SectionState(w, a, now), SectionDead(w, a), w.log + [SectionEvent(w, a, now)])
  }

  const BEGINNING: World := World(INITIAL, {}, [])

  // ----- what undoes what -----

  /** After this event a decision made before it can no longer give the client this secret. */
  predicate UndoesConsent(e: Event, p: Pair) {
    match e
    case PairRevoked(client, secret) => (client, secret) == p
    case ClientRevoked(client) => client == p.0
    case SecretMutated(secret) => secret == p.1
    case LockBegun(_) => true
    case VaultReset => true
    case PendingCancelled => true
    case Cut(clients) => p.0 in clients
    case _ => false
  }

  /** After this event a grant made before it is gone. An automatic lock spares unattended grants. */
  predicate UndoesGrant(e: Event, p: Pair, unattended: bool) {
    match e
    case PairRevoked(client, secret) => (client, secret) == p
    case ClientRevoked(client) => client == p.0
    case SecretMutated(secret) => secret == p.1
    case LockBegun(preserve) => !preserve || !unattended
    case VaultReset => true
    case AllRevoked => true
    case Switched => true
    case Registered(client, _) => client == p.0
    case Cut(clients) => p.0 in clients
    case _ => false
  }

  predicate ConsentsTo(e: Event, p: Pair) {
    (e.Consented? || e.MadeUnattended?) && e.client == p.0 && p.1 in e.secrets
  }

  predicate Makes(e: Event, p: Pair) {
    (e.Made? || e.MadeUnattended?) && e.client == p.0 && p.1 in e.secrets
  }

  /** Consent at `d` became a grant at `g`, and nothing since has undone either. */
  ghost predicate Stands(log: seq<Event>, p: Pair, unattended: bool, d: nat, g: nat) {
    && d <= g < |log| && ConsentsTo(log[d], p) && Makes(log[g], p)
    && (forall i :: d < i < g ==> !UndoesConsent(log[i], p))
    && (forall i :: g < i < |log| ==> !UndoesGrant(log[i], p, unattended))
  }

  ghost predicate Grounded(log: seq<Event>, p: Pair, unattended: bool) {
    exists d: nat, g: nat :: Stands(log, p, unattended, d, g)
  }

  /** A positive decision on the request was made at `d` and nothing since has undone it. */
  ghost predicate Decided(log: seq<Event>, client: Client, secrets: seq<Secret>, d: nat) {
    && d < |log| && log[d] == Consented(client, secrets)
    && forall i, s :: d < i < |log| && s in secrets ==> !UndoesConsent(log[i], (client, s))
  }

  predicate Bumps(e: Event) { e.PairRevoked? || e.ClientRevoked? || e.SecretMutated? || e.AllRevoked? }

  predicate Turns(e: Event) { e.LockBegun? || e.VaultReset? }

  function Count(log: seq<Event>, f: Event -> bool): nat {
    if log == [] then 0 else Count(log[..|log| - 1], f) + if f(log[|log| - 1]) then 1 else 0
  }

  // ----- the invariant -----

  ghost predicate GrantsGrounded(w: World) {
    forall p :: p in w.s.grants && p.0 !in Disconnected(w.s, w.dead) ==> Grounded(w.log, p, w.s.grants[p].Unattended?)
  }

  ghost predicate PendingSound(w: World) {
    w.s.pending.Some? ==>
      var p := w.s.pending.value;
      && (forall x :: x in p.request.secrets ==> x in p.requested)
      && (p.decision.Some? && Positive(p.decision.value) && p.request.client !in Disconnected(w.s, w.dead) ==>
            exists d: nat :: Decided(w.log, p.request.client, p.request.secrets, d))
  }

  /** While the app is not active every grant is unattended and a pending request is already cancelled. */
  predicate LockedSound(s: State) {
    !s.access.Active? ==>
      && (forall p :: p in s.grants ==> s.grants[p].Unattended?)
      && (s.pending.Some? ==> s.pending.value.decision == Some(Cancel))
      && s.access.epoch == s.lockEpoch
  }

  /** The client's present connection is its last registration. */
  ghost predicate Connected(log: seq<Event>, client: Client, connection: Uid, i: nat) {
    && i < |log| && log[i] == Registered(client, connection)
    && forall j :: i < j < |log| ==> !log[j].Registered? || log[j].client != client
  }

  ghost predicate SessionsSound(w: World) {
    && w.s.sessions.Keys == w.s.clientSessions.Keys
    && forall c :: c in w.s.sessions ==> exists i: nat :: Connected(w.log, c, w.s.sessions[c], i)
  }

  ghost predicate CountsSound(w: World) {
    w.s.revision == Count(w.log, Bumps) && w.s.lockEpoch == Count(w.log, Turns)
  }

  ghost predicate Sound(w: World) {
    GrantsGrounded(w) && PendingSound(w) && LockedSound(w.s) && SessionsSound(w) && CountsSound(w)
  }

  // ----- what one section may do -----

  ghost predicate JustMade(w: World, e: Event, p: Pair) {
    && w.s.access.Active? && Makes(e, p)
    && (e.Made? ==>
          && w.s.pending.Some?
          && var q := w.s.pending.value;
             q.decision.Some? && Positive(q.decision.value) && q.request.client !in Disconnected(w.s, w.dead)
             && e == Made(q.request.client, q.request.secrets))
  }

  ghost predicate GrantsTame(w: World, v: World, e: Event) {
    forall p :: p in v.s.grants ==>
      || JustMade(w, e, p)
      || (p in w.s.grants && w.s.grants[p] == v.s.grants[p]
          && (p.0 !in Disconnected(v.s, v.dead) ==>
                p.0 !in Disconnected(w.s, w.dead) && !UndoesGrant(e, p, v.s.grants[p].Unattended?)))
  }

  /** The access state only changes with an event that says so. */
  predicate AccessTame(w: World, v: World, e: Event) {
    match e
    case LockBegun(_) => w.s.access.Active? && v.s.access == Locking(v.s.lockEpoch)
    case LockFinished => w.s.access.Locking? && v.s.access == Locked(w.s.access.epoch)
    case AppUnlocked => w.s.access.Locked? && v.s.access.Active?
    case VaultReset => v.s.access.Active?
    case _ => v.s.access == w.s.access
  }

  ghost predicate PendingTame(w: World, v: World, e: Event) {
    v.s.pending.Some? ==>
      var q := v.s.pending.value;
      && (forall x :: x in q.request.secrets ==> x in q.requested)
      && (q.decision.Some? && Positive(q.decision.value) && q.request.client !in Disconnected(v.s, v.dead) ==>
            || e == Consented(q.request.client, q.request.secrets)
            || (w.s.pending == Some(q) && q.request.client !in Disconnected(w.s, w.dead)
                && forall x :: x in q.request.secrets ==> !UndoesConsent(e, (q.request.client, x))))
  }

  ghost predicate SessionsTame(w: World, v: World, e: Event) {
    && v.s.sessions.Keys == v.s.clientSessions.Keys
    && forall c :: c in v.s.sessions ==>
         || e == Registered(c, v.s.sessions[c])
         || (c in w.s.sessions && w.s.sessions[c] == v.s.sessions[c] && !(e.Registered? && e.client == c))
  }

  ghost predicate CountsTame(w: World, v: World, e: Event) {
    && v.s.revision == w.s.revision + (if Bumps(e) then 1 else 0)
    && v.s.lockEpoch == w.s.lockEpoch + (if Turns(e) then 1 else 0)
  }

  ghost predicate Tame(w: World, v: World, e: Event) {
    GrantsTame(w, v, e) && PendingTame(w, v, e) && LockedSound(v.s) && SessionsTame(w, v, e) && CountsTame(w, v, e) && AccessTame(w, v, e)
  }

  // ----- a tame step keeps the invariant -----

  lemma GroundedGrows(log: seq<Event>, e: Event, p: Pair, unattended: bool)
    requires Grounded(log, p, unattended) && !UndoesGrant(e, p, unattended)
    ensures Grounded(log + [e], p, unattended)
  {
    var d: nat, g: nat :| Stands(log, p, unattended, d, g);
    assert Stands(log + [e], p, unattended, d, g);
  }

  lemma DecidedGrows(log: seq<Event>, e: Event, client: Client, secrets: seq<Secret>, d: nat)
    requires Decided(log, client, secrets, d)
    requires forall x :: x in secrets ==> !UndoesConsent(e, (client, x))
    ensures Decided(log + [e], client, secrets, d)
  {}

  lemma MadeIsGrounded(w: World, e: Event, p: Pair, unattended: bool)
    requires PendingSound(w) && JustMade(w, e, p)
    ensures Grounded(w.log + [e], p, unattended)
  {
    var log := w.log + [e];
    var n := |w.log|;
    if e.MadeUnattended? {
      assert Stands(log, p, unattended, n, n);
    } else {
      var q := w.s.pending.value;
      var d: nat :| Decided(w.log, q.request.client, q.request.secrets, d);
      assert Stands(log, p, unattended, d, n);
    }
  }

  lemma GrantsKeep(w: World, v: World, e: Event)
    requires GrantsGrounded(w) && PendingSound(w) && GrantsTame(w, v, e) && v.log == w.log + [e]
    ensures GrantsGrounded(v)
  {
    hide Grounded, UndoesGrant, PendingSound;
    forall p | p in v.s.grants && p.0 !in Disconnected(v.s, v.dead) ensures Grounded(v.log, p, v.s.grants[p].Unattended?) {
      if JustMade(w, e, p) {
        MadeIsGrounded(w, e, p, v.s.grants[p].Unattended?);
      } else {
        GroundedGrows(w.log, e, p, v.s.grants[p].Unattended?);
      }
    }
  }

  lemma PendingKeep(w: World, v: World, e: Event)
    requires PendingSound(w) && PendingTame(w, v, e) && v.log == w.log + [e]
    ensures PendingSound(v)
  {
    hide UndoesConsent;
    if v.s.pending.Some? {
      var q := v.s.pending.value;
      if q.decision.Some? && Positive(q.decision.value) && q.request.client !in Disconnected(v.s, v.dead) {
        if e == Consented(q.request.client, q.request.secrets) {
          assert Decided(v.log, q.request.client, q.request.secrets, |w.log|);
        } else {
          var d: nat :| Decided(w.log, q.request.client, q.request.secrets, d);
          DecidedGrows(w.log, e, q.request.client, q.request.secrets, d);
        }
      }
    }
  }

  lemma SessionsKeep(w: World, v: World, e: Event)
    requires SessionsSound(w) && SessionsTame(w, v, e) && v.log == w.log + [e]
    ensures SessionsSound(v)
  {
    forall c | c in v.s.sessions ensures exists i: nat :: Connected(v.log, c, v.s.sessions[c], i) {
      if e == Registered(c, v.s.sessions[c]) {
        assert Connected(v.log, c, v.s.sessions[c], |w.log|);
      } else {
        var i: nat :| Connected(w.log, c, w.s.sessions[c], i);
        assert Connected(v.log, c, v.s.sessions[c], i);
      }
    }
  }

  lemma CountsKeep(w: World, v: World, e: Event)
    requires CountsSound(w) && CountsTame(w, v, e) && v.log == w.log + [e]
    ensures CountsSound(v)
  {
    assert v.log[..|v.log| - 1] == w.log;
  }

  lemma TameKeeps(w: World, v: World, e: Event)
    requires Sound(w) && Tame(w, v, e) && v.log == w.log + [e]
    ensures Sound(v)
  {
    hide GrantsGrounded, PendingSound, LockedSound, SessionsSound, CountsSound, GrantsTame, PendingTame, SessionsTame, CountsTame, AccessTame;
    GrantsKeep(w, v, e);
    PendingKeep(w, v, e);
    SessionsKeep(w, v, e);
    CountsKeep(w, v, e);
  }

  // ----- the pieces sections are made of -----

  /** What `Gone` leaves. */
  ghost predicate Left(s: State, t: State, dead: set<Token>) {
    && (forall p :: p in t.grants ==> p in s.grants && t.grants[p] == s.grants[p] && p.0 !in Disconnected(s, dead))
    && Disconnected(t, dead) == {}
    && (t.pending.Some? ==> s.pending.Some? && t.pending.value.request == s.pending.value.request && t.pending.value.requested == s.pending.value.requested)
    && (t.pending.Some? ==> t.pending.value.decision == Some(Cancel) || (t.pending == s.pending && t.pending.value.request.client !in Disconnected(s, dead)))
    && (forall c :: c in t.sessions ==> c in s.sessions && t.sessions[c] == s.sessions[c])
    && (s.sessions.Keys == s.clientSessions.Keys ==> t.sessions.Keys == t.clientSessions.Keys)
    && t.access == s.access && t.lockEpoch == s.lockEpoch && t.revision == s.revision
  }

  lemma GoneLeaves(s: State, dead: set<Token>)
    ensures Left(s, Gone(s, dead), dead)
  {}

  lemma PurgeKeeps(m: Table, now: Time)
    ensures forall p :: p in Purge(m, now) ==> p in m && Purge(m, now)[p] == m[p]
  {}

  lemma GrantKeeps(m: Table, op: Grants.Op, now: Time)
    requires IsGrant(op)
    ensures forall p :: p in Grants.Do(m, op, now) ==>
              || (p.0 == op.client && p.1 in op.secrets && Grants.Do(m, op, now)[p] == DeadlineOf(op, now))
              || (p in m && Grants.Do(m, op, now)[p] == m[p])
  {
    hide Live, DeadlineOf;
  }

  lemma RevokeKeeps(m: Table, op: Grants.Op, now: Time)
    requires !IsGrant(op)
    ensures forall p :: p in Grants.Do(m, op, now) ==>
              p in m && Grants.Do(m, op, now)[p] == m[p] && !Revokes(op, p, m[p])
  {
    hide Live;
  }

  /** Without a purge of connections nobody's connection changes. */
  lemma SameConnections(s: State, t: State, dead: set<Token>)
    requires s.clientSessions == t.clientSessions
    ensures Disconnected(s, dead) == Disconnected(t, dead)
  {}

  // ----- every section is tame -----

  /** A section that only drops connections, expired grants or the pending request. */
  lemma LeftIsTame(w: World, v: World)
    requires Sound(w) && Left(w.s, v.s, w.dead) && v.dead == w.dead
    ensures Tame(w, v, Quiet)
  {
    hide Grounded, Decided, Connected, Count, GrantsGrounded, CountsSound, Live, Disconnected;
  }

  /** What a section does after dropping the disconnected clients, `t` being what they left: it keeps or
      makes grants, and keeps, makes, decides or drops the request. */
  ghost predicate Visits(w: World, t: State, v: World, e: Event) {
    && v.dead == w.dead && (e.Quiet? || e.Consented? || e.Made? || e.MadeUnattended? || e.Switched?)
    && v.s.clientSessions == t.clientSessions && v.s.sessions == t.sessions
    && v.s.access == t.access && v.s.lockEpoch == t.lockEpoch && v.s.revision == t.revision
    && (forall p :: p in v.s.grants ==> JustMade(w, e, p) || (p in t.grants && v.s.grants[p] == t.grants[p] && !e.Switched?))
    && (v.s.pending.Some? ==>
          || v.s.pending == t.pending
          || (t.access.Active? && (forall x :: x in v.s.pending.value.request.secrets ==> x in v.s.pending.value.requested)
              && (v.s.pending.value.decision.Some? && Positive(v.s.pending.value.decision.value) ==>
                    e == Consented(v.s.pending.value.request.client, v.s.pending.value.request.secrets)))
          || (v.s.pending.value.decision == Some(Cancel) && t.pending.Some? && v.s.pending.value.request == t.pending.value.request
              && v.s.pending.value.requested == t.pending.value.requested))
  }

  lemma VisitIsTame(w: World, t: State, v: World, e: Event)
    requires Sound(w) && Left(w.s, t, w.dead) && Visits(w, t, v, e)
    ensures Tame(w, v, e)
  {
    hide Grounded, Decided, Connected, Count, GrantsGrounded, CountsSound, Disconnected, Left, Visits;
    LeftParts(w.s, t, w.dead);
    VisitParts(w, t, v, e);
    SameConnections(t, v.s, w.dead);
    VisitGrants(w, t, v, e);
  }

  lemma VisitGrants(w: World, t: State, v: World, e: Event)
    requires LockedSound(w.s) && Left(w.s, t, w.dead) && Visits(w, t, v, e) && Disconnected(v.s, v.dead) == {}
    ensures GrantsTame(w, v, e) && LockedSound(v.s)
  {
    hide Disconnected;
  }

  lemma LeftParts(s: State, t: State, dead: set<Token>)
    requires Left(s, t, dead)
    ensures Disconnected(t, dead) == {}
    ensures t.pending.Some? ==> s.pending.Some? && t.pending.value.request == s.pending.value.request && t.pending.value.requested == s.pending.value.requested
    ensures t.pending.Some? ==> t.pending.value.decision == Some(Cancel) || (t.pending == s.pending && t.pending.value.request.client !in Disconnected(s, dead))
    ensures forall c :: c in t.sessions ==> c in s.sessions && t.sessions[c] == s.sessions[c]
    ensures s.sessions.Keys == s.clientSessions.Keys ==> t.sessions.Keys == t.clientSessions.Keys
    ensures t.access == s.access && t.lockEpoch == s.lockEpoch && t.revision == s.revision
  {}

  lemma VisitParts(w: World, t: State, v: World, e: Event)
    requires Visits(w, t, v, e)
    ensures v.dead == w.dead && (e.Quiet? || e.Consented? || e.Made? || e.MadeUnattended? || e.Switched?)
    ensures v.s.clientSessions == t.clientSessions && v.s.sessions == t.sessions
    ensures v.s.access == t.access && v.s.lockEpoch == t.lockEpoch && v.s.revision == t.revision
    ensures v.s.pending.Some? ==>
              || v.s.pending == t.pending
              || (t.access.Active? && (forall x :: x in v.s.pending.value.request.secrets ==> x in v.s.pending.value.requested)
                  && (v.s.pending.value.decision.Some? && Positive(v.s.pending.value.decision.value) ==>
                        e == Consented(v.s.pending.value.request.client, v.s.pending.value.request.secrets)))
              || (v.s.pending.value.decision == Some(Cancel) && t.pending.Some? && v.s.pending.value.request == t.pending.value.request
                  && v.s.pending.value.requested == t.pending.value.requested)
  {
    hide JustMade;
  }

  lemma PruneLeaves(s: State, t: State, dead: set<Token>, now: Time)
    requires Left(s, t, dead)
    ensures Left(s, Prune(t, now), dead) && Left(s, t.(pending := None), dead) && Left(s, Prune(t.(pending := None), now), dead)
  {
    hide Purge;
    PurgeKeeps(t.grants, now);
    SameConnections(t, Prune(t, now), dead);
    SameConnections(t, t.(pending := None), dead);
    SameConnections(t, Prune(t.(pending := None), now), dead);
  }

  lemma PollIsTame(w: World, id: Uid, ticket: Ticket, token: Token, timedOut: bool, now: Time)
    requires Sound(w)
    ensures Tame(w, Next(w, DoPoll(id, ticket, token, timedOut), now), SectionEvent(w, DoPoll(id, ticket, token, timedOut), now))
  {
    hide Sound, Tame, Gone, Purge, Grants.Do, GrantOf, MissingIn, Left, Prune;
    var t := Gone(w.s, w.dead);
    GoneLeaves(w.s, w.dead);
    PruneLeaves(w.s, t, w.dead, now);
    var d := DecisionFor(t, id);
    var v := Next(w, DoPoll(id, ticket, token, timedOut), now);
    if SectionEvent(w, DoPoll(id, ticket, token, timedOut), now).Made? {
      GrantingPollIsTame(w, id, ticket, token, timedOut, now);
    } else {
      LeftIsTame(w, v);
    }
  }

  lemma PublishIsTame(w: World, request: Request, now: Time)
    requires Sound(w)
    ensures Tame(w, Next(w, DoPublish(request), now), SectionEvent(w, DoPublish(request), now))
  {
    hide Sound, Tame, Next, SectionEvent, Gone, Left, Visits;
    GoneLeaves(w.s, w.dead);
    PublishVisits(w, Gone(w.s, w.dead), request, now);
    VisitIsTame(w, Gone(w.s, w.dead), Next(w, DoPublish(request), now), SectionEvent(w, DoPublish(request), now));
  }

  lemma PublishVisits(w: World, t: State, request: Request, now: Time)
    requires t == Gone(w.s, w.dead)
    ensures Visits(w, t, Next(w, DoPublish(request), now), SectionEvent(w, DoPublish(request), now))
  {
    hide Gone, Purge, MissingIn, Covered, JustMade, Filter, Distinct;
    PurgeKeeps(t.grants, now);
    PurgeKeeps(map[], now);
    AskedIsRequested(w.s, w.dead, now, request);
  }

  /** A request that is published asks for some of what was requested. */
  lemma AskedIsRequested(s: State, dead: set<Token>, now: Time, request: Request)
    ensures var r := Publish(s, dead, now, request);
            r.1.Waiting? ==> r.0.pending.Some? && r.0.pending.value.decision.None?
                             && forall x :: x in r.0.pending.value.request.secrets ==> x in r.0.pending.value.requested
  {
    hide Gone, Purge, MissingIn, Covered;
  }

  lemma GrantingPollIsTame(w: World, id: Uid, ticket: Ticket, token: Token, timedOut: bool, now: Time)
    requires Sound(w) && SectionEvent(w, DoPoll(id, ticket, token, timedOut), now).Made?
    ensures Tame(w, Next(w, DoPoll(id, ticket, token, timedOut), now), SectionEvent(w, DoPoll(id, ticket, token, timedOut), now))
  {
    hide Grounded, Decided, Connected, Count, GrantsGrounded, CountsSound, PendingSound, SessionsSound, Tame, Next, SectionState, SectionDead, Gone, Left, Visits;
    GoneLeaves(w.s, w.dead);
    PollVisits(w, Gone(w.s, w.dead), id, ticket, token, timedOut, now);
    VisitIsTame(w, Gone(w.s, w.dead), Next(w, DoPoll(id, ticket, token, timedOut), now), SectionEvent(w, DoPoll(id, ticket, token, timedOut), now));
  }

  lemma PollVisits(w: World, t: State, id: Uid, ticket: Ticket, token: Token, timedOut: bool, now: Time)
    requires t == Gone(w.s, w.dead) && LockedSound(w.s) && SectionEvent(w, DoPoll(id, ticket, token, timedOut), now).Made?
    ensures Visits(w, t, Next(w, DoPoll(id, ticket, token, timedOut), now), SectionEvent(w, DoPoll(id, ticket, token, timedOut), now))
  {
    hide Gone, Purge, Grants.Do, GrantOf, DeadlineOf, MissingIn, Disconnected;
    GoneLeaves(w.s, w.dead);
    var d := DecisionFor(t, id);
    GrantKeeps(t.grants, GrantOf(d.value, t.pending.value.request), now);
  }

  lemma DecideIsTame(w: World, id: Uid, d: Decision, now: Time)
    requires Sound(w) && (Positive(d) || d.Deny?)
    ensures Tame(w, Next(w, DoDecide(id, d), now), SectionEvent(w, DoDecide(id, d), now))
  {
    hide Grounded, Decided, Connected, Count, GrantsGrounded, CountsSound, SessionsSound, Tame, Next, SectionEvent, Gone, Left, Visits, Disconnected;
    GoneLeaves(w.s, w.dead);
    LeftParts(w.s, Gone(w.s, w.dead), w.dead);
    DecideVisits(w, Gone(w.s, w.dead), id, d, now);
    VisitIsTame(w, Gone(w.s, w.dead), Next(w, DoDecide(id, d), now), SectionEvent(w, DoDecide(id, d), now));
  }

  lemma DecideVisits(w: World, t: State, id: Uid, d: Decision, now: Time)
    requires t == Gone(w.s, w.dead) && (Positive(d) || d.Deny?)
    requires t.pending.Some? && !t.access.Active? ==> t.pending.value.decision.Some?
    requires t.pending.Some? ==> forall x :: x in t.pending.value.request.secrets ==> x in t.pending.value.requested
    ensures Visits(w, t, Next(w, DoDecide(id, d), now), SectionEvent(w, DoDecide(id, d), now))
  {
    hide Gone, Purge, JustMade;
    PurgeKeeps(t.grants, now);
  }

  lemma RegisterIsTame(w: World, client: Client, token: Token, connection: Uid, now: Time)
    requires Sound(w)
    ensures Tame(w, Next(w, DoRegister(client, token, connection), now), SectionEvent(w, DoRegister(client, token, connection), now))
  {
    hide Sound, Tame, Gone, Left;
    var a := DoRegister(client, token, connection);
    GoneLeaves(w.s, w.dead);
    if Register(w.s, w.dead, client, token, connection).1.Ok? {
      RegisteredIsTame(w, Gone(w.s, w.dead), Next(w, a, now), client, token, connection);
    } else {
      LeftIsTame(w, Next(w, a, now));
    }
  }

  lemma RegisteredIsTame(w: World, t: State, v: World, client: Client, token: Token, connection: Uid)
    requires Sound(w) && Left(w.s, t, w.dead) && v.dead == w.dead
    requires client !in t.clientSessions
    requires v.s == t.(grants := map p | p in t.grants && p.0 != client :: t.grants[p],
                       sessions := t.sessions[client := connection],
                       clientSessions := t.clientSessions[client := token])
    ensures Tame(w, v, Registered(client, connection))
  {
    hide Grounded, Decided, Connected, Count, GrantsGrounded, CountsSound, Live;
    forall c | c in Disconnected(v.s, v.dead) ensures c in Disconnected(t, w.dead) || c == client {}
    hide Disconnected;
  }

  /** A section that does not look at the connections: fewer grants, and the request kept or cancelled. */
  lemma StillIsTame(w: World, v: World, e: Event)
    requires Sound(w) && v.dead == w.dead && v.s.clientSessions == w.s.clientSessions && v.s.sessions == w.s.sessions
    requires CountsTame(w, v, e) && AccessTame(w, v, e) && LockedSound(v.s) && !e.Registered?
    requires forall p :: p in v.s.grants ==> p in w.s.grants && w.s.grants[p] == v.s.grants[p] && !UndoesGrant(e, p, v.s.grants[p].Unattended?)
    requires v.s.pending == Cancelled(w.s.pending)
          || (v.s.pending == w.s.pending && v.s.pending.Some?
              && forall x :: x in v.s.pending.value.requested ==> !UndoesConsent(e, (v.s.pending.value.request.client, x)))
    ensures Tame(w, v, e)
  {
    hide Grounded, Decided, Connected, Count, GrantsGrounded, CountsSound, CountsTame, AccessTame, LockedSound, Disconnected;
    SameConnections(w.s, v.s, w.dead);
  }

  lemma BeginLockIsTame(w: World, preserve: bool, now: Time)
    requires Sound(w)
    ensures Tame(w, Next(w, DoBeginLock(preserve), now), SectionEvent(w, DoBeginLock(preserve), now))
  {
    hide Sound, Tame, Purge, Left;
    SelfLeft(w);
    if BeginLock(w.s, now, preserve).1.Ok? {
      RevokeKeeps(w.s.grants, RetainUnattended, now);
      hide Grants.Do;
      StillIsTame(w, Next(w, DoBeginLock(preserve), now), LockBegun(preserve));
    }
  }

  lemma FinishIsTame(w: World, a: Section, now: Time)
    requires Sound(w) && (a.DoFinishLock? || a.DoUnlockApp?)
    ensures Tame(w, Next(w, a, now), SectionEvent(w, a, now))
  {
    hide Sound, Tame, Left;
    SelfLeft(w);
    SoundIsLocked(w);
    var e := SectionEvent(w, a, now);
    if !e.Quiet? { StillIsTame(w, Next(w, a, now), e); }
  }

  lemma SoundIsLocked(w: World)
    requires Sound(w)
    ensures LockedSound(w.s)
  {
    hide LockedSound;
  }

  lemma ResetIsTame(w: World, now: Time)
    requires Sound(w)
    ensures Tame(w, Next(w, DoReset, now), SectionEvent(w, DoReset, now))
  {
    hide Sound, Tame, Left;
    SelfLeft(w);
    if Reset(w.s).1.Ok? { StillIsTame(w, Next(w, DoReset, now), VaultReset); }
  }

  lemma RevokeIsTame(w: World, a: Section, now: Time)
    requires Sound(w) && (a.DoCancelPending? || a.DoRevokeAll? || a.DoRevokePair? || a.DoRevokeClient? || a.DoMutate?)
    ensures Tame(w, Next(w, a, now), SectionEvent(w, a, now))
  {
    hide Sound, Tame, SectionEvent, Next;
    match a
    case DoCancelPending => CancelIsTame(w, now);
    case DoRevokeAll => RevokeAllIsTame(w, now);
    case DoRevokePair(client, secret) => RevokePairIsTame(w, client, secret, now);
    case DoRevokeClient(client) => RevokeClientIsTame(w, client, now);
    case DoMutate(secret, prepared, committed) => MutateIsTame(w, secret, prepared, committed, now);
  }

  lemma CancelIsTame(w: World, now: Time)
    requires Sound(w)
    ensures Tame(w, Next(w, DoCancelPending, now), SectionEvent(w, DoCancelPending, now))
  {
    hide Sound, Tame, Purge, Left;
    PurgeKeeps(w.s.grants, now);
    SoundIsLocked(w);
    StillIsTame(w, Next(w, DoCancelPending, now), PendingCancelled);
  }

  lemma RevokeAllIsTame(w: World, now: Time)
    requires Sound(w)
    ensures Tame(w, Next(w, DoRevokeAll, now), SectionEvent(w, DoRevokeAll, now))
  {
    hide Sound, Tame, Left;
    SelfLeft(w);
    SoundIsLocked(w);
    if Approval.RevokeAll(w.s).1.Ok? { StillIsTame(w, Next(w, DoRevokeAll, now), AllRevoked); }
  }

  /** A revocation: fewer grants, and a request it covers is cancelled. */
  lemma RevokingIsTame(w: World, v: World, e: Event)
    requires Sound(w) && v.dead == w.dead && (e.PairRevoked? || e.ClientRevoked? || e.SecretMutated?)
    requires v.s == w.s.(revision := w.s.revision + 1, pending := v.s.pending, grants := v.s.grants)
    requires forall p :: p in v.s.grants ==> p in w.s.grants && w.s.grants[p] == v.s.grants[p] && !UndoesGrant(e, p, false)
    requires v.s.pending == Cancelled(w.s.pending)
          || (v.s.pending == w.s.pending && v.s.pending.Some?
              && forall x :: x in v.s.pending.value.requested ==> !UndoesConsent(e, (v.s.pending.value.request.client, x)))
    ensures Tame(w, v, e)
  {
    hide Sound, Tame, UndoesConsent;
    SoundIsLocked(w);
    StillIsTame(w, v, e);
  }

  lemma RevokePairIsTame(w: World, client: Client, secret: Secret, now: Time)
    requires Sound(w)
    ensures Tame(w, Next(w, DoRevokePair(client, secret), now), SectionEvent(w, DoRevokePair(client, secret), now))
  {
    hide Sound, Tame, Purge, Grants.Do, Left;
    RevokeKeeps(w.s.grants, Grants.RevokePair(client, secret), now);
    SelfLeft(w);
    if w.s.revision < U64_MAX {
      RevokingIsTame(w, Next(w, DoRevokePair(client, secret), now), PairRevoked(client, secret));
    }
  }

  lemma RevokeClientIsTame(w: World, client: Client, now: Time)
    requires Sound(w)
    ensures Tame(w, Next(w, DoRevokeClient(client), now), SectionEvent(w, DoRevokeClient(client), now))
  {
    hide Sound, Tame, Purge, Grants.Do, Left;
    RevokeKeeps(w.s.grants, Grants.RevokeClient(client), now);
    PurgeKeeps(Grants.Do(w.s.grants, Grants.RevokeClient(client), now), now);
    SelfLeft(w);
    if w.s.revision < U64_MAX {
      RevokingIsTame(w, Next(w, DoRevokeClient(client), now), ClientRevoked(client));
    }
  }

  lemma MutateIsTame(w: World, secret: Secret, prepared: Result<()>, committed: Result<()>, now: Time)
    requires Sound(w)
    ensures Tame(w, Next(w, DoMutate(secret, prepared, committed), now), SectionEvent(w, DoMutate(secret, prepared, committed), now))
  {
    hide Sound, Tame, Purge, Grants.Do, Left;
    RevokeKeeps(w.s.grants, RevokeSecret(secret), now);
    PurgeKeeps(Grants.Do(w.s.grants, RevokeSecret(secret), now), now);
    SelfLeft(w);
    if prepared.Ok? && w.s.revision < U64_MAX {
      RevokingIsTame(w, Next(w, DoMutate(secret, prepared, committed), now), SecretMutated(secret));
    }
  }

  /** Nothing changes and nothing is written. */
  lemma SelfLeft(w: World)
    requires Sound(w)
    ensures forall v: World :: v.s == w.s && v.dead == w.dead ==> Tame(w, v, Quiet)
  {
    hide Grounded, Decided, Connected, Count, GrantsGrounded, CountsSound, Disconnected;
  }

  lemma UseIsTame(w: World, a: Section, now: Time)
    requires Sound(w) && (a.DoValid? || a.DoRequireAccess? || a.DoCovers? || a.DoLook?)
    ensures Tame(w, Next(w, a, now), SectionEvent(w, a, now))
  {
    hide Sound, Tame, Purge, Gone, Left, Prune, Covered, ClientHasUnattended, MissingIn;
    GoneLeaves(w.s, w.dead);
    PruneLeaves(w.s, Gone(w.s, w.dead), w.dead, now);
    LeftIsTame(w, Next(w, a, now));
  }

  lemma CaptureIsTame(w: World, client: Client, snapshot: Result<Uid>, now: Time)
    requires Sound(w)
    ensures Tame(w, Next(w, DoCapture(client, snapshot), now), SectionEvent(w, DoCapture(client, snapshot), now))
  {
    hide Sound, Tame, Next, SectionEvent, Gone, Left, Visits;
    GoneLeaves(w.s, w.dead);
    CaptureVisits(w, Gone(w.s, w.dead), client, snapshot, now);
    VisitIsTame(w, Gone(w.s, w.dead), Next(w, DoCapture(client, snapshot), now), SectionEvent(w, DoCapture(client, snapshot), now));
  }

  lemma CaptureVisits(w: World, t: State, client: Client, snapshot: Result<Uid>, now: Time)
    requires t == Gone(w.s, w.dead)
    ensures Visits(w, t, Next(w, DoCapture(client, snapshot), now), SectionEvent(w, DoCapture(client, snapshot), now))
  {
    hide Gone, JustMade;
  }

  lemma GrantUnattendedIsTame(w: World, a: Section, now: Time)
    requires Sound(w) && a.DoGrantUnattended?
    ensures Tame(w, Next(w, a, now), SectionEvent(w, a, now))
  {
    hide Grounded, Decided, Connected, Count, GrantsGrounded, CountsSound, SessionsSound, LockedSound, Tame, Next, SectionEvent, Gone, Left, Visits, Disconnected;
    GoneLeaves(w.s, w.dead);
    LeftParts(w.s, Gone(w.s, w.dead), w.dead);
    GrantUnattendedVisits(w, Gone(w.s, w.dead), a, now);
    VisitIsTame(w, Gone(w.s, w.dead), Next(w, a, now), SectionEvent(w, a, now));
  }

  lemma GrantUnattendedVisits(w: World, t: State, a: Section, now: Time)
    requires t == Gone(w.s, w.dead) && a.DoGrantUnattended? && t.access == w.s.access
    requires t.pending.Some? ==> forall x :: x in t.pending.value.request.secrets ==> x in t.pending.value.requested
    ensures Visits(w, t, Next(w, a, now), SectionEvent(w, a, now))
  {
    hide Gone, Purge, Grants.Do, DeadlineOf, Disconnected;
    GrantKeeps(t.grants, GrantUnattendedUntil(a.context.client, a.secrets, a.deadline), now);
  }

  lemma CutIsTame(w: World, token: Token, now: Time)
    requires Sound(w)
    ensures Tame(w, Next(w, DoCut(token), now), SectionEvent(w, DoCut(token), now))
  {
    hide Grounded, Decided, Connected, Count, GrantsGrounded, CountsSound, Live, Gone;
  }

  lemma CloseIsTame(w: World, now: Time)
    requires Sound(w)
    ensures Tame(w, Next(w, DoClose, now), SectionEvent(w, DoClose, now))
  {
    hide Grounded, Decided, Connected, Count, GrantsGrounded, CountsSound, Live, Gone;
    var open, dead := w.s.(closed := true), w.dead + w.s.clientSessions.Values;
    GoneLeaves(open, dead);
    EverybodyIsOut(open, dead);
    SameConnections(w.s, open, dead);
  }

  lemma EverybodyIsOut(s: State, dead: set<Token>)
    requires s.clientSessions.Values <= dead
    ensures Disconnected(s, dead) == s.clientSessions.Keys
  {
    forall c | c in s.clientSessions ensures s.clientSessions[c] in dead { assert s.clientSessions[c] in s.clientSessions.Values; }
  }

  lemma NextIsTame(w: World, a: Section, now: Time)
    requires Sound(w) && Possible(w, a)
    ensures Tame(w, Next(w, a, now), SectionEvent(w, a, now))
  {
    hide Sound, Tame, Next, SectionEvent;
    match a
    case DoPublish(request) => PublishIsTame(w, request, now);
    case DoPoll(id, ticket, token, timedOut) => PollIsTame(w, id, ticket, token, timedOut, now);
    case DoDecide(id, decision) => DecideIsTame(w, id, decision, now);
    case DoRegister(client, token, connection) => RegisterIsTame(w, client, token, connection, now);
    case DoClose => CloseIsTame(w, now);
    case DoCut(token) => CutIsTame(w, token, now);
    case DoBeginLock(preserve) => BeginLockIsTame(w, preserve, now);
    case DoCapture(client, snapshot) => CaptureIsTame(w, client, snapshot, now);
    case DoFinishLock(_) => FinishIsTame(w, a, now);
    case DoUnlockApp(_) => FinishIsTame(w, a, now);
    case DoReset => ResetIsTame(w, now);
    case DoGrantUnattended(_, _, _, _) => GrantUnattendedIsTame(w, a, now);
    case DoCancelPending => RevokeIsTame(w, a, now);
    case DoRevokeAll => RevokeIsTame(w, a, now);
    case DoRevokePair(_, _) => RevokeIsTame(w, a, now);
    case DoRevokeClient(_) => RevokeIsTame(w, a, now);
    case DoMutate(_, _, _) => RevokeIsTame(w, a, now);
    case _ => UseIsTame(w, a, now);
  }

  lemma NextKeeps(w: World, a: Section, now: Time)
    requires Sound(w) && Possible(w, a)
    ensures Sound(Next(w, a, now))
  {
    hide Sound, Tame, SectionEvent, SectionState, SectionDead;
    NextIsTame(w, a, now);
    TameKeeps(w, Next(w, a, now), SectionEvent(w, a, now));
  }

  // ----- every run -----

  datatype Turn = Turn(section: Section, now: Time)

  ghost predicate AllPossible(w: World, turns: seq<Turn>)
    decreases |turns|
  {
    turns == [] || (Possible(w, turns[0].section) && AllPossible(Next(w, turns[0].section, turns[0].now), turns[1..]))
  }

  ghost function Run(w: World, turns: seq<Turn>): World
    decreases |turns|
  {
    if turns == [] then w else Run(Next(w, turns[0].section, turns[0].now), turns[1..])
  }

  lemma {:induction false} RunKeeps(w: World, turns: seq<Turn>)
    requires Sound(w) && AllPossible(w, turns)
    ensures Sound(Run(w, turns))
    decreases |turns|
  {
    hide Sound, Possible, Next;
    if turns != [] {
      NextKeeps(w, turns[0].section, turns[0].now);
      RunKeeps(Next(w, turns[0].section, turns[0].now), turns[1..]);
    }
  }

  lemma BeginningIsSound()
    ensures Sound(BEGINNING)
  {}

  lemma RunIsSound(turns: seq<Turn>)
    requires AllPossible(BEGINNING, turns)
    ensures Sound(Run(BEGINNING, turns))
  {
    hide Sound, AllPossible, Run;
    BeginningIsSound();
    RunKeeps(BEGINNING, turns);
  }

  /** In every run, each live grant of a connected client comes from a consent that nothing undid before
      it became a grant and that nothing has undone since: no revocation of the pair or the client, no
      save or deletion of the secret, no lock, no vault lock, no disconnection. So a decision made before
      such an event never gives a grant after it, whenever the waiter runs. */
  lemma NoStaleDecision(turns: seq<Turn>, p: Pair)
    requires AllPossible(BEGINNING, turns)
    ensures var w := Run(BEGINNING, turns);
            p in w.s.grants && p.0 !in Disconnected(w.s, w.dead) ==> Grounded(w.log, p, w.s.grants[p].Unattended?)
  {
    hide Run, AllPossible, Grounded;
    RunIsSound(turns);
  }

  /** In every run, while the app is locking or locked each grant is unattended and a pending request is
      already cancelled. */
  lemma LockedKeepsOnlyUnattended(turns: seq<Turn>)
    requires AllPossible(BEGINNING, turns)
    ensures LockedSound(Run(BEGINNING, turns).s)
  {
    hide Run, AllPossible, LockedSound;
    RunIsSound(turns);
  }

  predicate Approved(q: Pending, s: State, dead: set<Token>) {
    && q.decision.Some? && Positive(q.decision.value) && q.request.client !in Disconnected(s, dead)
    && (q.decision.value.ApproveSession? ==> q.request.client in s.clientSessions)
  }

  /** `revoke_all` alone does not undo a decision: after it the waiter's next turn makes the grants
      exactly when the decision on its request is positive (and, for a session approval, its client is
      registered). `revoke_grants` therefore cancels the pending request first. */
  lemma RevokeAllAloneExactly(s: State, dead: set<Token>, now: Time, ticket: Ticket, token: Token)
    requires s.pending.Some? && s.pending.value.request.secrets != [] && token !in dead && s.revision < U64_MAX
    ensures (exists p :: p in Poll(Approval.RevokeAll(s).0, dead, now, s.pending.value.request.id, ticket, token, false).0.grants)
       <==> Approved(s.pending.value, s, dead)
  {
    hide DeadlineOf, Live, MissingIn;
    var q := s.pending.value;
    var t := Approval.RevokeAll(s).0;
    var g := Gone(t, dead);
    SameConnections(s, t, dead);
    assert g.grants == map[];
    var after := Poll(t, dead, now, q.request.id, ticket, token, false).0;
    if Approved(q, s, dead) {
      assert (q.request.client, q.request.secrets[0]) in after.grants;
    }
  }

  lemma RunTurn(w: World, a: Section, now: Time, v: World, turns: seq<Turn>)
    requires Possible(w, a) && Next(w, a, now) == v && AllPossible(v, turns)
    ensures AllPossible(w, [Turn(a, now)] + turns) && Run(w, [Turn(a, now)] + turns) == Run(v, turns)
  {
    hide Possible, Next;
    assert ([Turn(a, now)] + turns)[1..] == turns;
  }

  const NOON: Time := Time(0, 0)
  const ASKED: Request := Request(5, 9, 1, [3])
  const GIVEN: Ticket := Ticket(9, 1, [3])

  /** Client 1 connects and asks for secret 3, a person approves, everything is revoked, the waiter looks. */
  const REVOKED_TOO_LATE: seq<Turn> :=
    [Turn(DoRegister(1, 0, 7), NOON)] + ([Turn(DoPublish(ASKED), NOON)] + ([Turn(DoDecide(5, Approve(None)), NOON)]
    + ([Turn(DoRevokeAll, NOON)] + ([Turn(DoPoll(5, GIVEN, 0, false), NOON)] + []))))

  // The worlds this run goes through.
  const W1: World := World(INITIAL.(sessions := map[1 := 7], clientSessions := map[1 := 0]), {}, [Registered(1, 7)])
  const W2: World := World(W1.s.(vault := Some(9), pending := Some(Pending(ASKED, [3], None))), {}, W1.log + [Switched])
  const W3: World := World(W2.s.(pending := Some(Pending(ASKED, [3], Some(Approve(None))))), {}, W2.log + [Consented(1, [3])])
  const W4: World := World(W3.s.(revision := 1), {}, W3.log + [AllRevoked])
  const W5: World := World(W4.s.(pending := None, grants := map[(1, 3) := Elapsed(Saturate(Millis(GRANT_LIFETIME)))]), {}, W4.log + [Made(1, [3])])

  /** Such a run exists: from the beginning, the approval at entry 2 of the log is followed by `revoke_all`
      at entry 3, and by a grant, which is live, at entry 4. */
  lemma RevokeAllAloneCanGrant()
    ensures AllPossible(BEGINNING, REVOKED_TOO_LATE)
    ensures var w := Run(BEGINNING, REVOKED_TOO_LATE);
            && w.log == [Registered(1, 7), Switched, Consented(1, [3]), AllRevoked, Made(1, [3])]
            && (1, 3) in w.s.grants && Live(w.s.grants[(1, 3)], NOON) && 1 !in Disconnected(w.s, w.dead)
  {
    hide AllPossible, Run, Next, Possible, Live, Disconnected, W1, W2, W3, W4, W5;
    TurnsEnd(W5);
    FifthTurn(W4, W5);
    RunTurn(W4, DoPoll(5, GIVEN, 0, false), NOON, W5, []);
    FourthTurn(W3, W4);
    var last := [Turn(DoPoll(5, GIVEN, 0, false), NOON)] + [];
    RunTurn(W3, DoRevokeAll, NOON, W4, last);
    ThirdTurn(W2, W3);
    RunTurn(W2, DoDecide(5, Approve(None)), NOON, W3, [Turn(DoRevokeAll, NOON)] + last);
    SecondTurn(W1, W2);
    var later := [Turn(DoDecide(5, Approve(None)), NOON)] + ([Turn(DoRevokeAll, NOON)] + last);
    RunTurn(W1, DoPublish(ASKED), NOON, W2, later);
    FirstTurn(W1);
    RunTurn(BEGINNING, DoRegister(1, 0, 7), NOON, W1, [Turn(DoPublish(ASKED), NOON)] + later);
    LastWorld();
  }

  lemma LastWorld()
    ensures W5.log == [Registered(1, 7), Switched, Consented(1, [3]), AllRevoked, Made(1, [3])]
    ensures (1, 3) in W5.s.grants && Live(W5.s.grants[(1, 3)], NOON) && 1 !in Disconnected(W5.s, W5.dead)
  {}

  lemma TurnsEnd(w: World)
    ensures AllPossible(w, []) && Run(w, []) == w
  {}

  /** With no cancelled token nobody is dropped. */
  lemma NobodyGone(s: State, dead: set<Token>)
    requires dead == {}
    ensures Gone(s, dead) == s
  {
    assert Disconnected(s, dead) == {};
  }

  lemma FirstTurn(w: World)
    requires w == W1
    ensures Possible(BEGINNING, DoRegister(1, 0, 7)) && Next(BEGINNING, DoRegister(1, 0, 7), NOON) == w
  {
    hide Gone;
    NobodyGone(INITIAL, {});
  }

  lemma SecondTurn(w: World, v: World)
    requires w == W1 && v == W2
    ensures Possible(w, DoPublish(ASKED)) && Next(w, DoPublish(ASKED), NOON) == v
  {
    hide Gone, Purge, Filter, Distinct, MissingIn, Covered, Look;
    NobodyGone(w.s, {});
    NothingGranted(1, 3);
    DistinctOne(3);
    var t := w.s.(vault := Some(9));
    assert Prune(Switch(w.s, 9), NOON) == t;
    FilterOne(3, x => (1, x) !in t.grants);
  }

  lemma NothingGranted(client: Client, secret: Secret)
    ensures Purge(map[], NOON) == map[] && MissingIn(map[], client, [secret]) != {}
  {
    assert secret in MissingIn(map[], client, [secret]);
  }

  lemma DistinctOne(x: Secret)
    ensures Distinct([x]) == [x]
  {
    assert [x][..0] == [];
  }

  lemma FilterOne(x: Secret, f: Secret -> bool)
    requires f(x)
    ensures Filter([x], f) == [x]
  {
    assert [x][..0] == [];
  }

  lemma ThirdTurn(w: World, v: World)
    requires w == W2 && v == W3
    ensures Possible(w, DoDecide(5, Approve(None))) && Next(w, DoDecide(5, Approve(None)), NOON) == v
  {
    hide Gone;
    NobodyGone(w.s, {});
  }

  lemma FourthTurn(w: World, v: World)
    requires w == W3 && v == W4
    ensures Possible(w, DoRevokeAll) && Next(w, DoRevokeAll, NOON) == v
  {
    hide Gone;
  }

  lemma FifthTurn(w: World, v: World)
    requires w == W4 && v == W5
    ensures Possible(w, DoPoll(5, GIVEN, 0, false)) && Next(w, DoPoll(5, GIVEN, 0, false), NOON) == v
  {
    hide Gone, Live;
    NobodyGone(w.s, {});
    assert Purge(map[], NOON) == map[];
    assert Grants.Do(map[], GrantFor(1, [3], GRANT_LIFETIME), NOON) == map[(1, 3) := Elapsed(Saturate(Millis(GRANT_LIFETIME)))];
  }

  /** Cancelling first does undo it. */
  lemma CancelThenRevokeAll(s: State, dead: set<Token>, now: Time, later: Time, ticket: Ticket, token: Token, id: Uid, timedOut: bool)
    requires s.revision < U64_MAX
    ensures Poll(Approval.RevokeAll(CancelPending(s, now)).0, dead, later, id, ticket, token, timedOut).0.grants == map[]
  {
    hide Gone, Purge, MissingIn, GrantOf, Grants.Do;
    var t := Approval.RevokeAll(CancelPending(s, now)).0;
    GoneLeaves(t, dead);
    assert Gone(t, dead).grants == map[];
    PurgeKeeps(map[], later);
    assert Purge(map[], later) == map[];
  }

  // ----- unattended consent -----

  lemma {:induction false} CountGrows(log: seq<Event>, n: nat, f: Event -> bool)
    requires n <= |log|
    ensures Count(log[..n], f) <= Count(log, f)
    ensures Count(log[..n], f) == Count(log, f) ==> forall i :: n <= i < |log| ==> !f(log[i])
    decreases |log|
  {
    if n == |log| {
      assert log[..n] == log;
    } else {
      var m := |log| - 1;
      assert log[..m][..n] == log[..n];
      CountGrows(log[..m], n, f);
    }
  }

  /** The context was captured when the log was `n` events long. */
  ghost predicate CapturedAt(log: seq<Event>, n: nat, context: Context) {
    && n <= |log|
    && context.revision == Count(log[..n], Bumps) && context.epoch == Count(log[..n], Turns)
    && exists i: nat :: Connected(log[..n], context.client, context.connection, i)
  }

  lemma CaptureRecords(w: World, client: Client, snapshot: Result<Uid>)
    requires Sound(w) && Capture(w.s, w.dead, client, snapshot).1.Ok?
    ensures CapturedAt(w.log, |w.log|, Capture(w.s, w.dead, client, snapshot).1.value)
    ensures Capture(w.s, w.dead, client, snapshot).1.value.client == client
  {
    hide Connected, Gone, Count, GrantsGrounded, PendingSound, LockedSound;
    GoneLeaves(w.s, w.dead);
    assert w.log[..|w.log|] == w.log;
  }

  /** Connection ids are never used twice. */
  ghost predicate Unrepeated(log: seq<Event>) {
    forall i, j :: 0 <= i < j < |log| && log[i].Registered? && log[j].Registered? ==> log[i].connection != log[j].connection
  }

  lemma NextIsUnrepeated(w: World, a: Section, now: Time)
    requires Unrepeated(w.log) && Possible(w, a)
    ensures Unrepeated(Next(w, a, now).log)
  {
    hide SectionState, SectionDead, Register, Publish, Poll, Decide, BeginLock, FinishLock, UnlockApp, Reset, Mutate, GrantUnattended, Gone;
  }

  lemma {:induction false} RunIsUnrepeated(w: World, turns: seq<Turn>)
    requires Unrepeated(w.log) && AllPossible(w, turns)
    ensures Unrepeated(Run(w, turns).log)
    decreases |turns|
  {
    hide Possible, Next, Unrepeated;
    if turns != [] {
      NextIsUnrepeated(w, turns[0].section, turns[0].now);
      RunIsUnrepeated(Next(w, turns[0].section, turns[0].now), turns[1..]);
    }
  }

  /** The events after which a captured context is worthless. */
  predicate Spoils(e: Event, client: Client) {
    Bumps(e) || Turns(e) || (e.Registered? && e.client == client)
  }

  lemma SameConnection(log: seq<Event>, n: nat, client: Client, connection: Uid, i: nat, j: nat)
    requires n <= |log| && Unrepeated(log) && Connected(log[..n], client, connection, i) && Connected(log, client, connection, j)
    ensures forall k :: n <= k < |log| ==> !(log[k].Registered? && log[k].client == client)
  {
    assert log[i] == log[..n][i];
    assert i == j;
  }

  /** What a successful `grant_unattended` has checked. */
  lemma GrantUnattendedChecks(s: State, dead: set<Token>, now: Time, context: Context, secrets: seq<Secret>, deadline: int, validated: Result<()>)
    requires GrantUnattended(s, dead, now, context, secrets, deadline, validated).1.Ok?
    ensures s.vault == Some(context.vault) && s.access.Active?
    ensures s.lockEpoch == context.epoch && s.revision == context.revision
    ensures context.client in s.clientSessions && context.client !in Disconnected(s, dead)
    ensures context.client in s.sessions && s.sessions[context.client] == context.connection
  {
    hide Grants.Do;
  }

  lemma UndisturbedSince(w: World, n: nat, context: Context)
    requires SessionsSound(w) && CountsSound(w) && Unrepeated(w.log) && CapturedAt(w.log, n, context)
    requires w.s.lockEpoch == context.epoch && w.s.revision == context.revision
    requires context.client in w.s.sessions && w.s.sessions[context.client] == context.connection
    ensures forall i :: n <= i < |w.log| ==> !Spoils(w.log[i], context.client)
  {
    hide Count, Connected, Unrepeated, Bumps, Turns;
    CountGrows(w.log, n, Bumps);
    CountGrows(w.log, n, Turns);
    var i: nat :| Connected(w.log[..n], context.client, context.connection, i);
    var j: nat :| Connected(w.log, context.client, context.connection, j);
    SameConnection(w.log, n, context.client, context.connection, i, j);
  }

  lemma {:induction false} RunExtends(w: World, turns: seq<Turn>)
    ensures w.log <= Run(w, turns).log
    decreases |turns|
  {
    hide SectionState, SectionDead, SectionEvent;
    if turns != [] { RunExtends(Next(w, turns[0].section, turns[0].now), turns[1..]); }
  }

  lemma {:induction false} SoundRuns(w: World, turns: seq<Turn>)
    requires Sound(w) && Unrepeated(w.log) && AllPossible(w, turns)
    ensures Sound(Run(w, turns)) && Unrepeated(Run(w, turns).log)
  {
    hide Sound, Unrepeated, AllPossible, Run;
    RunKeeps(w, turns);
    RunIsUnrepeated(w, turns);
  }

  /** `grant_unattended` succeeds only if since the capture nothing was revoked, no secret was saved or
      deleted, no lock was begun (even one undone since), the vault was not locked, and the client is
      still on the connection it had, with the vault session captured. */
  lemma UnattendedOnlyIfUndisturbed(before: seq<Turn>, client: Client, snapshot: Result<Uid>, then_: seq<Turn>,
                                    secrets: seq<Secret>, deadline: int, validated: Result<()>, now: Time, later: Time)
    requires AllPossible(BEGINNING, before)
    requires var w := Run(BEGINNING, before);
             Capture(w.s, w.dead, client, snapshot).1.Ok? && AllPossible(Next(w, DoCapture(client, snapshot), now), then_)
    requires var w := Run(BEGINNING, before);
             var v := Run(Next(w, DoCapture(client, snapshot), now), then_);
             GrantUnattended(v.s, v.dead, later, Capture(w.s, w.dead, client, snapshot).1.value, secrets, deadline, validated).1.Ok?
    ensures var w := Run(BEGINNING, before);
            var v := Run(Next(w, DoCapture(client, snapshot), now), then_);
            && |w.log| <= |v.log|
            && (forall i :: |w.log| <= i < |v.log| ==> !Spoils(v.log[i], client))
            && v.s.vault == Some(Capture(w.s, w.dead, client, snapshot).1.value.vault) && v.s.access.Active?
            && client in v.s.clientSessions && client !in Disconnected(v.s, v.dead)
  {
    hide Run, AllPossible, Sound, Unrepeated, Capture, GrantUnattended, Spoils, Disconnected, CapturedAt, Next;
    var w := Run(BEGINNING, before);
    var w' := Next(w, DoCapture(client, snapshot), now);
    var v := Run(w', then_);
    var context := Capture(w.s, w.dead, client, snapshot).1.value;
    BeginningIsSound();
    BeginningIsUnrepeated();
    SoundRuns(BEGINNING, before);
    CaptureRecords(w, client, snapshot);
    NextKeeps(w, DoCapture(client, snapshot), now);
    NextIsUnrepeated(w, DoCapture(client, snapshot), now);
    SoundRuns(w', then_);
    RunExtends(w', then_);
    NextExtends(w, DoCapture(client, snapshot), now);
    StillCaptured(w.log, v.log, context);
    GrantUnattendedChecks(v.s, v.dead, later, context, secrets, deadline, validated);
    SoundParts(v);
    UndisturbedSince(v, |w.log|, context);
  }

  lemma BeginningIsUnrepeated()
    ensures Unrepeated(BEGINNING.log)
  {}

  lemma NextExtends(w: World, a: Section, now: Time)
    ensures w.log <= Next(w, a, now).log
  {
    hide SectionState, SectionDead, SectionEvent;
  }

  lemma StillCaptured(log: seq<Event>, longer: seq<Event>, context: Context)
    requires CapturedAt(log, |log|, context) && log <= longer
    ensures CapturedAt(longer, |log|, context)
  {
    hide Count, Connected;
    assert log[..|log|] == log && longer[..|log|] == log;
  }

  lemma SoundParts(w: World)
    requires Sound(w)
    ensures SessionsSound(w) && CountsSound(w)
  {}
}
