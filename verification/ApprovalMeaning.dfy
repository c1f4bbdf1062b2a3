/**
 What each section of the approval coordinator comes to, said pair by pair in the words of its callers:
 who is connected, which pairs are granted and not over, what is pending. `Approval` computes the same.
*/
module ApprovalMeaning {
  import opened Bytes
  import opened Model
  import opened Grants
  import opened Approval

  /** The client has a session whose connection has not been cancelled. */
  predicate Present(s: State, dead: set<Token>, client: Client) {
    client in s.clientSessions && s.clientSessions[client] !in dead
  }

  predicate Lost(s: State, dead: set<Token>, client: Client) {
    client in s.clientSessions && s.clientSessions[client] in dead
  }

  /** The pair is granted, the grant is not over, and its client has not been disconnected. */
  predicate Held(s: State, dead: set<Token>, now: Time, p: Pair) {
    p in s.grants && !Lost(s, dead, p.0) && Before(s.grants[p], now)
  }

  predicate HeldUnattended(s: State, dead: set<Token>, now: Time, p: Pair) {
    Held(s, dead, now, p) && s.grants[p].Unattended?
  }

  /** A connected client with some unattended grant, and one for each of these secrets. */
  predicate CoveredBy(s: State, dead: set<Token>, now: Time, client: Client, ids: seq<Secret>) {
    && Present(s, dead, client)
    && (exists p :: p in s.grants && p.0 == client && HeldUnattended(s, dead, now, p))
    && forall x :: x in ids ==> HeldUnattended(s, dead, now, (client, x))
  }

  predicate AllHeld(s: State, dead: set<Token>, now: Time, client: Client, ids: seq<Secret>) {
    forall x :: x in ids ==> Held(s, dead, now, (client, x))
  }

  /** The decision that counts: a lost client's request is cancelled. */
  function DecisionNow(s: State, dead: set<Token>, id: Uid): Option<Decision> {
    if s.pending.None? || s.pending.value.request.id != id then None
    else if Lost(s, dead, s.pending.value.request.client) then Some(Cancel)
    else s.pending.value.decision
  }

  // ----- the shared pieces -----

  lemma GoneMeans(s: State, dead: set<Token>)
    ensures var t := Gone(s, dead);
            && t.vault == s.vault && t.closed == s.closed && t.access == s.access && t.lockEpoch == s.lockEpoch && t.revision == s.revision
            && (forall c :: c in t.clientSessions <==> Present(s, dead, c))
            && (forall c :: c in t.clientSessions ==> t.clientSessions[c] == s.clientSessions[c])
            && (forall c :: c in t.sessions <==> c in s.sessions && !Lost(s, dead, c))
            && (forall c :: c in t.sessions ==> t.sessions[c] == s.sessions[c])
            && (forall p :: p in t.grants <==> p in s.grants && !Lost(s, dead, p.0))
            && (forall p :: p in t.grants ==> t.grants[p] == s.grants[p])
            && (t.pending.Some? <==> s.pending.Some?)
            && (s.pending.Some? ==>
                  && t.pending.value.request == s.pending.value.request && t.pending.value.requested == s.pending.value.requested
                  && t.pending.value.decision == if Lost(s, dead, s.pending.value.request.client) then Some(Cancel) else s.pending.value.decision)
            && forall id :: DecisionFor(t, id) == DecisionNow(s, dead, id)
  {
  }

  /** What is left after looking at the grants of a state without lost clients. */
  lemma PurgeMeans(s: State, dead: set<Token>, now: Time)
    ensures forall p :: p in Purge(Gone(s, dead).grants, now) <==> Held(s, dead, now, p)
    ensures forall p :: p in Purge(Gone(s, dead).grants, now) ==> Purge(Gone(s, dead).grants, now)[p] == s.grants[p]
  {
    hide Gone, Live, Before;
    GoneMeans(s, dead);
    forall p | p in s.grants ensures Live(s.grants[p], now) <==> Before(s.grants[p], now) { LiveIsBefore(s.grants[p], now); }
  }

  lemma MissingIsNotHeld(s: State, dead: set<Token>, now: Time, client: Client, ids: seq<Secret>)
    ensures forall x :: x in MissingIn(Purge(Gone(s, dead).grants, now), client, ids) <==> x in ids && !Held(s, dead, now, (client, x))
    ensures MissingIn(Purge(Gone(s, dead).grants, now), client, ids) == {} <==> AllHeld(s, dead, now, client, ids)
  {
    hide Gone, Purge, Held;
    PurgeMeans(s, dead, now);
    var m := Purge(Gone(s, dead).grants, now);
    if MissingIn(m, client, ids) != {} {
      var x :| x in MissingIn(m, client, ids);
    } else {
      forall x | x in ids ensures Held(s, dead, now, (client, x)) { assert x !in MissingIn(m, client, ids); }
    }
  }

  lemma CoveredMeans(s: State, dead: set<Token>, now: Time, client: Client, ids: seq<Secret>)
    ensures Covered(Gone(s, dead), client, ids, now) <==> CoveredBy(s, dead, now, client, ids)
    ensures ClientHasUnattended(Gone(s, dead), client, now) <==>
              Present(s, dead, client) && exists p :: p in s.grants && p.0 == client && HeldUnattended(s, dead, now, p)
  {
    hide Gone, Purge, Held, Present;
    GoneMeans(s, dead);
    PurgeMeans(s, dead, now);
    HeldIsThere(s, dead, now);
    var m := Purge(Gone(s, dead).grants, now);
    if MissingUnattendedIn(m, client, ids) == {} {
      forall x | x in ids ensures HeldUnattended(s, dead, now, (client, x)) { assert x !in MissingUnattendedIn(m, client, ids); }
    }
  }

  lemma HeldIsThere(s: State, dead: set<Token>, now: Time)
    ensures forall p :: Held(s, dead, now, p) ==> p in s.grants
  {}

  // ----- asking -----

  predicate NoRepeats(s: seq<Secret>) { forall i, j :: 0 <= i < j < |s| ==> s[i] != s[j] }

  lemma {:induction false} DistinctHasNoRepeats(s: seq<Secret>)
    ensures NoRepeats(Distinct(s))
    decreases |s|
  {
    if s != [] { DistinctHasNoRepeats(s[..|s| - 1]); }
  }

  /** Under a lock a request is answered at once exactly when unattended grants of the same vault session
      cover it, and refused otherwise. */
  lemma LockedPublishExactly(s: State, dead: set<Token>, now: Time, request: Request)
    requires !s.access.Active?
    ensures Publish(s, dead, now, request).1 ==
            if s.vault == Some(request.vault) && CoveredBy(s, dead, now, request.client, request.secrets)
            then Issued(Ticket(request.vault, request.client, request.secrets)) else Refused(VaultLocked)
    ensures Publish(s, dead, now, request).0.pending == Gone(s, dead).pending
  {
    hide Gone, Covered, CoveredBy, Purge;
    GoneMeans(s, dead);
    CoveredMeans(s, dead, now, request.client, request.secrets);
  }

  /** The grants a request of this vault session can use: those of another one are dropped. */
  function ForVault(s: State, vault: Uid): State {
    if s.vault == Some(vault) then s else s.(grants := map[])
  }

  /** While the app is active a request is refused as busy exactly when another one is pending; it is
      answered at once exactly when all it asks for is granted; otherwise it is published, for exactly the
      secrets that are not granted, and nothing is decided yet. */
  lemma ActivePublishExactly(s: State, dead: set<Token>, now: Time, request: Request)
    requires s.access.Active?
    ensures var (t, r) := Publish(s, dead, now, request);
            var have := ForVault(s, request.vault);
            if s.pending.Some? then r == Refused(Busy) && t.pending == Gone(s, dead).pending
            else if AllHeld(have, dead, now, request.client, request.secrets) then
              && r.Issued? && r.ticket.vault == request.vault && r.ticket.client == request.client
              && (forall x :: x in r.ticket.secrets <==> x in request.secrets) && NoRepeats(r.ticket.secrets)
              && t.pending == None && t.vault == Some(request.vault)
            else
              && r.Waiting? && r.ticket.vault == request.vault && r.ticket.client == request.client
              && (forall x :: x in r.ticket.secrets <==> x in request.secrets) && NoRepeats(r.ticket.secrets)
              && t.vault == Some(request.vault) && t.pending.Some?
              && var q := t.pending.value;
                 && q.decision == None && q.requested == r.ticket.secrets
                 && q.request.id == request.id && q.request.vault == request.vault && q.request.client == request.client
                 && forall x :: x in q.request.secrets <==> x in request.secrets && !Held(have, dead, now, (request.client, x))
  {
    hide Gone, Purge, Held, AllHeld, Distinct, Filter, NoRepeats, Live;
    GoneMeans(s, dead);
    DistinctHasNoRepeats(request.secrets);
    var have := ForVault(s, request.vault);
    GoneOfVault(s, dead, request.vault);
    MissingIsNotHeld(have, dead, now, request.client, request.secrets);
    PurgeMeans(have, dead, now);
  }

  lemma GoneOfVault(s: State, dead: set<Token>, vault: Uid)
    ensures Switch(Gone(s, dead), vault) == Gone(ForVault(s, vault), dead).(vault := Some(vault))
  {
    assert Gone(s.(grants := map[]), dead).grants == map[];
  }

  // ----- deciding and waiting -----

  /** A decision is taken exactly when this very request is pending, undecided and from a client that is
      still there, for a session grant a client with a session. Then it is what is recorded. */
  lemma DecideExactly(s: State, dead: set<Token>, now: Time, id: Uid, d: Decision)
    ensures var (t, r) := Decide(s, dead, now, id, d);
            && (r.Ok? <==>
                  && s.pending.Some? && s.pending.value.request.id == id && DecisionNow(s, dead, id) == None
                  && (d.ApproveSession? ==> Present(s, dead, s.pending.value.request.client)))
            && t.pending == (if r.Ok? then Some(s.pending.value.(decision := Some(d))) else Gone(s, dead).pending)
            && (r.Err? ==> r.error == if s.pending.Some? && d.ApproveSession? && !Present(s, dead, s.pending.value.request.client)
                                      then ApprovalCancelled else InvalidRequest)
  {
    hide Gone, Purge;
    GoneMeans(s, dead);
  }

  /** What a waiter is told. */
  lemma PollExactly(s: State, dead: set<Token>, now: Time, id: Uid, ticket: Ticket, token: Token, timedOut: bool)
    ensures Poll(s, dead, now, id, ticket, token, timedOut).1 ==
            if token in dead then Settled(Err(ApprovalCancelled))
            else
              match DecisionNow(s, dead, id)
              case None => if timedOut then Settled(Err(ApprovalTimeout)) else NotYet
              case Some(Approve(_)) => Settled(Ok(ticket))
              case Some(ApproveUntil(_)) => Settled(Ok(ticket))
              case Some(ApproveSession) =>
                if Present(s, dead, s.pending.value.request.client) then Settled(Ok(ticket)) else Settled(Err(ApprovalCancelled))
              case Some(Granted) =>
                if AllHeld(s, dead, now, ticket.client, ticket.secrets) then Settled(Ok(ticket)) else Settled(Err(ApprovalCancelled))
              case Some(Deny) => Settled(Err(ApprovalDenied))
              case Some(Cancel) => Settled(Err(ApprovalCancelled))
  {
    hide Gone, Purge, AllHeld;
    GoneMeans(s, dead);
    MissingIsNotHeld(s, dead, now, ticket.client, ticket.secrets);
  }

  /** A settled request is no longer pending, and another one is left as it is. */
  lemma PollClears(s: State, dead: set<Token>, now: Time, id: Uid, ticket: Ticket, token: Token, timedOut: bool)
    ensures var (t, r) := Poll(s, dead, now, id, ticket, token, timedOut);
            t.pending == if r.Settled? && s.pending.Some? && s.pending.value.request.id == id then None else Gone(s, dead).pending
  {
    hide Gone, Purge, MissingIn, GrantAll;
    GoneMeans(s, dead);
  }

  /** Waiting changes nothing but the request and the grants. */
  lemma PollKeepsTheRest(s: State, dead: set<Token>, now: Time, id: Uid, ticket: Ticket, token: Token, timedOut: bool)
    ensures var t, gone := Poll(s, dead, now, id, ticket, token, timedOut).0, Gone(s, dead);
            && t.access == gone.access && t.vault == gone.vault && t.clientSessions == gone.clientSessions && t.sessions == gone.sessions
            && t.closed == gone.closed && t.lockEpoch == gone.lockEpoch && t.revision == gone.revision
  {
    hide Gone, Purge, MissingIn, Grants.Do, GrantOf;
  }

  /** The deadline that goes with each way of approving: a lifetime in whole milliseconds, 30 minutes when
      none was chosen, a moment of the wall clock, or the session. */
  function Chosen(d: Decision, now: Time): Deadline
    requires Positive(d)
  {
    match d
    case Approve(Some(lifetime)) => Elapsed(Saturate(now.elapsed + Saturate(lifetime / 1_000_000)))
    case Approve(None) => Elapsed(Saturate(now.elapsed + 30 * 60 * 1000))
    case ApproveUntil(time) => WallClock(time)
    case ApproveSession => Deadline.Session
  }

  /** After an approval has been turned into grants, the secrets that were asked for have the deadline that
      was chosen, and every other grant is as it was, unless it is over. */
  lemma ApprovalGives(s: State, dead: set<Token>, now: Time, id: Uid, ticket: Ticket, token: Token, timedOut: bool)
    requires Poll(s, dead, now, id, ticket, token, timedOut).1 == Settled(Ok(ticket))
    requires DecisionNow(s, dead, id).Some? && Positive(DecisionNow(s, dead, id).value)
    ensures var t := Poll(s, dead, now, id, ticket, token, timedOut).0;
            var request, d := s.pending.value.request, DecisionNow(s, dead, id).value;
            && (forall x :: x in request.secrets ==> (request.client, x) in t.grants && t.grants[(request.client, x)] == Chosen(d, now))
            && forall p: Pair :: !(p.0 == request.client && p.1 in request.secrets) ==>
                 (p in t.grants <==> Held(s, dead, now, p)) && (p in t.grants ==> t.grants[p] == s.grants[p])
  {
    hide Gone, Purge, Held, MissingIn;
    GoneMeans(s, dead);
    PurgeMeans(s, dead, now);
  }

  /** In every other case a waiter changes no grant, apart from those that are over. */
  lemma PollGivesNothing(s: State, dead: set<Token>, now: Time, id: Uid, ticket: Ticket, token: Token, timedOut: bool, p: Pair)
    requires !(Poll(s, dead, now, id, ticket, token, timedOut).1 == Settled(Ok(ticket))
               && DecisionNow(s, dead, id).Some? && Positive(DecisionNow(s, dead, id).value))
    ensures var t := Poll(s, dead, now, id, ticket, token, timedOut).0;
            && (Held(s, dead, now, p) ==> p in t.grants)
            && (p in t.grants ==> p in s.grants && t.grants[p] == s.grants[p] && !Lost(s, dead, p.0))
  {
    hide Gone, Purge, Held, MissingIn, GrantAll, DecisionFor, DecisionNow, Lost;
    GoneMeans(s, dead);
    PurgeMeans(s, dead, now);
    HeldIsThere(s, dead, now);
    PurgeIsLess(Gone(s, dead).grants, now);
    HeldIsNotLost(s, dead, now);
  }

  lemma HeldIsNotLost(s: State, dead: set<Token>, now: Time)
    ensures forall p :: Held(s, dead, now, p) ==> p in s.grants && !Lost(s, dead, p.0)
  {}

  lemma PurgeIsLess(m: Table, now: Time)
    ensures forall p :: p in Purge(m, now) ==> p in m && Purge(m, now)[p] == m[p]
  {}

  // ----- client sessions -----

  /** A client is registered exactly when registration is open, it is not connected already and fewer than
      32 clients are. It starts without grants; everyone else keeps theirs. */
  lemma RegisterExactly(s: State, dead: set<Token>, client: Client, token: Token, connection: Uid)
    ensures var (t, r) := Register(s, dead, client, token, connection);
            && (if !s.closed && !Present(s, dead, client) && |set c | c in s.clientSessions && Present(s, dead, c)| < 32
                then r == Ok(()) else r == Err(Busy))
            && t.closed == s.closed
            && (forall c :: c in t.clientSessions <==> Present(s, dead, c) || (r.Ok? && c == client))
            && (forall c :: c in t.clientSessions ==> t.clientSessions[c] == if r.Ok? && c == client then token else s.clientSessions[c])
            && (r.Ok? ==> client in t.sessions && t.sessions[client] == connection)
            && (forall p :: p in t.grants <==> p in s.grants && !Lost(s, dead, p.0) && (r.Ok? ==> p.0 != client))
            && (forall p :: p in t.grants ==> t.grants[p] == s.grants[p])
  {
    hide Gone;
    GoneMeans(s, dead);
    assert Gone(s, dead).clientSessions.Keys == set c | c in s.clientSessions && Present(s, dead, c);
  }

  /** Closing cancels every registered connection, leaves nobody connected and admits nobody any more. */
  lemma CloseExactly(s: State, dead: set<Token>)
    ensures var (t, after) := Close(s, dead);
            && t.closed && t.clientSessions == map[]
            && (forall k :: k in after <==> k in dead || exists c :: c in s.clientSessions && s.clientSessions[c] == k)
            && (forall p :: p in t.grants <==> p in s.grants && p.0 !in s.clientSessions)
  {
    hide Gone;
    var after := dead + s.clientSessions.Values;
    GoneMeans(s.(closed := true), after);
    var t := Close(s, dead).0;
    forall c | c in s.clientSessions ensures Lost(s.(closed := true), after, c) {
      assert s.clientSessions[c] in s.clientSessions.Values;
    }
    assert t.clientSessions == map[];
  }

  // ----- locking -----

  /** A lock begins exactly while the app is active. The pending request is cancelled, and only a lock that
      spares unattended grants leaves any: those, as far as they are not over. */
  lemma BeginLockExactly(s: State, now: Time, preserve: bool)
    requires s.lockEpoch < U64_MAX
    ensures var (t, r) := BeginLock(s, now, preserve);
            && r == (if s.access == Active then Ok(s.lockEpoch + 1) else Err(Busy))
            && (r.Err? ==> t == s)
            && (r.Ok? ==>
                 && t.access == Locking(s.lockEpoch + 1) && t.lockEpoch == s.lockEpoch + 1
                 && (t.pending.Some? <==> s.pending.Some?)
                 && (t.pending.Some? ==> t.pending.value.request == s.pending.value.request && t.pending.value.decision == Some(Cancel))
                 && (forall p :: p in t.grants <==> preserve && p in s.grants && s.grants[p].Unattended? && Before(s.grants[p], now))
                 && (forall p :: p in t.grants ==> t.grants[p] == s.grants[p]))
  {
    hide Live, Before;
    forall p | p in s.grants ensures Live(s.grants[p], now) <==> Before(s.grants[p], now) { LiveIsBefore(s.grants[p], now); }
  }

  /** From active to locking, locked and active again, each with the epoch that the lock began with; a vault
      lock ends any of them, with nothing left. */
  lemma LockingExactly(s: State, epoch: nat)
    ensures FinishLock(s, epoch) ==
            if s.access.Locking? && s.access.epoch == epoch then (s.(access := Locked(epoch)), Ok(())) else (s, Err(InvalidRequest))
    ensures UnlockApp(s, epoch) ==
            if s.access.Locked? && s.access.epoch == epoch then (s.(access := Active), Ok(())) else (s, Err(InvalidRequest))
    ensures s.lockEpoch < U64_MAX ==>
              var (t, r) := Reset(s);
              && r == Ok(()) && t.access == Active && t.grants == map[] && t.vault == None && t.lockEpoch == s.lockEpoch + 1
              && (t.pending.Some? <==> s.pending.Some?) && (t.pending.Some? ==> t.pending.value.decision == Some(Cancel))
  {
  }

  // ----- revoking -----

  /** What is undone by taking away the pairs that satisfy `gone`. */
  ghost predicate TakesAway(s: State, t: State, now: Time, gone: Pair -> bool) {
    && t.revision == s.revision + 1
    && t.access == s.access && t.vault == s.vault && t.clientSessions == s.clientSessions && t.sessions == s.sessions
    && (forall p :: p in t.grants <==> p in s.grants && Before(s.grants[p], now) && !gone(p))
    && (forall p :: p in t.grants ==> t.grants[p] == s.grants[p])
  }

  /** The pending request is cancelled exactly when it is hit; its request stays the same. */
  ghost predicate CancelsIf(s: State, t: State, hit: bool) {
    t.pending == if s.pending.Some? && hit then Some(s.pending.value.(decision := Some(Cancel))) else s.pending
  }

  /** Revoking a pair takes away that pair and no other, tells whether it was granted, and cancels a request
      of the client that asked for the secret, even if only secrets granted already. */
  lemma RevokePairExactly(s: State, now: Time, client: Client, secret: Secret)
    requires s.revision < U64_MAX
    ensures var (t, r) := Approval.RevokePair(s, now, client, secret);
            && r == Ok((client, secret) in s.grants && Before(s.grants[(client, secret)], now))
            && TakesAway(s, t, now, (p: Pair) => p == (client, secret))
            && CancelsIf(s, t, s.pending.Some? && s.pending.value.request.client == client && secret in s.pending.value.requested)
  {
    hide Live, Before;
    forall p | p in s.grants ensures Live(s.grants[p], now) <==> Before(s.grants[p], now) { LiveIsBefore(s.grants[p], now); }
  }

  lemma RevokeClientExactly(s: State, now: Time, client: Client)
    requires s.revision < U64_MAX
    ensures var (t, r) := Approval.RevokeClient(s, now, client);
            && r == Ok(())
            && TakesAway(s, t, now, (p: Pair) => p.0 == client)
            && CancelsIf(s, t, s.pending.Some? && s.pending.value.request.client == client)
  {
    hide Live, Before;
    forall p | p in s.grants ensures Live(s.grants[p], now) <==> Before(s.grants[p], now) { LiveIsBefore(s.grants[p], now); }
  }

  /** A secret is revoked for everyone exactly when the change could be prepared, before it is made; what is
      returned is the outcome of the preparation, or of the change. */
  lemma MutateExactly(s: State, now: Time, secret: Secret, prepared: Result<()>, committed: Result<()>)
    requires s.revision < U64_MAX
    ensures var (t, r) := Mutate(s, now, secret, prepared, committed);
            if prepared.Err? then t == s && r == prepared
            else
              && r == committed
              && TakesAway(s, t, now, (p: Pair) => p.1 == secret)
              && CancelsIf(s, t, s.pending.Some? && secret in s.pending.value.requested)
  {
    hide Live, Before;
    forall p | p in s.grants ensures Live(s.grants[p], now) <==> Before(s.grants[p], now) { LiveIsBefore(s.grants[p], now); }
  }

  /** Revoking everything leaves no grant and the pending request as it is; cancelling does the opposite. */
  lemma RevokeAllExactly(s: State, now: Time)
    ensures s.revision < U64_MAX ==>
              Approval.RevokeAll(s) == (s.(revision := s.revision + 1, grants := map[]), Ok(()))
    ensures var t := Approval.CancelPending(s, now);
            && CancelsIf(s, t, true)
            && forall p :: p in s.grants && Before(s.grants[p], now) ==> p in t.grants && t.grants[p] == s.grants[p]
  {
    hide Live, Before;
    forall p | p in s.grants ensures Live(s.grants[p], now) <==> Before(s.grants[p], now) { LiveIsBefore(s.grants[p], now); }
  }

  // ----- using grants -----

  /** A ticket is good exactly when it is for the present vault session and everything on it is granted;
      under a lock by unattended grants of a connected client. */
  lemma ValidExactly(s: State, dead: set<Token>, now: Time, ticket: Ticket)
    ensures Valid(s, dead, now, ticket).1 <==>
              && s.vault == Some(ticket.vault) && AllHeld(s, dead, now, ticket.client, ticket.secrets)
              && (s.access.Active? || CoveredBy(s, dead, now, ticket.client, ticket.secrets))
  {
    hide Gone, Covered, CoveredBy, Purge, AllHeld;
    GoneMeans(s, dead);
    CoveredMeans(s, dead, now, ticket.client, ticket.secrets);
    MissingIsNotHeld(s, dead, now, ticket.client, ticket.secrets);
  }

  /** Any client has access while the app is active, and under a lock a connected one with an unattended
      grant; a run is spared by an automatic lock exactly when its secrets are covered. */
  lemma AccessExactly(s: State, dead: set<Token>, now: Time, client: Client, ids: seq<Secret>)
    ensures RequireAccess(s, dead, now, client).1 <==>
              s.access.Active? || (Present(s, dead, client) && exists p :: p in s.grants && p.0 == client && HeldUnattended(s, dead, now, p))
    ensures UnattendedCovers(s, dead, now, client, ids).1 <==> CoveredBy(s, dead, now, client, ids)
  {
    hide Gone, Covered, CoveredBy, Purge, ClientHasUnattended, HeldUnattended;
    GoneMeans(s, dead);
    CoveredMeans(s, dead, now, client, ids);
  }

  // ----- unattended consent -----

  /** A consent can be captured exactly while the app is active, for a connected client, in a vault session
      that can be named; it notes what it was given under. */
  lemma CaptureExactly(s: State, dead: set<Token>, client: Client, snapshot: Result<Uid>)
    requires s.sessions.Keys == s.clientSessions.Keys
    ensures Capture(s, dead, client, snapshot).1 ==
            if !s.access.Active? || !Present(s, dead, client) then Err(ApprovalCancelled)
            else if snapshot.Err? then Err(snapshot.error)
            else Ok(Context(client, snapshot.value, s.revision, s.lockEpoch, s.sessions[client]))
    ensures Capture(s, dead, client, snapshot).1.Ok? ==> Capture(s, dead, client, snapshot).0.vault == Some(snapshot.value)
  {
    hide Gone;
    GoneMeans(s, dead);
  }

  /** Nothing has changed since the consent was captured. */
  predicate StillThere(s: State, dead: set<Token>, context: Context) {
    && s.access.Active? && s.vault == Some(context.vault) && s.lockEpoch == context.epoch && s.revision == context.revision
    && Present(s, dead, context.client) && context.client in s.sessions && s.sessions[context.client] == context.connection
  }

  /** Unattended grants are made exactly for a time within the next 24 hours, for some secrets, when nothing
      has changed since the consent and the last check passes. They end at that time and after as many
      milliseconds as are left until then. A pending request of the client that they cover is answered. */
  lemma GrantUnattendedExactly(s: State, dead: set<Token>, now: Time, context: Context, secrets: seq<Secret>, deadline: int, validated: Result<()>)
    ensures var (t, r) := GrantUnattended(s, dead, now, context, secrets, deadline, validated);
            && r == (if !(now.wall < deadline <= now.wall + 86_400_000_000_000) || secrets == [] then Err(InvalidRequest)
                     else if !StillThere(s, dead, context) then Err(ApprovalCancelled)
                     else if validated.Err? then validated
                     else Ok(()))
            && (r.Ok? ==>
                 && (forall x :: x in secrets ==>
                      && (context.client, x) in t.grants
                      && t.grants[(context.client, x)]
                         == Unattended(deadline, Saturate(now.elapsed + Saturate((deadline - now.wall) / 1_000_000))))
                 && (forall p: Pair :: !(p.0 == context.client && p.1 in secrets) ==>
                      (p in t.grants <==> Held(s, dead, now, p)) && (p in t.grants ==> t.grants[p] == s.grants[p]))
                 && t.pending == AnsweredBy(Gone(s, dead).pending, context.client, secrets))
            && (r.Err? ==> t == Gone(s, dead))
  {
    hide Gone, Purge, Held;
    GoneMeans(s, dead);
    PurgeMeans(s, dead, now);
  }

  /** A request of the client, undecided so far, is answered when all that was asked for is covered. */
  function AnsweredBy(pending: Option<Pending>, client: Client, secrets: seq<Secret>): Option<Pending> {
    if pending.Some? && pending.value.request.client == client && pending.value.decision == None
       && forall x :: x in pending.value.requested ==> x in secrets
    then Some(pending.value.(decision := Some(Decision.Granted))) else pending
  }
}
