/**
 The state behind the approval mutex (approval.rs), and what each section that holds the mutex does.

 `dead` is the set of cancelled tokens and `now` the clock reading of the section. Client labels, which
 are only shown, are left out.
*/
module Approval {
  import opened Bytes
  import opened Model
  import opened Grants

  type Token = nat
  type Uid = nat

  const MAX_TRACKED_SESSIONS: nat := 32
  const GRANT_LIFETIME: nat := 30 * 60 * 1_000_000_000
  const DAY: nat := 24 * 3600 * 1_000_000_000

  datatype Decision =
    | Approve(lifetime: Option<nat>)
    | ApproveUntil(deadline: int)
    | ApproveSession
    | Granted
    | Deny
    | Cancel

  datatype Request = Request(id: Uid, vault: Uid, client: Client, secrets: seq<Secret>)

  datatype Pending = Pending(request: Request, requested: seq<Secret>, decision: Option<Decision>)

  datatype Access = Active | Locking(epoch: nat) | Locked(epoch: nat)

  datatype Ticket = Ticket(vault: Uid, client: Client, secrets: seq<Secret>)

  datatype Context = Context(client: Client, vault: Uid, revision: nat, epoch: nat, connection: Uid)

  datatype State = State(
    grants: Table,
    vault: Option<Uid>,
    pending: Option<Pending>,
    clientSessions: map<Client, Token>,
    sessions: map<Client, Uid>,
    closed: bool,
    access: Access,
    lockEpoch: nat,
    revision: nat)

  const INITIAL: State := State(map[], None, None, map[], map[], false, Active, 0, 0)

  // ----- shared pieces -----

  /** Registered clients whose connection token has been cancelled. */
  function Disconnected(s: State, dead: set<Token>): set<Client> {
    set c | c in s.clientSessions && s.clientSessions[c] in dead
  }

  function Cancelled(pending: Option<Pending>): Option<Pending> {
    match pending
    case Some(p) => Some(p.(decision := Some(Cancel)))
    case None => None
  }

  /** The state with these clients gone: their sessions and grants, and any decision on their request. */
  function Without(s: State, out: set<Client>): State {
    s.(clientSessions := s.clientSessions - out,
       sessions := s.sessions - out,
       grants := map p | p in s.grants && p.0 !in out :: s.grants[p],
       pending := if s.pending.Some? && s.pending.value.request.client in out then Cancelled(s.pending) else s.pending)
  }

  /** `purge_disconnected_clients` */
  function Gone(s: State, dead: set<Token>): State { Without(s, Disconnected(s, dead)) }

  /** Anything that looks at the live grants drops the expired ones; so does `prune_client_labels`. */
  function Prune(s: State, now: Time): State { s.(grants := Purge(s.grants, now)) }

  function ClearPending(s: State, id: Uid, now: Time): State {
    if s.pending.Some? && s.pending.value.request.id == id then Prune(s.(pending := None), now) else s
  }

  /** A request with another vault session drops every grant of the old one. */
  function Switch(s: State, vault: Uid): State {
    if s.vault == Some(vault) then s else s.(grants := map[], vault := Some(vault))
  }

  /** `client_has_unattended`: the grants are only looked at for a registered client. */
  function Look(s: State, client: Client, now: Time): State {
    if client in s.clientSessions then Prune(s, now) else s
  }

  predicate ClientHasUnattended(s: State, client: Client, now: Time) {
    client in s.clientSessions && HasUnattendedIn(Purge(s.grants, now), client)
  }

  /** A registered client with unattended grants for all of `ids`. */
  predicate Covered(s: State, client: Client, ids: seq<Secret>, now: Time) {
    ClientHasUnattended(s, client, now) && MissingUnattendedIn(Purge(s.grants, now), client, ids) == {}
  }

  function Distinct(s: seq<Secret>): (r: seq<Secret>)
    ensures forall x :: x in r <==> x in s
    decreases |s|
  {
    if s == [] then []
    else
      var front := Distinct(s[..|s| - 1]);
      if s[|s| - 1] in front then front else front + [s[|s| - 1]]
  }

  // ----- asking and waiting -----

  datatype Publication = Refused(error: Error) | Issued(ticket: Ticket) | Waiting(ticket: Ticket)

  /** `authorize_with_wake`, up to where it starts to wait. */
  function Publish(s: State, dead: set<Token>, now: Time, request: Request): (State, Publication) {
    var s := Gone(s, dead);
    if !s.access.Active? then
      if s.vault != Some(request.vault) then (s, Refused(VaultLocked))
      else
        (Look(s, request.client, now),
         if Covered(s, request.client, request.secrets, now) then Issued(Ticket(request.vault, request.client, request.secrets))
         else Refused(VaultLocked))
    else if s.pending.Some? then (s, Refused(Busy))
    else
      var s := Prune(Switch(s, request.vault), now);
      var ticket := Ticket(request.vault, request.client, Distinct(request.secrets));
      if MissingIn(s.grants, request.client, request.secrets) == {} then (s, Issued(ticket))
      else
        var missing := Filter(request.secrets, x => (request.client, x) !in s.grants);
        (s.(pending := Some(Pending(request.(secrets := missing), ticket.secrets, None))), Waiting(ticket))
  }

  datatype Polled = NotYet | Settled(result: Result<Ticket>)

  predicate Positive(d: Decision) { d.Approve? || d.ApproveUntil? || d.ApproveSession? }

  /** The call on the grant store that a positive decision leads to. */
  function GrantOf(d: Decision, request: Request): (op: Grants.Op)
    requires Positive(d)
    ensures IsGrant(op) && op.client == request.client && op.secrets == request.secrets && !op.GrantUnattendedUntil?
  {
    match d
    case Approve(lifetime) => GrantFor(request.client, request.secrets, if lifetime.Some? then lifetime.value else GRANT_LIFETIME)
    case ApproveUntil(deadline) => GrantUntil(request.client, request.secrets, deadline)
    case ApproveSession => GrantSession(request.client, request.secrets)
  }

  function DecisionFor(s: State, id: Uid): Option<Decision> {
    if s.pending.Some? && s.pending.value.request.id == id then s.pending.value.decision else None
  }

  /** One turn of the waiting loop of `authorize_with_wake`. */
  function Poll(s: State, dead: set<Token>, now: Time, id: Uid, ticket: Ticket, token: Token, timedOut: bool): (State, Polled) {
    var s := Gone(s, dead);
    if token in dead then (ClearPending(s, id, now), Settled(Err(ApprovalCancelled)))
    else
      match DecisionFor(s, id)
      case None =>
        if timedOut then (ClearPending(s, id, now), Settled(Err(ApprovalTimeout))) else (s, NotYet)
      case Some(d) =>
        var request := s.pending.value.request;
        var s := s.(pending := None);
        if Positive(d) then
          if d.ApproveSession? && request.client !in s.clientSessions then (s, Settled(Err(ApprovalCancelled)))
          else (s.(grants := Grants.Do(s.grants, GrantOf(d, request), now)), Settled(Ok(ticket)))
        else
          var s := Prune(s, now);
          if d.Granted? && MissingIn(s.grants, ticket.client, ticket.secrets) == {} then (s, Settled(Ok(ticket)))
          else (s, Settled(Err(if d.Deny? then ApprovalDenied else ApprovalCancelled)))
  }

  /** `set_decision` */
  function Decide(s: State, dead: set<Token>, now: Time, id: Uid, d: Decision): (State, Result<()>) {
    var s := Gone(s, dead);
    if s.pending.None? then (s, Err(InvalidRequest))
    else if d.ApproveSession? && s.pending.value.request.client !in s.clientSessions then (s, Err(ApprovalCancelled))
    else if s.pending.value.request.id != id || s.pending.value.decision.Some? then (s, Err(InvalidRequest))
    else
      var t := s.(pending := Some(s.pending.value.(decision := Some(d))));
      (if Positive(d) then t else Prune(t, now), Ok(()))
  }

  // ----- client sessions -----

  /** `register_client_session` */
  function Register(s: State, dead: set<Token>, client: Client, token: Token, connection: Uid): (State, Result<()>) {
    var s := Gone(s, dead);
    if s.closed || client in s.clientSessions || |s.clientSessions| >= MAX_TRACKED_SESSIONS then (s, Err(Busy))
    else
      (s.(grants := map p | p in s.grants && p.0 != client :: s.grants[p],
          sessions := s.sessions[client := connection],
          clientSessions := s.clientSessions[client := token]), Ok(()))
  }

  /** `close_client_sessions`: the new set of cancelled tokens, and the state after the purge. */
  function Close(s: State, dead: set<Token>): (State, set<Token>) {
    var dead := dead + s.clientSessions.Values;
    (Gone(s.(closed := true), dead), dead)
  }

  // ----- locking -----

  /** `begin_app_lock` and, with `preserve`, `begin_auto_app_lock`. */
  function BeginLock(s: State, now: Time, preserve: bool): (State, Result<nat>) {
    if !s.access.Active? then (s, Err(Busy))
    else if s.lockEpoch >= U64_MAX then (s, Err(InvalidRequest))
    else
      (s.(lockEpoch := s.lockEpoch + 1, access := Locking(s.lockEpoch + 1), pending := Cancelled(s.pending),
          grants := if preserve then Grants.Do(s.grants, RetainUnattended, now) else map[]),
       Ok(s.lockEpoch + 1))
  }

  function FinishLock(s: State, epoch: nat): (State, Result<()>) {
    if s.access != Locking(epoch) then (s, Err(InvalidRequest)) else (s.(access := Locked(epoch)), Ok(()))
  }

  function UnlockApp(s: State, epoch: nat): (State, Result<()>) {
    if s.access != Locked(epoch) then (s, Err(InvalidRequest)) else (s.(access := Active), Ok(()))
  }

  /** `reset_after_vault_lock` */
  function Reset(s: State): (State, Result<()>) {
    if s.lockEpoch >= U64_MAX then (s, Err(InvalidRequest))
    else
      (s.(lockEpoch := s.lockEpoch + 1, access := Active, pending := Cancelled(s.pending), grants := map[], vault := None), Ok(()))
  }

  // ----- revoking -----

  /** The public `cancel_pending`. */
  function CancelPending(s: State, now: Time): State {
    if s.pending.Some? then Prune(s.(pending := Cancelled(s.pending)), now) else s
  }

  function RevokeAll(s: State): (State, Result<()>) {
    if s.revision >= U64_MAX then (s, Err(InvalidRequest))
    else (s.(revision := s.revision + 1, grants := map[]), Ok(()))
  }

  function RevokePair(s: State, now: Time, client: Client, secret: Secret): (State, Result<bool>) {
    if s.revision >= U64_MAX then (s, Err(InvalidRequest))
    else
      (s.(revision := s.revision + 1,
          pending := if s.pending.Some? && s.pending.value.request.client == client && secret in s.pending.value.requested
                     then Cancelled(s.pending) else s.pending,
          grants := Grants.Do(s.grants, Grants.RevokePair(client, secret), now)),
       Ok((client, secret) in Purge(s.grants, now)))
  }

  function RevokeClient(s: State, now: Time, client: Client): (State, Result<()>) {
    if s.revision >= U64_MAX then (s, Err(InvalidRequest))
    else
      (Prune(s.(revision := s.revision + 1,
                pending := if s.pending.Some? && s.pending.value.request.client == client then Cancelled(s.pending) else s.pending,
                grants := Grants.Do(s.grants, Grants.RevokeClient(client), now)), now),
       Ok(()))
  }

  /** `coordinate_secret_mutation`; `prepared` and `committed` are the outcomes of its two callbacks. */
  function Mutate(s: State, now: Time, secret: Secret, prepared: Result<()>, committed: Result<()>): (State, Result<()>) {
    if prepared.Err? then (s, prepared)
    else if s.revision >= U64_MAX then (s, Err(InvalidRequest))
    else
      (Prune(s.(revision := s.revision + 1,
                pending := if s.pending.Some? && secret in s.pending.value.requested then Cancelled(s.pending) else s.pending,
                grants := Grants.Do(s.grants, RevokeSecret(secret), now)), now),
       committed)
  }

  // ----- using grants -----

  /** The checks of `with_valid_grant`. */
  function Valid(s: State, dead: set<Token>, now: Time, ticket: Ticket): (State, bool) {
    var s := Gone(s, dead);
    var looked := if s.access.Active? then s.vault == Some(ticket.vault) else ticket.client in s.clientSessions;
    (if looked then Prune(s, now) else s,
     && (s.access.Active? || Covered(s, ticket.client, ticket.secrets, now))
     && s.vault == Some(ticket.vault)
     && MissingIn(Purge(s.grants, now), ticket.client, ticket.secrets) == {})
  }

  function RequireAccess(s: State, dead: set<Token>, now: Time, client: Client): (State, bool) {
    var s := Gone(s, dead);
    if s.access.Active? then (s, true) else (Look(s, client, now), ClientHasUnattended(s, client, now))
  }

  function UnattendedCovers(s: State, dead: set<Token>, now: Time, client: Client, ids: seq<Secret>): (State, bool) {
    var s := Gone(s, dead);
    (Look(s, client, now), Covered(s, client, ids, now))
  }

  // ----- unattended consent -----

  /** `capture_unattended_with`; `snapshot` is what the callback returns. */
  function Capture(s: State, dead: set<Token>, client: Client, snapshot: Result<Uid>): (State, Result<Context>) {
    var s := Gone(s, dead);
    if !s.access.Active? || client !in s.clientSessions then (s, Err(ApprovalCancelled))
    else if snapshot.Err? then (s, Err(snapshot.error))
    else
      var s := Switch(s, snapshot.value);
      if client !in s.sessions then (s, Err(ApprovalCancelled))
      else (s, Ok(Context(client, snapshot.value, s.revision, s.lockEpoch, s.sessions[client])))
  }

  /** `grant_unattended`; `validated` is the outcome of its callback. */
  function GrantUnattended(s: State, dead: set<Token>, now: Time, context: Context, secrets: seq<Secret>, deadline: int, validated: Result<()>): (State, Result<()>) {
    var s := Gone(s, dead);
    if deadline <= now.wall || deadline - now.wall > DAY || secrets == [] then (s, Err(InvalidRequest))
    else if
      || !s.access.Active? || s.vault != Some(context.vault)
      || s.lockEpoch != context.epoch || s.revision != context.revision
      || context.client !in s.clientSessions
      || !(context.client in s.sessions && s.sessions[context.client] == context.connection) then (s, Err(ApprovalCancelled))
    else if validated.Err? then (s, validated)
    else
      var answered := && s.pending.Some? && s.pending.value.request.client == context.client && s.pending.value.decision.None?
                      && forall id :: id in s.pending.value.requested ==> id in secrets;
      (s.(grants := Grants.Do(s.grants, GrantUnattendedUntil(context.client, secrets, deadline), now),
          pending := if answered then Some(s.pending.value.(decision := Some(Granted))) else s.pending),
       Ok(()))
  }
}
