/**
 `ApprovalCoordinator` (approval.rs): the fields of its state and the sections that update them in place,
 each proved to do what `Approval` says.
*/
module Coordinator {
  import opened Bytes
  import opened Model
  import opened Grants
  import opened Approval

  lemma WithoutNobody(s: State)
    ensures Without(s, {}) == s
  {}

  lemma RevokedClient(m: Table, client: Client, now: Time)
    ensures Grants.Do(m, Grants.RevokeClient(client), now) == map p | p in m && p.0 !in {client} :: m[p]
  {}

  lemma WithoutOneMore(s: State, gone: set<Client>, client: Client)
    ensures Without(Without(s, gone), {client}) == Without(s, gone + {client})
  {
    var t, u := Without(Without(s, gone), {client}), Without(s, gone + {client});
    assert t.clientSessions == u.clientSessions;
    assert t.sessions == u.sessions;
    assert t.grants == u.grants;
  }

  class ApprovalCoordinator {
    const grants: GrantStore
    var vault: Option<Uid>
    var pending: Option<Pending>
    var clientSessions: map<Client, Token>
    var sessions: map<Client, Uid>
    var closed: bool
    var access: Access
    var lockEpoch: nat
    var revision: nat

    ghost predicate Valid() reads grants { grants.Valid() && grants.lifetime == GRANT_LIFETIME }

    ghost function Abs(): State reads this, grants {
      State(grants.deadlines, vault, pending, clientSessions, sessions, closed, access, lockEpoch, revision)
    }

    constructor ()
      ensures Valid() && Abs() == INITIAL && fresh(grants)
    {
      grants := new GrantStore(GRANT_LIFETIME);
      vault, pending := None, None;
      clientSessions, sessions, closed := map[], map[], false;
      access, lockEpoch, revision := Active, 0, 0;
    }

    method CancelDecision()
      modifies this`pending
      ensures pending == Cancelled(old(pending))
    {
      if pending.Some? { pending := Some(pending.value.(decision := Some(Cancel))); }
    }

    method DropClient(client: Client, ghost now: Time)
      requires Valid()
      modifies this, grants
      ensures Valid()
      ensures Abs() == Without(old(Abs()), {client})
    {
      hide Grants.Do, Grants.Run;
      RevokedClient(grants.deadlines, client, now);
      clientSessions := clientSessions - {client};
      grants.RevokeClient(client, now);
      sessions := sessions - {client};
      if pending.Some? && pending.value.request.client == client { CancelDecision(); }
    }

    /** `purge_disconnected_clients` */
    method PurgeDisconnectedClients(dead: set<Token>, ghost now: Time)
      requires Valid()
      modifies this, grants
      ensures Valid()
      ensures Abs() == Gone(old(Abs()), dead)
    {
      var disconnected := set c | c in clientSessions && clientSessions[c] in dead;
      ghost var s: State, gone: set<Client> := Abs(), {};
      WithoutNobody(s);
      var left := disconnected;
      while left != {}
        invariant gone !! left && gone + left == disconnected
        invariant Valid() && Abs() == Without(s, gone)
        decreases |left|
      {
        hide Without;
        var client :| client in left;
        WithoutOneMore(s, gone, client);
        DropClient(client, now);
        left := left - {client};
        gone := gone + {client};
      }
    }

    method PruneGrants(now: Time)
      requires Valid()
      modifies grants
      ensures Valid() && Abs() == Prune(old(Abs()), now)
    {
      hide Purge;
      grants.Look(now);
    }

    /** `authorize_with_wake` under a lock: only unattended grants count. */
    method AuthorizeLocked(now: Time, request: Request) returns (r: Publication)
      requires Valid() && !access.Active?
      modifies grants
      ensures Valid()
      ensures vault != Some(request.vault) ==> Abs() == old(Abs()) && r == Refused(VaultLocked)
      ensures vault == Some(request.vault) ==>
                && Abs() == Look(old(Abs()), request.client, now)
                && r == (if Covered(old(Abs()), request.client, request.secrets, now) then Issued(Ticket(request.vault, request.client, request.secrets))
                         else Refused(VaultLocked))
    {
      hide Purge, MissingUnattendedIn, HasUnattendedIn;
      if vault != Some(request.vault) { return Refused(VaultLocked); }
      if request.client !in clientSessions { return Refused(VaultLocked); }
      PurgeTwice(grants.deadlines, now);
      var has := grants.HasUnattended(request.client, now);
      if !has { return Refused(VaultLocked); }
      var missing := grants.MissingUnattended(request.client, request.secrets, now);
      SameElements(missing, MissingUnattendedIn(grants.deadlines, request.client, request.secrets));
      if missing != [] { return Refused(VaultLocked); }
      return Issued(Ticket(request.vault, request.client, request.secrets));
    }

    /** `authorize_with_wake`, up to where it starts to wait. */
    method Authorize(dead: set<Token>, now: Time, request: Request) returns (r: Publication)
      requires Valid()
      modifies this, grants
      ensures Valid()
      ensures (Abs(), r) == Approval.Publish(old(Abs()), dead, now, request)
    {
      hide Gone, Purge, MissingIn, Covered, Look, Distinct, Filter;
      PurgeDisconnectedClients(dead, now);
      if !access.Active? {
        r := AuthorizeLocked(now, request);
        return;
      }
      if pending.Some? { return Refused(Busy); }
      if vault != Some(request.vault) {
        grants.RevokeAll(now);
        vault := Some(request.vault);
      }
      var ticket := Ticket(request.vault, request.client, Distinct(request.secrets));
      var missing := grants.Missing(request.client, request.secrets, now);
      SameElements(missing, MissingIn(grants.deadlines, request.client, request.secrets));
      if missing == [] { return Issued(ticket); }
      var m := grants.deadlines;
      MissingMeans(m, request.client, request.secrets);
      FilterAgrees(request.secrets, x => x in missing, x => (request.client, x) !in m);
      var asked := Filter(request.secrets, x => x in missing);
      pending := Some(Pending(request.(secrets := asked), ticket.secrets, None));
      return Waiting(ticket);
    }

    method ClearPendingRequest(id: Uid, now: Time)
      requires Valid()
      modifies this, grants
      ensures Valid()
      ensures Abs() == ClearPending(old(Abs()), id, now)
    {
      if pending.Some? && pending.value.request.id == id {
        pending := None;
        PruneGrants(now);
      }
    }

    /** One turn of the waiting loop of `authorize_with_wake`. */
    method PollOnce(dead: set<Token>, now: Time, id: Uid, ticket: Ticket, token: Token, timedOut: bool) returns (r: Polled)
      requires Valid()
      modifies this, grants
      ensures Valid()
      ensures (Abs(), r) == Approval.Poll(old(Abs()), dead, now, id, ticket, token, timedOut)
    {
      hide Gone, Purge, MissingIn, GrantAll;
      PurgeDisconnectedClients(dead, now);
      if token in dead {
        ClearPendingRequest(id, now);
        return Settled(Err(ApprovalCancelled));
      }
      if pending.Some? && pending.value.request.id == id && pending.value.decision.Some? {
        var taken := pending.value;
        pending := None;
        var request := taken.request;
        match taken.decision.value {
          case Granted =>
            var missing := grants.Missing(ticket.client, ticket.secrets, now);
            SameElements(missing, MissingIn(grants.deadlines, ticket.client, ticket.secrets));
            return Settled(if missing == [] then Ok(ticket) else Err(ApprovalCancelled));
          case Approve(lifetime) =>
            if lifetime.Some? {
              grants.GrantFor(request.client, request.secrets, lifetime.value, now);
            } else {
              grants.Grant(request.client, request.secrets, now);
            }
            return Settled(Ok(ticket));
          case ApproveUntil(deadline) =>
            grants.GrantUntil(request.client, request.secrets, deadline, now);
            return Settled(Ok(ticket));
          case ApproveSession =>
            if request.client !in clientSessions { return Settled(Err(ApprovalCancelled)); }
            grants.GrantSession(request.client, request.secrets, now);
            return Settled(Ok(ticket));
          case Deny =>
            PruneGrants(now);
            return Settled(Err(ApprovalDenied));
          case Cancel =>
            PruneGrants(now);
            return Settled(Err(ApprovalCancelled));
        }
      }
      if timedOut {
        ClearPendingRequest(id, now);
        return Settled(Err(ApprovalTimeout));
      }
      return NotYet;
    }

    method SetDecision(dead: set<Token>, now: Time, id: Uid, decision: Decision) returns (r: Result<()>)
      requires Valid()
      modifies this, grants
      ensures Valid()
      ensures (Abs(), r) == Approval.Decide(old(Abs()), dead, now, id, decision)
    {
      hide Gone, Purge;
      PurgeDisconnectedClients(dead, now);
      if decision.ApproveSession? {
        if pending.None? { return Err(InvalidRequest); }
        if pending.value.request.client !in clientSessions { return Err(ApprovalCancelled); }
      }
      if pending.None? { return Err(InvalidRequest); }
      if pending.value.request.id != id || pending.value.decision.Some? { return Err(InvalidRequest); }
      pending := Some(pending.value.(decision := Some(decision)));
      if !(decision.Approve? || decision.ApproveUntil? || decision.ApproveSession?) { PruneGrants(now); }
      return Ok(());
    }

    method RegisterClientSession(dead: set<Token>, client: Client, token: Token, connection: Uid, ghost now: Time) returns (r: Result<()>)
      requires Valid()
      modifies this, grants
      ensures Valid()
      ensures (Abs(), r) == Approval.Register(old(Abs()), dead, client, token, connection)
    {
      hide Gone;
      PurgeDisconnectedClients(dead, now);
      if closed || client in clientSessions || |clientSessions| >= MAX_TRACKED_SESSIONS { return Err(Busy); }
      grants.RevokeClient(client, now);
      sessions := sessions[client := connection];
      clientSessions := clientSessions[client := token];
      return Ok(());
    }

    /** The loop that cancels every registered token. */
    method CancelTokens(dead: set<Token>) returns (after: set<Token>)
      ensures after == dead + clientSessions.Values
    {
      after := dead;
      var left := clientSessions.Values;
      while left != {}
        invariant after + left == dead + clientSessions.Values
        decreases |left|
      {
        var token :| token in left;
        after := after + {token};
        left := left - {token};
      }
    }

    /** `close_client_sessions`; returns the cancelled tokens afterwards. */
    method CloseClientSessions(dead: set<Token>, ghost now: Time) returns (after: set<Token>)
      requires Valid()
      modifies this, grants
      ensures Valid()
      ensures (Abs(), after) == Approval.Close(old(Abs()), dead)
    {
      hide Gone;
      closed := true;
      after := CancelTokens(dead);
      PurgeDisconnectedClients(after, now);
    }

    method BeginAppLockWithPolicy(now: Time, preserve: bool) returns (r: Result<nat>)
      requires Valid()
      modifies this, grants
      ensures Valid()
      ensures (Abs(), r) == Approval.BeginLock(old(Abs()), now, preserve)
    {
      hide Purge;
      if !access.Active? { return Err(Busy); }
      if lockEpoch >= U64_MAX { return Err(InvalidRequest); }
      var epoch := lockEpoch + 1;
      lockEpoch := epoch;
      access := Locking(epoch);
      CancelDecision();
      if preserve {
        grants.RetainUnattended(now);
      } else {
        grants.RevokeAll(now);
      }
      return Ok(epoch);
    }

    method FinishAppLock(epoch: nat) returns (r: Result<()>)
      requires Valid()
      modifies this, grants
      ensures Valid()
      ensures (Abs(), r) == Approval.FinishLock(old(Abs()), epoch)
    {
      if access != Locking(epoch) { return Err(InvalidRequest); }
      access := Locked(epoch);
      return Ok(());
    }

    method UnlockApp(epoch: nat) returns (r: Result<()>)
      requires Valid()
      modifies this, grants
      ensures Valid()
      ensures (Abs(), r) == Approval.UnlockApp(old(Abs()), epoch)
    {
      if access != Locked(epoch) { return Err(InvalidRequest); }
      access := Active;
      return Ok(());
    }

    method ResetAfterVaultLock(ghost now: Time) returns (r: Result<()>)
      requires Valid()
      modifies this, grants
      ensures Valid()
      ensures (Abs(), r) == Approval.Reset(old(Abs()))
    {
      if lockEpoch >= U64_MAX { return Err(InvalidRequest); }
      lockEpoch := lockEpoch + 1;
      access := Active;
      CancelDecision();
      grants.RevokeAll(now);
      vault := None;
      return Ok(());
    }

    method CancelPending(now: Time)
      requires Valid()
      modifies this, grants
      ensures Valid()
      ensures Abs() == Approval.CancelPending(old(Abs()), now)
    {
      hide Purge;
      if pending.Some? {
        CancelDecision();
        PruneGrants(now);
      }
    }

    method RevokeAll(ghost now: Time) returns (r: Result<()>)
      requires Valid()
      modifies this, grants
      ensures Valid()
      ensures (Abs(), r) == Approval.RevokeAll(old(Abs()))
    {
      if revision >= U64_MAX { return Err(InvalidRequest); }
      revision := revision + 1;
      grants.RevokeAll(now);
      return Ok(());
    }

    method RevokePair(now: Time, client: Client, secret: Secret) returns (r: Result<bool>)
      requires Valid()
      modifies this, grants
      ensures Valid()
      ensures (Abs(), r) == Approval.RevokePair(old(Abs()), now, client, secret)
    {
      hide Live;
      if revision >= U64_MAX { return Err(InvalidRequest); }
      revision := revision + 1;
      if pending.Some? && pending.value.request.client == client && secret in pending.value.requested { CancelDecision(); }
      var revoked := grants.RevokePair(client, secret, now);
      return Ok(revoked);
    }

    method RevokeClient(now: Time, client: Client) returns (r: Result<()>)
      requires Valid()
      modifies this, grants
      ensures Valid()
      ensures (Abs(), r) == Approval.RevokeClient(old(Abs()), now, client)
    {
      hide Purge;
      if revision >= U64_MAX { return Err(InvalidRequest); }
      revision := revision + 1;
      grants.RevokeClient(client, now);
      if pending.Some? && pending.value.request.client == client { CancelDecision(); }
      PruneGrants(now);
      return Ok(());
    }

    /** `coordinate_secret_mutation`; the parameters are the outcomes of its two callbacks. */
    method CoordinateSecretMutation(now: Time, secret: Secret, prepared: Result<()>, committed: Result<()>) returns (r: Result<()>)
      requires Valid()
      modifies this, grants
      ensures Valid()
      ensures (Abs(), r) == Approval.Mutate(old(Abs()), now, secret, prepared, committed)
    {
      hide Purge;
      if prepared.Err? { return prepared; }
      if revision >= U64_MAX { return Err(InvalidRequest); }
      revision := revision + 1;
      if pending.Some? && secret in pending.value.requested { CancelDecision(); }
      grants.RevokeSecret(secret, now);
      PruneGrants(now);
      return committed;
    }

    /** `with_valid_grant`: whether its callback is run. */
    method WithValidGrant(dead: set<Token>, now: Time, ticket: Ticket) returns (ok: bool)
      requires Valid()
      modifies this, grants
      ensures Valid()
      ensures (Abs(), ok) == Approval.Valid(old(Abs()), dead, now, ticket)
    {
      hide Gone, Live, MissingIn, MissingUnattendedIn, HasUnattendedIn;
      PurgeDisconnectedClients(dead, now);
      if !access.Active? {
        if ticket.client !in clientSessions { return false; }
        PurgeTwice(grants.deadlines, now);
        var has := grants.HasUnattended(ticket.client, now);
        if !has { return false; }
        var uncovered := grants.MissingUnattended(ticket.client, ticket.secrets, now);
        SameElements(uncovered, MissingUnattendedIn(grants.deadlines, ticket.client, ticket.secrets));
        if uncovered != [] { return false; }
      }
      if vault != Some(ticket.vault) { return false; }
      var missing := grants.Missing(ticket.client, ticket.secrets, now);
      SameElements(missing, MissingIn(grants.deadlines, ticket.client, ticket.secrets));
      return missing == [];
    }

    /** `require_client_access`: whether it succeeds. */
    method RequireClientAccess(dead: set<Token>, now: Time, client: Client) returns (ok: bool)
      requires Valid()
      modifies this, grants
      ensures Valid()
      ensures (Abs(), ok) == Approval.RequireAccess(old(Abs()), dead, now, client)
    {
      hide Gone, Purge, HasUnattendedIn;
      PurgeDisconnectedClients(dead, now);
      if access.Active? { return true; }
      if client !in clientSessions { return false; }
      ok := grants.HasUnattended(client, now);
    }

    method CoversUnattended(dead: set<Token>, now: Time, client: Client, ids: seq<Secret>) returns (r: bool)
      requires Valid()
      modifies this, grants
      ensures Valid()
      ensures (Abs(), r) == Approval.UnattendedCovers(old(Abs()), dead, now, client, ids)
    {
      hide Gone, Purge, HasUnattendedIn, MissingUnattendedIn;
      PurgeDisconnectedClients(dead, now);
      if client !in clientSessions { return false; }
      PurgeTwice(grants.deadlines, now);
      var has := grants.HasUnattended(client, now);
      if !has { return false; }
      var missing := grants.MissingUnattended(client, ids, now);
      SameElements(missing, MissingUnattendedIn(grants.deadlines, client, ids));
      return missing == [];
    }

    method CaptureUnattendedWith(dead: set<Token>, client: Client, snapshot: Result<Uid>, ghost now: Time) returns (r: Result<Context>)
      requires Valid()
      modifies this, grants
      ensures Valid()
      ensures (Abs(), r) == Approval.Capture(old(Abs()), dead, client, snapshot)
    {
      hide Gone;
      PurgeDisconnectedClients(dead, now);
      if !access.Active? || client !in clientSessions { return Err(ApprovalCancelled); }
      var current :- snapshot;
      if vault != Some(current) {
        grants.RevokeAll(now);
        vault := Some(current);
      }
      if client !in sessions { return Err(ApprovalCancelled); }
      return Ok(Context(client, current, revision, lockEpoch, sessions[client]));
    }

    method GrantUnattended(dead: set<Token>, now: Time, context: Context, secrets: seq<Secret>, deadline: int, validated: Result<()>) returns (r: Result<()>)
      requires Valid()
      modifies this, grants
      ensures Valid()
      ensures (Abs(), r) == Approval.GrantUnattended(old(Abs()), dead, now, context, secrets, deadline, validated)
    {
      hide Gone, Purge, GrantAll;
      PurgeDisconnectedClients(dead, now);
      if deadline < now.wall { return Err(InvalidRequest); }
      var remaining := deadline - now.wall;
      if remaining == 0 || remaining > DAY || secrets == [] { return Err(InvalidRequest); }
      if !access.Active? || vault != Some(context.vault) || lockEpoch != context.epoch || revision != context.revision
         || context.client !in clientSessions
         || context.client !in sessions || sessions[context.client] != context.connection
      {
        return Err(ApprovalCancelled);
      }
      if validated.Err? { return validated; }
      grants.GrantUnattendedUntil(context.client, secrets, deadline, now);
      if pending.Some? && pending.value.request.client == context.client && pending.value.decision.None?
         && forall id :: id in pending.value.requested ==> id in secrets
      {
        pending := Some(pending.value.(decision := Some(Granted)));
      }
      return Ok(());
    }
  }
}
