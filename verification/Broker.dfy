/**
 The sections of agent_broker.rs that use the run coordinator and the approval coordinator together, cut
 where they would block.
*/
module Broker {
  import opened Bytes
  import opened Model
  import opened Grants
  import opened Approval
  import opened Runs
  import opened Coordinator
  import UiGate

  /** The start of a run: its reservation and its first access check. A run that is refused leaves no
      lease behind. */
  method ReserveRun(runs: RunCoordinator, approval: ApprovalCoordinator, token: RunCancellation, client: Client, dead: set<Token>, now: Time)
    returns (r: Result<()>)
    requires approval.Valid()
    modifies runs, approval, approval.grants
    ensures approval.Valid()
    ensures match TryStart(old(runs.State()), token, client)
            case Err(e) => r == Err(e) && runs.State() == old(runs.State()) && approval.Abs() == old(approval.Abs())
            case Ok(b) =>
              var checked := RequireAccess(old(approval.Abs()), dead, now, client);
              && approval.Abs() == checked.0
              && r == (if checked.1 then Ok(()) else Err(VaultLocked))
              && runs.State() == if checked.1 then b else old(runs.State())
  {
    hide Gone, Look, ClientHasUnattended;
    r := runs.Start(token, client);
    if r.Err? { return; }
    var allowed := approval.RequireClientAccess(dead, now, client);
    if !allowed {
      runs.DropLease();
      return Err(VaultLocked);
    }
    return Ok(());
  }

  /** `revoke_grant` once its wait is over: the pair is revoked under the block, which is then released. */
  method FinishRevokeGrant(runs: RunCoordinator, approval: ApprovalCoordinator, client: Client, secret: Secret, now: Time)
    returns (r: Result<()>)
    requires approval.Valid() && runs.blockNew && !BoundTo(runs.State(), client, secret)
    modifies runs, approval, approval.grants
    ensures approval.Valid() && approval.Abs() == Approval.RevokePair(old(approval.Abs()), now, client, secret).0
    ensures runs.State() == DropBlock(old(runs.State())) && (client, secret) !in RunningPairs(runs.State())
    ensures r.Ok? <==> old(approval.Abs()).revision < U64_MAX
    ensures r.Ok? ==> (client, secret) !in approval.Abs().grants
  {
    hide Live;
    var revoked := approval.RevokePair(now, client, secret);
    runs.ReleaseBlock();
    return if revoked.Ok? then Ok(()) else Err(revoked.error);
  }

  /** `revoke_session` while no other block is held: `waits` says that it has to wait for a run of the
      client, holding the block; otherwise it is done. */
  method RevokeSession(runs: RunCoordinator, approval: ApprovalCoordinator, client: Client, now: Time)
    returns (waits: bool, r: Result<()>)
    requires approval.Valid() && !runs.blockNew
    modifies runs, runs.Tokens(), approval, approval.grants
    ensures approval.Valid() && waits == OfClient(old(runs.State()), client)
    ensures waits ==> runs.State() == TakeBlock(old(runs.State())) && runs.active.value.token.cancelled && approval.Abs() == old(approval.Abs())
    ensures !waits && runs.active.Some? ==> runs.active.value.token.cancelled == old(runs.active.Some? && runs.active.value.token.cancelled)
    ensures !waits ==>
              && runs.State() == old(runs.State())
              && approval.Abs() == Approval.RevokeClient(old(approval.Abs()), now, client).0
              && r == Approval.RevokeClient(old(approval.Abs()), now, client).1
  {
    hide Purge;
    r := Ok(());
    waits := runs.BlockForClientRevoke(client);
    if waits { return; }
    r := approval.RevokeClient(now, client);
    runs.ReleaseBlock();
  }

  /** The check of an automatic lock that has begun: a run that unattended grants do not cover is
      cancelled, and a covered one is left alone. */
  method CancelUncovered(runs: RunCoordinator, approval: ApprovalCoordinator, dead: set<Token>, now: Time)
    requires approval.Valid()
    modifies runs.Tokens(), approval, approval.grants
    ensures approval.Valid() && runs.State() == old(runs.State())
    ensures runs.active.None? ==> approval.Abs() == old(approval.Abs())
    ensures runs.active.Some? ==>
              var run := runs.active.value;
              var checked := UnattendedCovers(old(approval.Abs()), dead, now, run.client, if run.ids.Some? then run.ids.value else []);
              && approval.Abs() == checked.0
              && run.token.cancelled == (old(run.token.cancelled) || !checked.1)
  {
    hide Gone, Look, Covered;
    if runs.active.Some? {
      var run := runs.active.value;
      var covered := approval.CoversUnattended(dead, now, run.client, if run.ids.Some? then run.ids.value else []);
      if !covered { run.token.Cancel(); }
    }
  }

  /** `begin_app_lock`, up to where it starts its worker: the window's local operation is taken, the lock
      begins and the active run is cancelled; a lock that cannot begin gives the operation back. */
  method BeginManualLock(ui: UiGate.UiLockCoordinator, runs: RunCoordinator, approval: ApprovalCoordinator, now: Time) returns (r: Result<nat>)
    requires approval.Valid()
    modifies ui, runs.Tokens(), approval, approval.grants
    ensures approval.Valid() && runs.State() == old(runs.State())
    ensures match UiGate.TryBeginLocal(old(ui.State()))
            case Err(e) => r == Err(e) && ui.State() == old(ui.State()) && approval.Abs() == old(approval.Abs())
            case Ok(None) => r == Err(Busy) && ui.State() == old(ui.State()) && approval.Abs() == old(approval.Abs())
            case Ok(Some(g)) =>
              && (approval.Abs(), r) == Approval.BeginLock(old(approval.Abs()), now, false)
              && ui.State() == (if r.Ok? then g else old(ui.State()))
    ensures runs.active.Some? ==> runs.active.value.token.cancelled == (r.Ok? || old(runs.active.Some? && runs.active.value.token.cancelled))
  {
    hide Live;
    var operation :- ui.BeginLocalOperation();
    if !operation { return Err(Busy); }
    r := approval.BeginAppLockWithPolicy(now, false);
    if r.Err? {
      ui.DropLocalOperation();
      return;
    }
    runs.CancelActive();
  }

  /** The worker of a manual lock once its wait is over: the lock is complete, and the local operation and
      the block are given back. */
  method FinishManualLock(ui: UiGate.UiLockCoordinator, runs: RunCoordinator, approval: ApprovalCoordinator, epoch: nat) returns (r: Result<()>)
    requires approval.Valid() && runs.blockNew && runs.active.None?
    modifies ui, runs, approval, approval.grants
    ensures approval.Valid() && runs.State() == Board(None, false) && !ui.localOperation
    ensures (approval.Abs(), r) == Approval.FinishLock(old(approval.Abs()), epoch)
  {
    r := approval.FinishAppLock(epoch);
    ui.DropLocalOperation();
    runs.ReleaseBlock();
  }

  /** `auto_lock_controller_if_idle`; `idle` says that the controller was idle and has locked the vault. */
  method AutoLockControllerIfIdle(runs: RunCoordinator, approval: ApprovalCoordinator, idle: bool, ghost now: Time) returns (r: Result<bool>)
    requires approval.Valid()
    modifies runs, approval, approval.grants
    ensures approval.Valid() && runs.State() == old(runs.State())
    ensures old(runs.blockNew || runs.active.Some?) || !idle ==> r == Ok(false) && approval.Abs() == old(approval.Abs())
    ensures !old(runs.blockNew || runs.active.Some?) && idle ==>
              && approval.Abs() == Approval.Reset(old(approval.Abs())).0
              && match Approval.Reset(old(approval.Abs())).1
                 case Ok(_) => r == Ok(true)
                 case Err(e) => r == Err(e)
  {
    var taken := runs.TryBlockNewRuns();
    if !taken { return Ok(false); }
    r := Ok(idle);
    if idle {
      var reset := approval.ResetAfterVaultLock(now);
      if reset.Err? { r := Err(reset.error); }
    }
    runs.ReleaseBlock();
  }
}
