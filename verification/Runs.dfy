/**
 The run coordinator and the cancellation tokens (agent_broker.rs, supervisor.rs).

 A function that blocks is cut into its sections under the mutex: taking the block, noticing that the
 wait is over, and letting go.
*/
module Runs {
  import opened Bytes
  import opened Model
  import opened Grants

  /** `T` is the cancellation token: an object in the coordinator, a name in the protocol. */
  datatype ActiveRun<T> = ActiveRun(token: T, client: Client, ids: Option<seq<Secret>>, running: bool)

  datatype Board<T> = Board(active: Option<ActiveRun<T>>, blockNew: bool)

  /** `try_start` */
  function TryStart<T>(b: Board<T>, token: T, client: Client): Result<Board<T>> {
    if b.blockNew || b.active.Some? then Err(Busy)
    else Ok(b.(active := Some(ActiveRun(token, client, None, false))))
  }

  /** `set_secret_context` */
  function SetSecretContext<T>(b: Board<T>, ids: seq<Secret>): Result<Board<T>> {
    if b.active.None? || b.active.value.ids.Some? then Err(InvalidRequest)
    else Ok(b.(active := Some(b.active.value.(ids := Some(ids)))))
  }

  /** `spawn_child`, through the launch gate of the token. */
  function SpawnChild<T>(b: Board<T>, cancelled: bool, spawned: bool): Result<Board<T>> {
    if b.active.None? || b.active.value.ids.None? then Err(InvalidRequest)
    else if cancelled then Err(ApprovalCancelled)
    else if !spawned then Err(ProcessFailure)
    else Ok(b.(active := Some(b.active.value.(running := true))))
  }

  /** The lease is dropped, after the child, if any, was reaped. */
  function EndRun<T>(b: Board<T>): Board<T> { b.(active := None) }

  function TakeBlock<T>(b: Board<T>): Board<T> { b.(blockNew := true) }

  function DropBlock<T>(b: Board<T>): Board<T> { b.(blockNew := false) }

  /** The run a `revoke_grant` must wait for: one of the client that is bound to the secret, or not yet
      known not to be. */
  predicate BoundTo<T>(b: Board<T>, client: Client, secret: Secret) {
    b.active.Some? && b.active.value.client == client && (b.active.value.ids.Some? ==> secret in b.active.value.ids.value)
  }

  predicate OfClient<T>(b: Board<T>, client: Client) { b.active.Some? && b.active.value.client == client }

  /** `running_pairs` */
  function RunningPairs<T>(b: Board<T>): set<Pair> {
    if b.active.Some? && b.active.value.running && b.active.value.ids.Some?
    then set x | x in b.active.value.ids.value :: (b.active.value.client, x)
    else {}
  }

  class RunCancellation {
    var cancelled: bool
    /** Every time a launch callback was called, and whether it succeeded. */
    ghost var launches: seq<bool>

    constructor ()
      ensures !cancelled && launches == []
    {
      cancelled := false;
      launches := [];
    }

    /** Once cancelled, always cancelled. */
    method Cancel()
      modifies this`cancelled
      ensures cancelled
    {
      cancelled := true;
    }

    method IsCancelled() returns (r: bool)
      ensures r == cancelled
    {
      return cancelled;
    }

    /** The callback of `launch`, with the outcome the system gives it. */
    method Call(outcome: bool) returns (r: Result<()>)
      modifies this`launches
      ensures launches == old(launches) + [outcome] && r == if outcome then Ok(()) else Err(ProcessFailure)
    {
      launches := launches + [outcome];
      return if outcome then Ok(()) else Err(ProcessFailure);
    }

    /** `launch`: behind a cancelled gate the callback is not called at all. */
    method Launch(outcome: bool) returns (r: Result<()>)
      modifies this`launches
      ensures cancelled ==> launches == old(launches) && r == Err(ApprovalCancelled)
      ensures !cancelled ==> launches == old(launches) + [outcome] && r == if outcome then Ok(()) else Err(ProcessFailure)
    {
      var stopped := IsCancelled();
      if stopped { return Err(ApprovalCancelled); }
      r := Call(outcome);
    }
  }

  class RunCoordinator {
    var active: Option<ActiveRun<RunCancellation>>
    var blockNew: bool

    ghost function State(): Board<RunCancellation> reads this { Board(active, blockNew) }

    /** The token of the active run, if there is one. */
    ghost function Tokens(): set<object> reads this`active {
      if active.Some? then {active.value.token} else {}
    }

    constructor ()
      ensures State() == Board(None, false)
    {
      active, blockNew := None, false;
    }

    method Start(token: RunCancellation, client: Client) returns (r: Result<()>)
      modifies this
      ensures match TryStart(old(State()), token, client)
              case Ok(b) => r == Ok(()) && State() == b
              case Err(e) => r == Err(e) && State() == old(State())
    {
      if blockNew || active.Some? { return Err(Busy); }
      active := Some(ActiveRun(token, client, None, false));
      return Ok(());
    }

    method CancelActive()
      modifies Tokens()
      ensures active.Some? ==> active.value.token.cancelled
    {
      if active.Some? { active.value.token.Cancel(); }
    }

    /** `block_new_runs` once no other block is held: from here on it only waits for the active run. */
    method BlockNewRuns()
      requires !blockNew
      modifies this`blockNew, Tokens()
      ensures State() == TakeBlock(old(State())) && (active.Some? ==> active.value.token.cancelled)
    {
      blockNew := true;
      if active.Some? { active.value.token.Cancel(); }
    }

    method TryBlockNewRuns() returns (taken: bool)
      modifies this`blockNew
      ensures taken <==> !old(blockNew) && active.None?
      ensures State() == if taken then TakeBlock(old(State())) else old(State())
    {
      if blockNew || active.Some? { return false; }
      blockNew := true;
      return true;
    }

    /** `block_for_revoke` once no other block is held. When `matches`, it then waits until there is no
        active run; otherwise the block is returned at once, and the active run is left alone. */
    method BlockForRevoke(client: Client, secret: Secret) returns (matches: bool)
      requires !blockNew
      modifies this`blockNew, Tokens()
      ensures State() == TakeBlock(old(State())) && matches == BoundTo(old(State()), client, secret)
      ensures matches ==> active.value.token.cancelled
      ensures !matches && active.Some? ==> active.value.token.cancelled == old(active.value.token.cancelled)
    {
      blockNew := true;
      matches := active.Some? && active.value.client == client && (active.value.ids.None? || secret in active.value.ids.value);
      if matches { active.value.token.Cancel(); }
    }

    /** `block_for_client_revoke` once no other block is held. */
    method BlockForClientRevoke(client: Client) returns (matches: bool)
      requires !blockNew
      modifies this`blockNew, Tokens()
      ensures State() == TakeBlock(old(State())) && matches == OfClient(old(State()), client)
      ensures matches ==> active.value.token.cancelled
      ensures !matches && active.Some? ==> active.value.token.cancelled == old(active.value.token.cancelled)
    {
      blockNew := true;
      matches := active.Some? && active.value.client == client;
      if matches { active.value.token.Cancel(); }
    }

    method SetContext(ids: seq<Secret>) returns (r: Result<()>)
      modifies this
      ensures match SetSecretContext(old(State()), ids)
              case Ok(b) => r == Ok(()) && State() == b
              case Err(e) => r == Err(e) && State() == old(State())
    {
      if active.None? { return Err(InvalidRequest); }
      if active.value.ids.Some? { return Err(InvalidRequest); }
      active := Some(active.value.(ids := Some(ids)));
      return Ok(());
    }

    /** `spawn_child`; `outcome` is what the system does if a child is spawned. Nothing is spawned for a
        run that is cancelled or whose secrets are not known. */
    method Spawn(outcome: bool) returns (r: Result<()>)
      modifies this, Tokens()
      ensures match SpawnChild(old(State()), old(active.Some? && active.value.token.cancelled), outcome)
              case Ok(b) => r == Ok(()) && State() == b
              case Err(e) => r == Err(e) && State() == old(State())
      ensures old(active).Some? ==>
                var token := old(active).value.token;
                && token.cancelled == old(token.cancelled)
                && token.launches == if old(token.cancelled) || old(active).value.ids.None? then old(token.launches) else old(token.launches) + [outcome]
    {
      if active.None? { return Err(InvalidRequest); }
      if active.value.ids.None? { return Err(InvalidRequest); }
      r := active.value.token.Launch(outcome);
      if r.Ok? { active := Some(active.value.(running := true)); }
    }

    method DropLease()
      modifies this
      ensures State() == EndRun(old(State()))
    {
      active := None;
    }

    method ReleaseBlock()
      modifies this
      ensures State() == DropBlock(old(State()))
    {
      blockNew := false;
    }
  }
}
