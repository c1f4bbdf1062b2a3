/**
 Grants, runs and locks together (agent_broker.rs, approval.rs, supervisor.rs): one run at a time, any
 number of threads that revoke or lock, people who decide, and connections that drop.

 Every section that holds a mutex is one step, and the steps of all threads interleave in any order.
*/
module Protocol {
  import opened Bytes
  import opened Model
  import opened Grants
  import opened Approval
  import opened ApprovalTrace
  import opened Runs

  /** Where the thread that holds the run lease is. */
  datatype Stage =
    | Reserved
    | Allowed
    | Contexted
    | Asking(id: Uid, asked: Ticket)
    | Ticketed(ticket: Ticket)
    | Ready      // a run without bindings that has passed its last access check
    | Running

  datatype Goal =
    | RevokeGrant(client: Client, secret: Secret)
    | RevokeSession(client: Client)
    | ManualLock(epoch: nat)
    | Other      // revoke all, cancel and wait, hard lock

  /** Before the block, waiting for the active run if it must, and holding the block. */
  datatype Hold = Outside | Blocking(mustWait: bool) | Holding

  datatype Snapshot = Snapshot(run: nat, token: Token, client: Client, ids: Option<seq<Secret>>)

  datatype AutoStage = Begun | Looked(seen: Option<Snapshot>) | Doomed(token: Token) | Checked | Passed

  datatype Thread = Blocker(goal: Goal, hold: Hold) | Auto(epoch: nat, stage: AutoStage)

  datatype System = System(
    w: World,
    board: Board<Token>,
    stage: Stage,
    run: nat,
    nextRun: nat,
    owner: Option<nat>,
    threads: map<nat, Thread>,
    manual: bool,         // the last app lock was a manual one
    lockStart: nat)       // where in the log it began

  datatype Step =
    | Env(section: Section)
    | CancelActive
    | Start(client: Client, token: Token)
    | Access
    | SetContext(ids: seq<Secret>)
    | Ask(request: Request)
    | Wait(timedOut: bool)
    | PlainCheck
    | LaunchPlain(spawned: bool)
    | LaunchBound(spawned: bool)
    | End
    | Enter(thread: nat, goal: Goal)
    | TakeBlockBy(thread: nat)
    | WaitOver(thread: nat)
    | Revoke(thread: nat)
    | FinishManual(thread: nat)
    | Release(thread: nat)
    | BeginManual(thread: nat)
    | BeginAuto(thread: nat)
    | LookActive(thread: nat)
    | CheckCovered(thread: nat)
    | KillSeen(thread: nat)
    | AutoWaitOver(thread: nat)
    | FinishAuto(thread: nat)

  const START: System := System(BEGINNING, Board(None, false), Reserved, 0, 0, None, map[], false, 0)

  // ----- steps -----

  /** Sections that any thread may run at any time. The others belong to the run, a revocation or a lock. */
  predicate Free(a: Section) {
    !(a.DoPublish? || a.DoPoll? || a.DoBeginLock? || a.DoFinishLock? || a.DoRevokePair? || a.DoRevokeClient?)
  }

  function Perform(s: System, a: Section, now: Time): System { s.(w := Next(s.w, a, now)) }

  function Note(s: System, e: Event): System { s.(w := s.w.(log := s.w.log + [e])) }

  function Ended(s: System): System { s.(board := EndRun(s.board)) }

  function Put(s: System, t: nat, thread: Thread): System { s.(threads := s.threads[t := thread]) }

  /** The active run this thread has to wait for. */
  predicate Hinders(goal: Goal, b: Board<Token>) {
    match goal
    case RevokeGrant(client, secret) => BoundTo(b, client, secret)
    case RevokeSession(client) => OfClient(b, client)
    case ManualLock(_) => b.active.Some?
    case Other => b.active.Some?
  }

  /** The active run is at this stage. */
  predicate At(s: System, stage: Stage) { s.board.active.Some? && s.stage == stage }

  predicate Enabled(s: System, step: Step) {
    match step
    case Env(section) => Free(section) && Possible(s.w, section)
    case CancelActive => s.board.active.Some?
    case Start(client, token) => TryStart(s.board, token, client).Ok?
    case Access => At(s, Reserved)
    case SetContext(ids) => At(s, Allowed)
    case Ask(request) =>
      && At(s, Contexted) && s.board.active.value.ids.Some?
      && request.client == s.board.active.value.client
      && request.secrets != []
      && (forall x :: x in request.secrets ==> x in s.board.active.value.ids.value)
      && (forall x :: x in s.board.active.value.ids.value ==> x in request.secrets)
    case Wait(_) => s.board.active.Some? && s.stage.Asking?
    case PlainCheck => At(s, Contexted) && s.board.active.value.ids == Some([])
    case LaunchPlain(_) => At(s, Ready)
    case LaunchBound(_) => s.board.active.Some? && s.stage.Ticketed?
    // A waiter leaves only by settling its request.
    case End => s.board.active.Some? && !s.stage.Asking?
    case Enter(t, goal) => t !in s.threads && !goal.ManualLock?
    case TakeBlockBy(t) => t in s.threads && s.threads[t].Blocker? && s.threads[t].hold.Outside? && !s.board.blockNew
    case WaitOver(t) =>
      && t in s.threads && s.threads[t].Blocker? && s.threads[t].hold.Blocking?
      && (s.threads[t].hold.mustWait ==> if s.threads[t].goal.RevokeSession? then !Hinders(s.threads[t].goal, s.board) else s.board.active.None?)
    case Revoke(t) =>
      t in s.threads && s.threads[t].Blocker? && s.threads[t].hold.Holding? && (s.threads[t].goal.RevokeGrant? || s.threads[t].goal.RevokeSession?)
    case FinishManual(t) => t in s.threads && s.threads[t].Blocker? && s.threads[t].hold.Holding? && s.threads[t].goal.ManualLock?
    case Release(t) => t in s.threads && s.threads[t].Blocker? && s.threads[t].hold.Holding?
    case BeginManual(t) => t !in s.threads
    case BeginAuto(t) => t !in s.threads
    case LookActive(t) => t in s.threads && s.threads[t].Auto? && s.threads[t].stage.Begun?
    case CheckCovered(t) => t in s.threads && s.threads[t].Auto? && s.threads[t].stage.Looked?
    case KillSeen(t) => t in s.threads && s.threads[t].Auto? && s.threads[t].stage.Doomed?
    case AutoWaitOver(t) =>
      && t in s.threads && s.threads[t].Auto? && s.threads[t].stage.Checked?
      && (s.board.active.Some? ==> s.board.active.value.token !in s.w.dead)
    case FinishAuto(t) => t in s.threads && s.threads[t].Auto? && s.threads[t].stage.Passed?
  }

  /** The child starts, or the run ends; `underLock` says that the check just made was one that only
      unattended grants pass. */
  function Launch(s: System, spawned: bool, underLock: bool): System
    requires s.board.active.Some? && s.board.active.value.ids.Some?
  {
    var active := s.board.active.value;
    match SpawnChild(s.board, active.token in s.w.dead, spawned)
    case Err(_) => Ended(s)
    case Ok(board) =>
      var s := if underLock then Note(s, Cleared(s.run, active.client, active.ids.value)) else s;
      Note(s.(board := board, stage := Running), Launched(active.client, active.ids.value))
  }

  /** `begin_app_lock` or `begin_auto_app_lock`. */
  function BeginAppLock(s: System, t: nat, preserve: bool, now: Time): System {
    var v := Perform(s, DoBeginLock(preserve), now);
    match BeginLock(s.w.s, now, preserve).1
    case Err(_) => v
    case Ok(epoch) =>
      Put(v.(manual := !preserve, lockStart := |s.w.log|), t, if preserve then Auto(epoch, Begun) else Blocker(ManualLock(epoch), Outside))
  }

  function Take(s: System, step: Step, now: Time): System
    requires Enabled(s, step)
  {
    match step
    case Env(section) => Perform(s, section, now)
    case CancelActive => Perform(s, DoCut(s.board.active.value.token), now)
    case Start(client, token) =>
      s.(board := TryStart(s.board, token, client).value, stage := Reserved, run := s.nextRun, nextRun := s.nextRun + 1)
    case Access =>
      var client := s.board.active.value.client;
      var v := Perform(s, DoRequireAccess(client), now);
      if RequireAccess(s.w.s, s.w.dead, now, client).1 then v.(stage := Allowed) else Ended(v)
    case SetContext(ids) =>
      (match SetSecretContext(s.board, ids)
       case Ok(board) => s.(board := board, stage := Contexted)
       case Err(_) => Ended(s))
    case Ask(request) =>
      var v := Perform(s, DoPublish(request), now);
      (match Publish(s.w.s, s.w.dead, now, request).1
       case Refused(_) => Ended(v)
       case Issued(ticket) => v.(stage := Ticketed(ticket))
       case Waiting(ticket) => v.(stage := Asking(request.id, ticket)))
    case Wait(timedOut) =>
      var a := DoPoll(s.stage.id, s.stage.asked, s.board.active.value.token, timedOut);
      var v := Perform(s, a, now);
      (match Poll(s.w.s, s.w.dead, now, a.id, a.ticket, a.token, timedOut).1
       case NotYet => v
       case Settled(r) => if r.Ok? then v.(stage := Ticketed(r.value)) else Ended(v))
    case PlainCheck =>
      var client := s.board.active.value.client;
      var v := Perform(s, DoRequireAccess(client), now);
      if !RequireAccess(s.w.s, s.w.dead, now, client).1 then Ended(v)
      else
        var v := if s.w.s.access.Active? then v else Note(v, Cleared(s.run, client, []));
        v.(stage := Ready)
    case LaunchPlain(spawned) => if s.board.active.value.ids.Some? then Launch(s, spawned, false) else Ended(s)
    case LaunchBound(spawned) =>
      var v := Perform(s, DoValid(s.stage.ticket), now);
      if Valid(s.w.s, s.w.dead, now, s.stage.ticket).1 && s.board.active.value.ids.Some? then Launch(v, spawned, !s.w.s.access.Active?)
      else Ended(v)
    case End => Ended(s)
    case Enter(t, goal) => Put(s, t, Blocker(goal, Outside))
    case TakeBlockBy(t) =>
      var goal := s.threads[t].goal;
      var v := if Hinders(goal, s.board) then Perform(s, DoCut(s.board.active.value.token), now) else s;
      Put(v.(board := TakeBlock(v.board), owner := Some(t)), t, Blocker(goal, Blocking(Hinders(goal, s.board))))
    case WaitOver(t) => Put(s, t, Blocker(s.threads[t].goal, Holding))
    case Revoke(t) =>
      var goal := s.threads[t].goal;
      if goal.RevokeGrant? then Perform(s, DoRevokePair(goal.client, goal.secret), now)
      else Perform(s, DoRevokeClient(goal.client), now)
    case FinishManual(t) => Perform(s, DoFinishLock(s.threads[t].goal.epoch), now)
    case Release(t) => s.(board := DropBlock(s.board), owner := None, threads := s.threads - {t})
    case BeginManual(t) => BeginAppLock(s, t, false, now)
    case BeginAuto(t) => BeginAppLock(s, t, true, now)
    case LookActive(t) =>
      var seen := if s.board.active.None? then None
                  else Some(Snapshot(s.run, s.board.active.value.token, s.board.active.value.client, s.board.active.value.ids));
      Put(s, t, Auto(s.threads[t].epoch, Looked(seen)))
    case CheckCovered(t) =>
      var epoch := s.threads[t].epoch;
      (match s.threads[t].stage.seen
       case None => Put(s, t, Auto(epoch, Checked))
       case Some(run) =>
         var ids := if run.ids.Some? then run.ids.value else [];
         var v := Perform(s, DoCovers(run.client, ids), now);
         if UnattendedCovers(s.w.s, s.w.dead, now, run.client, ids).1 then Put(Note(v, Cleared(run.run, run.client, ids)), t, Auto(epoch, Checked))
         else Put(v, t, Auto(epoch, Doomed(run.token))))
    case KillSeen(t) => Put(Perform(s, DoCut(s.threads[t].stage.token), now), t, Auto(s.threads[t].epoch, Checked))
    case AutoWaitOver(t) => Put(s, t, Auto(s.threads[t].epoch, Passed))
    case FinishAuto(t) =>
      var v := Perform(s, DoFinishLock(s.threads[t].epoch), now);
      v.(threads := v.threads - {t})
  }

  /** The one section of the approval state a step runs, if it runs one. */
  function SectionOf(s: System, step: Step): (r: Option<Section>)
    requires Enabled(s, step)
    ensures r.Some? ==> Possible(s.w, r.value)
  {
    match step
    case Env(section) => Some(section)
    case CancelActive => Some(DoCut(s.board.active.value.token))
    case Access => Some(DoRequireAccess(s.board.active.value.client))
    case Ask(request) => Some(DoPublish(request))
    case Wait(timedOut) => Some(DoPoll(s.stage.id, s.stage.asked, s.board.active.value.token, timedOut))
    case PlainCheck => Some(DoRequireAccess(s.board.active.value.client))
    case LaunchBound(_) => Some(DoValid(s.stage.ticket))
    case TakeBlockBy(t) => if Hinders(s.threads[t].goal, s.board) then Some(DoCut(s.board.active.value.token)) else None
    case Revoke(t) =>
      var goal := s.threads[t].goal;
      Some(if goal.RevokeGrant? then DoRevokePair(goal.client, goal.secret) else DoRevokeClient(goal.client))
    case FinishManual(t) => Some(DoFinishLock(s.threads[t].goal.epoch))
    case BeginManual(_) => Some(DoBeginLock(false))
    case BeginAuto(_) => Some(DoBeginLock(true))
    case CheckCovered(t) =>
      (match s.threads[t].stage.seen
       case None => None
       case Some(run) => Some(DoCovers(run.client, if run.ids.Some? then run.ids.value else [])))
    case KillSeen(t) => Some(DoCut(s.threads[t].stage.token))
    case FinishAuto(t) => Some(DoFinishLock(s.threads[t].epoch))
    case _ => None
  }

  /** The world after that section. */
  function Based(s: System, step: Step, now: Time): World
    requires Enabled(s, step)
  {
    match SectionOf(s, step)
    case Some(a) => Next(s.w, a, now)
    case None => s.w
  }

  /** These steps may also write that a run is cleared or launched. */
  predicate Notes(step: Step) { step.PlainCheck? || step.LaunchPlain? || step.LaunchBound? || step.CheckCovered? }

  /** A step changes the approval state and the tokens only by its section, and apart from the notes of a
      launch or a check it writes only what the section writes. */
  lemma TakeIsSection(s: System, step: Step, now: Time)
    requires Enabled(s, step)
    ensures TakesSection(s, step, now)
  {
    hide Enabled, TakesSection;
    if ByRun(step) { RunIsSection(s, step, now); } else { ThreadIsSection(s, step, now); }
  }

  ghost predicate TakesSection(s: System, step: Step, now: Time)
    requires Enabled(s, step)
  {
    var v := Take(s, step, now).w;
    && v.s == Based(s, step, now).s && v.dead == Based(s, step, now).dead && Based(s, step, now).log <= v.log
    && (!Notes(step) ==> v == Based(s, step, now))
  }

  /** Steps of the thread that holds the lease. */
  predicate ByRun(step: Step) {
    step.Start? || step.Access? || step.SetContext? || step.Ask? || step.Wait? || step.PlainCheck? || step.LaunchPlain? || step.LaunchBound? || step.End?
  }

  lemma RunIsSection(s: System, step: Step, now: Time)
    requires Enabled(s, step) && ByRun(step)
    ensures TakesSection(s, step, now)
  {
    hide Next, Publish, Poll, RequireAccess, Valid, Possible;
  }

  lemma ThreadIsSection(s: System, step: Step, now: Time)
    requires Enabled(s, step) && !ByRun(step)
    ensures TakesSection(s, step, now)
  {
    hide Next, UnattendedCovers, BeginLock, Possible, Hinders;
  }

  datatype Moment = Moment(step: Step, now: Time)

  predicate AllEnabled(s: System, moments: seq<Moment>)
    decreases |moments|
  {
    moments == [] || (Enabled(s, moments[0].step) && AllEnabled(Take(s, moments[0].step, moments[0].now), moments[1..]))
  }

  function Run(s: System, moments: seq<Moment>): System
    requires AllEnabled(s, moments)
    decreases |moments|
  {
    if moments == [] then s else Run(Take(s, moments[0].step, moments[0].now), moments[1..])
  }
}
