/**
 The gate between external locks and local operations of the window, and the requests to unlock it
 (agent_broker.rs, unlock_request.rs).

 A blocking call is cut into what it does once its wait is over. The u64 counter of cancellations is
 not taken to wrap.
*/
module UiGate {
  import opened Bytes
  import opened Model

  datatype Unlocking = Unlocking(id: nat, decision: Option<Result<()>>)

  datatype Gate = Gate(
    requested: nat, acknowledged: nat, ready: Option<nat>, localOperation: bool, connected: bool,
    slot: Option<Unlocking>, epoch: nat)

  const OPEN: Gate := Gate(0, 0, None, false, true, None, 0)

  predicate Outstanding(g: Gate) { g.requested > g.acknowledged }

  // ----- unlock requests -----

  /** `UnlockRequests::cancel` */
  function CancelUnlock(g: Gate): Gate {
    g.(epoch := g.epoch + 1,
       slot := if g.slot.Some? then Some(g.slot.value.(decision := Some(Err(ApprovalCancelled)))) else None)
  }

  /** `UnlockRequests::resolve` */
  function Resolve(g: Gate, id: nat, allow: bool): Result<Gate> {
    if g.slot.None? || g.slot.value.id != id || g.slot.value.decision.Some? then Err(InvalidRequest)
    else Ok(g.(slot := Some(Unlocking(id, Some(if allow then Ok(()) else Err(ApprovalDenied))))))
  }

  /** `UnlockRequests::wait`, up to where it starts to wait. */
  function Publish(g: Gate, epoch: nat, id: nat): Result<Gate> {
    if epoch != g.epoch then Err(ApprovalCancelled)
    else if g.slot.Some? then Err(Busy)
    else Ok(g.(slot := Some(Unlocking(id, None))))
  }

  /** One turn of its waiting loop: the answer, if there is one. */
  function Answer(g: Gate, cancelled: bool, timedOut: bool): Option<Result<()>> {
    if cancelled then Some(Err(ApprovalCancelled))
    else if timedOut then Some(Err(ApprovalTimeout))
    else if g.slot.Some? then g.slot.value.decision
    else None
  }

  // ----- external locks and local operations -----

  /** `begin_request` waits while this holds. */
  predicate BeginWaits(g: Gate) { (Outstanding(g) || g.localOperation) && g.connected }

  function BeginRequest(g: Gate): Result<Gate> {
    if !g.connected then Err(EndpointUnavailable)
    else if g.requested >= U64_MAX then Err(ProcessFailure)
    else Ok(CancelUnlock(g.(requested := g.requested + 1)))
  }

  /** `try_begin_local_operation`; `None` when an external lock is outstanding. */
  function TryBeginLocal(g: Gate): Result<Option<Gate>> {
    if !g.connected then Err(EndpointUnavailable)
    else if Outstanding(g) then Ok(None)
    else if g.localOperation then Err(Busy)
    else Ok(Some(g.(localOperation := true)))
  }

  /** The first section of `finish_request`. */
  function MakeReady(g: Gate, id: nat): Result<Gate> {
    if id != g.requested || id <= g.acknowledged then Err(InvalidRequest) else Ok(g.(ready := Some(id)))
  }

  /** Its second section: the outcome, once it no longer waits. */
  function Finished(g: Gate, id: nat): Option<Result<()>> {
    if g.acknowledged >= id then Some(Ok(()))
    else if !g.connected then Some(Err(EndpointUnavailable))
    else None
  }

  function Acknowledge(g: Gate, id: nat): Result<Gate> {
    if id != g.requested || g.ready != Some(id) || id <= g.acknowledged then Err(InvalidRequest)
    else Ok(g.(acknowledged := id, ready := None))
  }

  function Disconnect(g: Gate): Gate { CancelUnlock(g.(connected := false)) }

  // ----- the system: the gate, everyone waiting at it, and a log -----

  datatype Event = Silent | Began(request: nat) | Acked(request: nat) | UnlockCancelled | Allowed(id: nat)

  /** What cancels the unlock request: an external lock as it begins, the window going away, a hard lock. */
  predicate Cancelling(e: Event) { e.Began? || e.UnlockCancelled? }

  /** A caller of `await_local_unlock`, with the length of the log when it sampled the epoch and, once it
      has been answered Ok, when it took the answer. */
  datatype Waiter = Sampled(since: nat, epoch: nat) | Published(since: nat, id: nat) | Continued(since: nat, until: nat, id: nat) | Failed

  datatype System = System(g: Gate, handles: nat, waiters: map<nat, Waiter>, nextId: nat, log: seq<Event>)

  datatype Step =
    | Begin
    | BeginLocal
    | EndLocal
    | Ready(id: nat)
    | Ack(id: nat)
    | Cut
    | Decide(id: nat, allow: bool)
    | CancelAll
    | Sample(waiter: nat)
    | Ask(waiter: nat)
    | Turn(waiter: nat, cancelled: bool, timedOut: bool)

  const START: System := System(OPEN, 0, map[], 0, [])

  predicate Enabled(s: System, step: Step) {
    match step
    case Begin => !BeginWaits(s.g)
    case EndLocal => s.handles > 0
    case Sample(w) => w !in s.waiters
    case Ask(w) => w in s.waiters && s.waiters[w].Sampled?
    case Turn(w, _, _) => w in s.waiters && s.waiters[w].Published?
    case _ => true
  }

  function Wrote(s: System, g: Gate, e: Event): System { s.(g := g, log := s.log + [e]) }

  function Take(s: System, step: Step): System
    requires Enabled(s, step)
  {
    match step
    case Begin =>
      (match BeginRequest(s.g) case Ok(g) => Wrote(s, g, Began(g.requested)) case Err(_) => s)
    case BeginLocal =>
      var r := TryBeginLocal(s.g);
      if r.Ok? && r.value.Some? then s.(g := r.value.value, handles := s.handles + 1) else s
    case EndLocal => s.(g := s.g.(localOperation := false), handles := s.handles - 1)
    case Ready(id) => (match MakeReady(s.g, id) case Ok(g) => s.(g := g) case Err(_) => s)
    case Ack(id) => (match Acknowledge(s.g, id) case Ok(g) => Wrote(s, g, Acked(id)) case Err(_) => s)
    case Cut => Wrote(s, Disconnect(s.g), UnlockCancelled)
    case Decide(id, allow) =>
      (match Resolve(s.g, id, allow) case Ok(g) => Wrote(s, g, if allow then Allowed(id) else Silent) case Err(_) => s)
    case CancelAll => Wrote(s, CancelUnlock(s.g), UnlockCancelled)
    case Sample(w) => s.(waiters := s.waiters[w := Sampled(|s.log|, s.g.epoch)])
    case Ask(w) =>
      var since := s.waiters[w].since;
      (match Publish(s.g, s.waiters[w].epoch, s.nextId)
       case Ok(g) => s.(g := g, nextId := s.nextId + 1, waiters := s.waiters[w := Published(since, s.nextId)])
       case Err(_) => s.(waiters := s.waiters[w := Failed]))
    case Turn(w, cancelled, timedOut) =>
      var me := s.waiters[w];
      (match Answer(s.g, cancelled, timedOut)
       case None => s
       case Some(r) => s.(g := s.g.(slot := None), waiters := s.waiters[w := if r.Ok? then Continued(me.since, |s.log|, me.id) else Failed]))
  }

  // ----- what holds in every reachable state -----

  /** At most one external lock is outstanding, never beside a local operation, and only it can be ready. */
  predicate GateSound(g: Gate) {
    && g.acknowledged <= g.requested <= g.acknowledged + 1
    && (g.localOperation ==> !Outstanding(g))
    && (g.ready.Some? ==> Outstanding(g) && g.ready.value == g.requested)
  }

  function Cancels(log: seq<Event>): nat {
    if log == [] then 0 else Cancels(log[..|log| - 1]) + if Cancelling(log[|log| - 1]) then 1 else 0
  }

  predicate Undisturbed(log: seq<Event>, since: nat) { forall i :: since <= i < |log| ==> !Cancelling(log[i]) }

  predicate AllowedSince(log: seq<Event>, since: nat, id: nat) { exists i :: since <= i < |log| && log[i] == Allowed(id) }

  /** From its sample to the moment it took its answer, the waiter was allowed and nothing was cancelled. */
  predicate Earned(log: seq<Event>, since: nat, until: nat, id: nat) {
    since <= until <= |log| && Undisturbed(log[..until], since) && AllowedSince(log[..until], since, id)
  }

  /** The one request that is published belongs to one waiter. */
  ghost predicate WaiterSound(s: System, w: nat)
    requires w in s.waiters
  {
    match s.waiters[w]
    case Sampled(since, epoch) => since <= |s.log| && epoch == Cancels(s.log[..since])
    case Published(since, id) =>
      && since <= |s.log| && s.g.slot.Some? && s.g.slot.value.id == id
      && (s.g.slot.value.decision.None? ==> Undisturbed(s.log, since))
      && (s.g.slot.value.decision.Some? && s.g.slot.value.decision.value.Ok? ==> Undisturbed(s.log, since) && AllowedSince(s.log, since, id))
    case Continued(since, until, id) => Earned(s.log, since, until, id)
    case Failed => true
  }

  ghost predicate Sound(s: System) {
    && GateSound(s.g)
    && s.handles == (if s.g.localOperation then 1 else 0)
    && s.g.epoch == Cancels(s.log)
    && (forall w :: w in s.waiters ==> WaiterSound(s, w))
    && (forall w, v :: w in s.waiters && v in s.waiters && s.waiters[w].Published? && s.waiters[v].Published? ==> w == v)
    && (s.g.slot.Some? ==> exists w :: w in s.waiters && s.waiters[w].Published?)
    && (forall id :: 1 <= id <= s.g.acknowledged ==> Acked(id) in s.log)
  }

  lemma {:induction false} CancelsGrow(log: seq<Event>, n: nat)
    requires n <= |log|
    ensures Cancels(log[..n]) <= Cancels(log)
    ensures Cancels(log[..n]) == Cancels(log) ==> Undisturbed(log, n)
    decreases |log|
  {
    if n == |log| {
      assert log[..n] == log;
    } else {
      var m := |log| - 1;
      assert log[..m][..n] == log[..n];
      CancelsGrow(log[..m], n);
    }
  }

  lemma CancelsSnoc(log: seq<Event>, e: Event)
    ensures Cancels(log + [e]) == Cancels(log) + if Cancelling(e) then 1 else 0
  {
    assert (log + [e])[..|log|] == log;
  }

  /** A waiter that is not waiting keeps what is known about it as the log grows. */
  lemma WaiterGrows(s: System, t: System, w: nat, e: Event)
    requires w in s.waiters && WaiterSound(s, w) && t.waiters == s.waiters && t.log == s.log + [e]
    requires !s.waiters[w].Published?
    ensures WaiterSound(t, w)
  {
    hide Cancels, Undisturbed, AllowedSince;
    match s.waiters[w]
    case Sampled(since, epoch) => assert t.log[..since] == s.log[..since];
    case Continued(since, until, id) => assert t.log[..until] == s.log[..until];
    case Failed =>
    case Published(_, _) =>
  }

  lemma PublishedGrows(log: seq<Event>, e: Event, since: nat, id: nat)
    requires since <= |log|
    ensures Undisturbed(log, since) && !Cancelling(e) ==> Undisturbed(log + [e], since)
    ensures AllowedSince(log, since, id) || e == Allowed(id) ==> AllowedSince(log + [e], since, id)
  {
    if e == Allowed(id) {
      assert (log + [e])[|log|] == Allowed(id);
    } else if AllowedSince(log, since, id) {
      var i :| since <= i < |log| && log[i] == Allowed(id);
      assert (log + [e])[i] == Allowed(id);
    }
  }

  /** A step that writes one event and leaves the waiters alone. */
  lemma WroteKeeps(s: System, g: Gate, e: Event)
    requires Sound(s) && GateSound(g) && g.localOperation == s.g.localOperation
    requires g.epoch == s.g.epoch + (if Cancelling(e) then 1 else 0)
    requires g.acknowledged == s.g.acknowledged || (e == Acked(g.acknowledged) && g.acknowledged == s.g.acknowledged + 1)
    requires g.slot.Some? == s.g.slot.Some?
    requires g.slot.Some? ==>
               && g.slot.value.id == s.g.slot.value.id
               && if Cancelling(e) then g.slot.value.decision.Some? && g.slot.value.decision.value.Err?
                  else if g.slot == s.g.slot then true
                  else s.g.slot.value.decision.None? && g.slot.value.decision.Some? && (g.slot.value.decision.value.Ok? ==> e == Allowed(g.slot.value.id))
    ensures Sound(Wrote(s, g, e))
  {
    hide Cancels;
    var t := Wrote(s, g, e);
    CancelsSnoc(s.log, e);
    forall w | w in t.waiters ensures WaiterSound(t, w) {
      assert WaiterSound(s, w);
      if s.waiters[w].Published? {
        PublishedGrows(s.log, e, s.waiters[w].since, s.waiters[w].id);
      } else {
        WaiterGrows(s, t, w, e);
      }
    }
  }

  lemma SampleKeeps(s: System, w: nat)
    requires Sound(s) && Enabled(s, Sample(w))
    ensures Sound(Take(s, Sample(w)))
  {
    hide Cancels, Earned;
    var t := Take(s, Sample(w));
    assert s.log[..|s.log|] == s.log;
    forall v | v in t.waiters ensures WaiterSound(t, v) {
      if v != w { assert WaiterSound(s, v); }
    }
    if t.g.slot.Some? {
      var v :| v in s.waiters && s.waiters[v].Published?;
      assert v in t.waiters && t.waiters[v].Published?;
    }
  }

  lemma AskKeeps(s: System, w: nat)
    requires Sound(s) && Enabled(s, Ask(w))
    ensures Sound(Take(s, Ask(w)))
  {
    hide Cancels, Earned;
    var t := Take(s, Ask(w));
    assert WaiterSound(s, w);
    CancelsGrow(s.log, s.waiters[w].since);
    forall v | v in t.waiters ensures WaiterSound(t, v) {
      if v != w { assert WaiterSound(s, v); }
    }
    if t.g.slot.Some? {
      if s.g.slot.Some? {
        var v :| v in s.waiters && s.waiters[v].Published?;
        assert v in t.waiters && t.waiters[v].Published?;
      } else {
        assert w in t.waiters && t.waiters[w].Published?;
      }
    }
  }

  lemma TurnKeeps(s: System, w: nat, cancelled: bool, timedOut: bool)
    requires Sound(s) && Enabled(s, Turn(w, cancelled, timedOut))
    ensures Sound(Take(s, Turn(w, cancelled, timedOut)))
  {
    hide Cancels;
    var t := Take(s, Turn(w, cancelled, timedOut));
    assert WaiterSound(s, w);
    if Answer(s.g, cancelled, timedOut).None? {
      assert t == s;
      return;
    }
    var me, n := s.waiters[w], |s.log|;
    assert s.log[..n] == s.log;
    if Answer(s.g, cancelled, timedOut).value.Ok? {
      assert Earned(s.log, me.since, n, me.id);
    }
    hide Earned, Undisturbed, AllowedSince;
    forall v | v in t.waiters ensures WaiterSound(t, v) {
      assert WaiterSound(s, v);
      if v != w { assert t.waiters[v] == s.waiters[v] && !s.waiters[v].Published?; }
    }
  }

  lemma QuietKeeps(s: System, g: Gate, handles: nat)
    requires Sound(s) && GateSound(g) && g.slot == s.g.slot && g.epoch == s.g.epoch && g.acknowledged == s.g.acknowledged
    requires handles == if g.localOperation then 1 else 0
    ensures Sound(s.(g := g, handles := handles))
  {
    hide Cancels, Earned, Undisturbed, AllowedSince;
    var t := s.(g := g, handles := handles);
    forall v | v in t.waiters ensures WaiterSound(t, v) {
      assert WaiterSound(s, v);
    }
  }

  lemma TakeKeeps(s: System, step: Step)
    requires Sound(s) && Enabled(s, step)
    ensures Sound(Take(s, step))
  {
    hide Cancels, WaiterSound;
    match step
    case Begin =>
      if BeginRequest(s.g).Ok? {
        WroteKeeps(s, BeginRequest(s.g).value, Began(BeginRequest(s.g).value.requested));
      }
    case BeginLocal =>
      var r := TryBeginLocal(s.g);
      if r.Ok? && r.value.Some? { QuietKeeps(s, r.value.value, s.handles + 1); }
    case EndLocal => QuietKeeps(s, s.g.(localOperation := false), s.handles - 1);
    case Ready(id) => if MakeReady(s.g, id).Ok? { QuietKeeps(s, MakeReady(s.g, id).value, s.handles); }
    case Ack(id) => if Acknowledge(s.g, id).Ok? { WroteKeeps(s, Acknowledge(s.g, id).value, Acked(id)); }
    case Cut => WroteKeeps(s, Disconnect(s.g), UnlockCancelled);
    case Decide(id, allow) =>
      if Resolve(s.g, id, allow).Ok? { WroteKeeps(s, Resolve(s.g, id, allow).value, if allow then Allowed(id) else Silent); }
    case CancelAll => WroteKeeps(s, CancelUnlock(s.g), UnlockCancelled);
    case Sample(w) => SampleKeeps(s, w);
    case Ask(w) => AskKeeps(s, w);
    case Turn(w, cancelled, timedOut) => TurnKeeps(s, w, cancelled, timedOut);
  }

  predicate AllEnabled(s: System, steps: seq<Step>)
    decreases |steps|
  {
    steps == [] || (Enabled(s, steps[0]) && AllEnabled(Take(s, steps[0]), steps[1..]))
  }

  function Run(s: System, steps: seq<Step>): System
    requires AllEnabled(s, steps)
    decreases |steps|
  {
    if steps == [] then s else Run(Take(s, steps[0]), steps[1..])
  }

  lemma {:induction false} RunKeeps(s: System, steps: seq<Step>)
    requires Sound(s) && AllEnabled(s, steps)
    ensures Sound(Run(s, steps))
    decreases |steps|
  {
    hide Sound, Enabled, Take;
    if steps != [] {
      TakeKeeps(s, steps[0]);
      RunKeeps(Take(s, steps[0]), steps[1..]);
    }
  }

  lemma ReachableIsSound(steps: seq<Step>)
    requires AllEnabled(START, steps)
    ensures Sound(Run(START, steps))
  {
    hide AllEnabled, Run;
    RunKeeps(START, steps);
  }

  /** In every reachable state: `acknowledged <= requested <= acknowledged + 1`, no local operation beside
      an unacknowledged external lock, at most one local operation, and `ready` names only the
      outstanding request. */
  lemma GateIsExclusive(steps: seq<Step>)
    requires AllEnabled(START, steps)
    ensures GateSound(Run(START, steps).g) && Run(START, steps).handles <= 1
  {
    hide AllEnabled, Run, GateSound;
    ReachableIsSound(steps);
  }

  /** `finish_request` returns Ok only after the window acknowledged that very request. */
  lemma FinishedWasAcknowledged(steps: seq<Step>, id: nat)
    requires AllEnabled(START, steps) && id > 0 && Finished(Run(START, steps).g, id) == Some(Ok(()))
    ensures Acked(id) in Run(START, steps).log
  {
    hide AllEnabled, Run, GateSound;
    ReachableIsSound(steps);
  }

  /** The step in which a waiter takes the answer Ok, in any reachable state: its own request was allowed,
      and from its sample of the epoch up to this very step nothing was cancelled and no external lock
      began. So a decision already made does not survive a cancellation, however late the waiter looks. */
  lemma AnswerIsUndisturbed(steps: seq<Step>, w: nat, cancelled: bool, timedOut: bool)
    requires AllEnabled(START, steps) && Enabled(Run(START, steps), Turn(w, cancelled, timedOut))
    ensures var s := Run(START, steps);
            var me := s.waiters[w];
            var answered := Take(s, Turn(w, cancelled, timedOut)).waiters[w];
            answered.Continued? ==>
              && answered == Continued(me.since, |s.log|, me.id)
              && me.since <= |s.log| && Undisturbed(s.log, me.since) && AllowedSince(s.log, me.since, me.id)
              && forall i :: me.since <= i < |s.log| ==> !s.log[i].Began?
  {
    hide AllEnabled, Run, AllowedSince;
    ReachableIsSound(steps);
    assert WaiterSound(Run(START, steps), w);
  }

  /** An unlock wait was answered Ok only if its own request was allowed, and nothing was cancelled between
      its sample of the epoch and the moment it took the answer. */
  lemma ContinuedWasAllowed(steps: seq<Step>, w: nat)
    requires AllEnabled(START, steps) && w in Run(START, steps).waiters && Run(START, steps).waiters[w].Continued?
    ensures var s := Run(START, steps);
            var me := s.waiters[w];
            Earned(s.log, me.since, me.until, me.id)
  {
    hide AllEnabled, Run, Earned;
    ReachableIsSound(steps);
    assert WaiterSound(Run(START, steps), w);
  }

  /** An external lock cancels as it begins, so none began between a caller's sample of the epoch and the
      moment it took its answer: one that sampled before a lock began never continues. */
  lemma NoLockBeganMeanwhile(steps: seq<Step>, w: nat)
    requires AllEnabled(START, steps) && w in Run(START, steps).waiters && Run(START, steps).waiters[w].Continued?
    ensures var s := Run(START, steps);
            var me := s.waiters[w];
            me.since <= me.until <= |s.log| && forall i :: me.since <= i < me.until ==> !s.log[i].Began?
  {
    hide AllEnabled, Run, AllowedSince;
    ContinuedWasAllowed(steps, w);
    var s := Run(START, steps);
    var me := s.waiters[w];
    forall i | me.since <= i < me.until ensures !s.log[i].Began? { assert s.log[..me.until][i] == s.log[i]; }
  }

  // ----- what the gate lets through -----

  /** A request to unlock is published exactly when nothing was cancelled since the sample and none is
      pending; it is decided exactly once, by its own id; and what the waiter finds is that decision, unless
      it was cancelled since. */
  lemma UnlockExactly(g: Gate, epoch: nat, id: nat, allow: bool)
    ensures Publish(g, epoch, id).Ok? <==> epoch == g.epoch && g.slot.None?
    ensures Publish(g, epoch, id).Ok? ==> Publish(g, epoch, id).value == g.(slot := Some(Unlocking(id, None)))
    ensures Publish(g, epoch, id).Err? ==> Publish(g, epoch, id).error == if epoch != g.epoch then ApprovalCancelled else Busy
    ensures Resolve(g, id, allow).Ok? <==> g.slot == Some(Unlocking(id, None))
    ensures Resolve(g, id, allow).Ok? ==>
              var r := Resolve(g, id, allow).value;
              && r.(slot := g.slot) == g && r.slot.Some? && r.slot.value.id == id
              && Answer(r, false, false) == Some(if allow then Ok(()) else Err(ApprovalDenied))
              && Answer(CancelUnlock(r), false, false) == Some(Err(ApprovalCancelled))
    ensures Answer(g, true, false) == Some(Err(ApprovalCancelled)) && Answer(g, false, true) == Some(Err(ApprovalTimeout))
    ensures g.slot == Some(Unlocking(id, None)) ==> Answer(g, false, false) == None
  {
  }

  /** Whoever asks while no request is pending, and is allowed, goes on. */
  lemma UnlockGoesThrough(s: System, w: nat)
    requires s.g.slot.None? && w !in s.waiters
    ensures Enabled(s, Sample(w))
    ensures var s1 := Take(s, Sample(w));
            Enabled(s1, Ask(w)) &&
            var s2 := Take(s1, Ask(w));
            s2.waiters[w] == Published(|s.log|, s.nextId) &&
            var s3 := Take(s2, Decide(s.nextId, true));
            Enabled(s3, Turn(w, false, false)) &&
            var s4 := Take(s3, Turn(w, false, false));
            s4.waiters[w] == Continued(|s.log|, |s.log| + 1, s.nextId) && s4.g.slot.None?
  {
  }

  /** With the window there and nothing going on, an external lock begins, keeps local operations out until
      the window has acknowledged it, and is then finished. */
  lemma ExternalLockGoesThrough(s: System)
    requires GateSound(s.g) && !Outstanding(s.g) && !s.g.localOperation && s.g.connected && s.g.requested < U64_MAX
    ensures Enabled(s, Begin)
    ensures var id := s.g.requested + 1;
            var s1 := Take(s, Begin);
            s1.g.requested == id && TryBeginLocal(s1.g) == Ok(None) && BeginWaits(s1.g) && Finished(s1.g, id) == None &&
            var s2 := Take(s1, Ready(id));
            s2.g.ready == Some(id) && TryBeginLocal(s2.g) == Ok(None) &&
            var s3 := Take(s2, Ack(id));
            Finished(s3.g, id) == Some(Ok(())) && !Outstanding(s3.g) && TryBeginLocal(s3.g).Ok? && TryBeginLocal(s3.g).value.Some?
  {
  }

  /** With the window there and nothing going on, a local operation begins; until it ends there is no other
      one and an external lock waits. */
  lemma LocalOperationGoesThrough(s: System)
    requires !Outstanding(s.g) && !s.g.localOperation && s.g.connected
    ensures var s1 := Take(s, BeginLocal);
            s1.handles == s.handles + 1 && TryBeginLocal(s1.g) == Err(Busy) && !Enabled(s1, Begin) && Enabled(s1, EndLocal) &&
            var s2 := Take(s1, EndLocal);
            s2.g == s.g && s2.handles == s.handles && Enabled(s2, Begin)
  {
  }

  /** Without the window nobody waits in vain: an external lock and a local operation fail at once, and so
      does waiting for an acknowledgement that has not come. */
  lemma WithoutWindow(g: Gate, id: nat)
    ensures var d := Disconnect(g);
            && !BeginWaits(d) && BeginRequest(d) == Err(EndpointUnavailable) && TryBeginLocal(d) == Err(EndpointUnavailable)
            && Finished(d, id) == Some(if g.acknowledged >= id then Ok(()) else Err(EndpointUnavailable))
            && (g.slot.Some? ==> Answer(d, false, false) == Some(Err(ApprovalCancelled)))
  {
  }

  // ----- the objects -----

  class UnlockRequests {
    var slot: Option<Unlocking>
    var epoch: nat

    constructor ()
      ensures slot == None && epoch == 0
    {
      slot, epoch := None, 0;
    }

    method CancelRequests()
      modifies this
      ensures epoch == old(epoch) + 1
      ensures slot == if old(slot).Some? then Some(old(slot).value.(decision := Some(Err(ApprovalCancelled)))) else None
    {
      epoch := epoch + 1;
      if slot.Some? { slot := Some(slot.value.(decision := Some(Err(ApprovalCancelled)))); }
    }
  }

  class UiLockCoordinator {
    const unlockRequests: UnlockRequests
    var requested: nat
    var acknowledged: nat
    var ready: Option<nat>
    var localOperation: bool
    var connected: bool

    ghost function State(): Gate reads this, unlockRequests {
      Gate(requested, acknowledged, ready, localOperation, connected, unlockRequests.slot, unlockRequests.epoch)
    }

    constructor ()
      ensures State() == OPEN && fresh(unlockRequests)
    {
      unlockRequests := new UnlockRequests();
      requested, acknowledged, ready := 0, 0, None;
      localOperation, connected := false, true;
    }

    /** `begin_request`, once it no longer waits. */
    method BeginExternal() returns (r: Result<nat>)
      requires !BeginWaits(State())
      modifies this, unlockRequests
      ensures match BeginRequest(old(State()))
              case Ok(g) => r == Ok(g.requested) && State() == g
              case Err(e) => r == Err(e) && State() == old(State())
    {
      if !connected { return Err(EndpointUnavailable); }
      if requested >= U64_MAX { return Err(ProcessFailure); }
      requested := requested + 1;
      unlockRequests.CancelRequests();
      return Ok(requested);
    }

    /** `try_begin_local_operation` and, once it no longer waits, `wait_begin_local_operation`. */
    method BeginLocalOperation() returns (r: Result<bool>)
      modifies this
      ensures match TryBeginLocal(old(State()))
              case Err(e) => r == Err(e) && State() == old(State())
              case Ok(None) => r == Ok(false) && State() == old(State())
              case Ok(Some(g)) => r == Ok(true) && State() == g
    {
      if !connected { return Err(EndpointUnavailable); }
      if requested > acknowledged { return Ok(false); }
      if localOperation { return Err(Busy); }
      localOperation := true;
      return Ok(true);
    }

    method DropLocalOperation()
      modifies this
      ensures State() == old(State()).(localOperation := false)
    {
      localOperation := false;
    }

    method MarkReady(id: nat) returns (r: Result<()>)
      modifies this
      ensures match MakeReady(old(State()), id)
              case Ok(g) => r == Ok(()) && State() == g
              case Err(e) => r == Err(e) && State() == old(State())
    {
      if id != requested || id <= acknowledged { return Err(InvalidRequest); }
      ready := Some(id);
      return Ok(());
    }

    method PendingRequest() returns (r: Option<nat>)
      ensures GateSound(State()) ==> r == ready
    {
      return if ready == Some(requested) && requested > acknowledged then Some(requested) else None;
    }

    method AcknowledgeRequest(id: nat) returns (r: Result<()>)
      modifies this
      ensures match Acknowledge(old(State()), id)
              case Ok(g) => r == Ok(()) && State() == g
              case Err(e) => r == Err(e) && State() == old(State())
    {
      if id != requested || ready != Some(id) || id <= acknowledged { return Err(InvalidRequest); }
      acknowledged := id;
      ready := None;
      return Ok(());
    }

    method DisconnectWindow()
      modifies this, unlockRequests
      ensures State() == Disconnect(old(State()))
    {
      connected := false;
      unlockRequests.CancelRequests();
    }

    method ResolveUnlock(id: nat, allow: bool) returns (r: Result<()>)
      modifies unlockRequests
      ensures match Resolve(old(State()), id, allow)
              case Ok(g) => r == Ok(()) && State() == g
              case Err(e) => r == Err(e) && State() == old(State())
    {
      var current := unlockRequests.slot;
      if current.None? || current.value.id != id || current.value.decision.Some? { return Err(InvalidRequest); }
      unlockRequests.slot := Some(Unlocking(id, Some(if allow then Ok(()) else Err(ApprovalDenied))));
      return Ok(());
    }

    /** `wait`, up to where it starts to wait. */
    method PublishUnlock(epoch: nat, id: nat) returns (r: Result<()>)
      modifies unlockRequests
      ensures match Publish(old(State()), epoch, id)
              case Ok(g) => r == Ok(()) && State() == g
              case Err(e) => r == Err(e) && State() == old(State())
    {
      if epoch != unlockRequests.epoch { return Err(ApprovalCancelled); }
      if unlockRequests.slot.Some? { return Err(Busy); }
      unlockRequests.slot := Some(Unlocking(id, None));
      return Ok(());
    }

    /** One turn of its loop, and what follows the loop. */
    method TurnUnlock(cancelled: bool, timedOut: bool) returns (r: Option<Result<()>>)
      modifies unlockRequests
      ensures r == Answer(old(State()), cancelled, timedOut)
      ensures State() == if r.Some? then old(State()).(slot := None) else old(State())
    {
      if cancelled {
        r := Some(Err(ApprovalCancelled));
      } else if timedOut {
        r := Some(Err(ApprovalTimeout));
      } else if unlockRequests.slot.Some? {
        r := unlockRequests.slot.value.decision;
      } else {
        r := None;
      }
      if r.Some? { unlockRequests.slot := None; }
    }
  }
}
