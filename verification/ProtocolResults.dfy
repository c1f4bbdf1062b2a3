/** The promises of the protocol, for every run: revocations are final, locks hold. */
module ProtocolResults {
  import opened Bytes
  import opened Model
  import opened Grants
  import opened Approval
  import opened ApprovalTrace
  import opened Runs
  import opened Protocol
  import opened ProtocolSafety

  lemma StartIsSafe()
    ensures Safe(START)
  {
    hide Sound;
    BeginningIsSound();
  }

  lemma {:induction false} RunKeepsSafe(s: System, moments: seq<Protocol.Moment>)
    requires Safe(s) && AllEnabled(s, moments)
    ensures Safe(Protocol.Run(s, moments))
    decreases |moments|
  {
    hide Safe, Enabled, Take;
    if moments != [] {
      TakeKeeps(s, moments[0].step, moments[0].now);
      RunKeepsSafe(Take(s, moments[0].step, moments[0].now), moments[1..]);
    }
  }

  lemma ReachableIsSafe(moments: seq<Protocol.Moment>)
    requires AllEnabled(START, moments)
    ensures Safe(Protocol.Run(START, moments))
  {
    hide Safe, AllEnabled, Protocol.Run;
    StartIsSafe();
    RunKeepsSafe(START, moments);
  }

  // ----- revocation -----

  /** In every run, after each revocation of a pair (or of its client) a child bound to the pair runs, or
      was launched, only if somebody consented to that pair again in between. At the moment the
      revocation returns there has been no time for that, so none runs. */
  lemma RevocationIsFinal(moments: seq<Protocol.Moment>, p: Pair, r: nat)
    requires AllEnabled(START, moments)
    requires r < |Protocol.Run(START, moments).w.log| && Revoked(Protocol.Run(START, moments).w.log[r], p)
    ensures var s := Protocol.Run(START, moments);
            p in RunningPairs(s.board) ==> ConsentBetween(s.w.log, r, |s.w.log|, p)
    ensures var log := Protocol.Run(START, moments).w.log;
            forall l :: r < l < |log| && log[l].Launched? && log[l].client == p.0 && p.1 in log[l].secrets ==>
              ConsentBetween(log, r, l, p)
  {
    hide Protocol.Run, AllEnabled, Sound;
    ReachableIsSafe(moments);
    var s := Protocol.Run(START, moments);
    if p in RunningPairs(s.board) {
      assert Consent(s.w.log, p);
      ConsentAfter(s.w.log, r, p);
    }
    assert p == (p.0, p.1);
  }

  /** The step that revokes, in any reachable state. After that of `revoke_grant` no child bound to the
      pair runs, whether or not the run was caught before its secrets were known; after that of
      `revoke_session` the client has no run at all, bound to secrets or not. */
  lemma NothingRunsAtRevocation(moments: seq<Protocol.Moment>, t: nat, now: Time)
    requires AllEnabled(START, moments) && Enabled(Protocol.Run(START, moments), Revoke(t))
    ensures var s := Protocol.Run(START, moments);
            var v := Take(s, Revoke(t), now);
            s.threads[t].goal.RevokeGrant? ==> (s.threads[t].goal.client, s.threads[t].goal.secret) !in RunningPairs(v.board)
    ensures var s := Protocol.Run(START, moments);
            var v := Take(s, Revoke(t), now);
            s.threads[t].goal.RevokeSession? ==> !OfClient(v.board, s.threads[t].goal.client)
  {
    hide Protocol.Run, AllEnabled, Safe, Next;
    ReachableIsSafe(moments);
    OwnerIs(Protocol.Run(START, moments), t);
  }

  // ----- manual lock -----

  /** Once a manual lock has finished there is no grant, no child, and no run past its reservation. */
  lemma ManualLockIsComplete(moments: seq<Protocol.Moment>)
    requires AllEnabled(START, moments)
    ensures var s := Protocol.Run(START, moments);
            s.w.s.access.Locked? && s.manual ==>
              s.w.s.grants == map[] && RunningPairs(s.board) == {} && (s.board.active.Some? ==> s.stage.Reserved?)
  {
    hide Protocol.Run, AllEnabled, Sound;
    ReachableIsSafe(moments);
  }

  predicate Reopens(e: Event) { e.AppUnlocked? || e.VaultReset? }

  predicate LockedByHand(s: System) { s.w.s.access.Locked? && s.manual }

  /** Nothing from `n` on in the log reopens the app. */
  predicate StaysShut(log: seq<Event>, n: nat) { forall k :: n <= k < |log| ==> !Reopens(log[k]) }

  predicate NoLaunch(log: seq<Event>, n: nat) { forall k :: n <= k < |log| ==> !log[k].Launched? }

  lemma LockedSection(w: World, a: Section, now: Time)
    requires Sound(w) && Possible(w, a) && w.s.access.Locked?
    ensures var v := Next(w, a, now);
            && v.log == w.log + [SectionEvent(w, a, now)] && !SectionEvent(w, a, now).Launched?
            && (!Reopens(SectionEvent(w, a, now)) ==> v.s.access == w.s.access)
  {
    hide Sound, SectionEvent, SectionState, SectionDead, GrantsTame, PendingTame, SessionsTame, CountsTame;
    NextIsTame(w, a, now);
    EventKinds(w, a, now);
  }

  /** Nor does a new lock begin under a finished one, so it stays the manual one. */
  lemma StaysManual(s: System, step: Step, now: Time)
    requires Enabled(s, step) && s.w.s.access.Locked?
    ensures Take(s, step, now).manual == s.manual
  {
    hide Next, Publish, Poll, RequireAccess, Valid, UnattendedCovers, Possible, Hinders, Launch;
    if step.BeginManual? || step.BeginAuto? {
      assert BeginLock(s.w.s, now, step.BeginAuto?).1.Err?;
    } else {
      hide BeginLock, BeginAppLock;
      if ByRun(step) { RunKeepsManual(s, step, now); }
    }
  }

  lemma RunKeepsManual(s: System, step: Step, now: Time)
    requires Enabled(s, step) && ByRun(step)
    ensures Take(s, step, now).manual == s.manual
  {
    hide Next, Publish, Poll, RequireAccess, Valid, Possible;
  }

  /** From a finished manual lock no step launches a child, and the lock holds unless the step reopens it. */
  lemma LockedStep(s: System, step: Step, now: Time)
    requires Safe(s) && LockedByHand(s) && Enabled(s, step)
    ensures var v := Take(s, step, now);
            s.w.log <= v.w.log && NoLaunch(v.w.log, |s.w.log|) && (StaysShut(v.w.log, |s.w.log|) ==> LockedByHand(v))
  {
    hide Safe, Take, Next, SectionEvent, SectionOf, Possible, Sound;
    SafeParts(s);
    StaysManual(s, step, now);
    TakeIsSection(s, step, now);
    var v := Take(s, step, now);
    if step.CheckCovered? {
      CheckWrites(s, step.thread, now);
    } else if Notes(step) {
      // The run has not got past its reservation.
      assert false;
    }
    if SectionOf(s, step).Some? {
      var a := SectionOf(s, step).value;
      LockedSection(s.w, a, now);
      assert v.w.log[|s.w.log|] == SectionEvent(s.w, a, now);
    }
  }

  lemma CheckWrites(s: System, t: nat, now: Time)
    requires Enabled(s, CheckCovered(t))
    ensures var v := Take(s, CheckCovered(t), now).w.log;
            var base := Based(s, CheckCovered(t), now).log;
            forall k :: |base| <= k < |v| ==> v[k].Cleared?
  {
    hide Next, UnattendedCovers, Hinders;
  }

  /** Every launch from `n` on comes after something that reopened the app. */
  predicate LaunchesReopened(log: seq<Event>, n: nat) {
    forall l :: n <= l < |log| && log[l].Launched? ==> exists u :: n <= u < l && Reopens(log[u])
  }

  lemma {:induction false} LockHolds(s: System, moments: seq<Protocol.Moment>)
    requires Safe(s) && LockedByHand(s) && AllEnabled(s, moments)
    ensures s.w.log <= Protocol.Run(s, moments).w.log && LaunchesReopened(Protocol.Run(s, moments).w.log, |s.w.log|)
    decreases |moments|
  {
    hide Safe, Enabled, Take, Reopens, LockedByHand;
    if moments != [] {
      var m := moments[0];
      var u := Take(s, m.step, m.now);
      var v := Protocol.Run(u, moments[1..]);
      LockedStep(s, m.step, m.now);
      TakeKeeps(s, m.step, m.now);
      LaterLog(u, moments[1..]);
      if StaysShut(u.w.log, |s.w.log|) { LockHolds(u, moments[1..]); }
      forall l | |s.w.log| <= l < |u.w.log| ensures !v.w.log[l].Launched? { assert u.w.log[l] == v.w.log[l]; }
      forall l | |s.w.log| <= l < |v.w.log| && v.w.log[l].Launched? ensures exists k :: |s.w.log| <= k < l && Reopens(v.w.log[k]) {
        if !StaysShut(u.w.log, |s.w.log|) {
          var k :| |s.w.log| <= k < |u.w.log| && Reopens(u.w.log[k]);
          assert u.w.log[k] == v.w.log[k];
        }
      }
    }
  }

  lemma StepLog(s: System, step: Step, now: Time)
    requires Enabled(s, step)
    ensures s.w.log <= Take(s, step, now).w.log
  {
    hide Enabled, Take, Next;
    TakeIsSection(s, step, now);
    if SectionOf(s, step).Some? { NextLog(s.w, SectionOf(s, step).value, now); }
  }

  lemma {:induction false} LaterLog(s: System, moments: seq<Protocol.Moment>)
    requires AllEnabled(s, moments)
    ensures s.w.log <= Protocol.Run(s, moments).w.log
    decreases |moments|
  {
    hide Enabled, Take;
    if moments != [] {
      StepLog(s, moments[0].step, moments[0].now);
      LaterLog(Take(s, moments[0].step, moments[0].now), moments[1..]);
    }
  }

  /** After a manual lock has finished, no child is launched until the app is unlocked or the vault lock
      is reset, however the steps of a run and the steps of the lock fell before. */
  lemma NoLaunchUntilUnlock(before: seq<Protocol.Moment>, after: seq<Protocol.Moment>)
    requires AllEnabled(START, before) && LockedByHand(Protocol.Run(START, before))
    requires AllEnabled(Protocol.Run(START, before), after)
    ensures var s := Protocol.Run(START, before);
            var v := Protocol.Run(s, after);
            s.w.log <= v.w.log && LaunchesReopened(v.w.log, |s.w.log|)
  {
    hide Protocol.Run, AllEnabled, Safe, LockedByHand;
    ReachableIsSafe(before);
    LockHolds(Protocol.Run(START, before), after);
  }

  // ----- automatic lock -----

  /** While the app is not active every grant is unattended and a pending request is already cancelled. */
  lemma OnlyUnattendedUnderLock(moments: seq<Protocol.Moment>)
    requires AllEnabled(START, moments)
    ensures LockedSound(Protocol.Run(START, moments).w.s)
  {
    hide Protocol.Run, AllEnabled, LockedSound;
    ReachableIsSafe(moments);
    SoundLocks(Protocol.Run(START, moments).w);
  }

  /** Step `m` of the run wrote entry `k` of the log, having just found that the unattended grants of a
      connected client cover these secrets. */
  ghost predicate CoveredAt(s: System, moments: seq<Protocol.Moment>, m: nat, k: nat, client: Client, ids: seq<Secret>)
    requires AllEnabled(s, moments)
  {
    && m < |moments| && AllEnabled(s, moments[..m]) && AllEnabled(s, moments[..m + 1])
    && var u := Protocol.Run(s, moments[..m]);
       && |u.w.log| <= k < |Protocol.Run(s, moments[..m + 1]).w.log|
       && client !in Disconnected(u.w.s, u.w.dead) && Covered(Gone(u.w.s, u.w.dead), client, ids, moments[m].now)
  }

  /** A step writes that a run is cleared only when a check just found it covered. */
  lemma ClearedIsCovered(s: System, step: Step, now: Time, run: nat, client: Client, ids: seq<Secret>, k: nat)
    requires Safe(s) && Enabled(s, step)
    requires |s.w.log| <= k < |Take(s, step, now).w.log| && Take(s, step, now).w.log[k] == Cleared(run, client, ids)
    ensures client !in Disconnected(s.w.s, s.w.dead) && Covered(Gone(s.w.s, s.w.dead), client, ids, now)
  {
    hide Safe, Enabled, Take, Gone, Covered, Disconnected;
    match step
    case PlainCheck => PlainCheckClears(s, now, run, client, ids, k);
    case LaunchBound(spawned) => LaunchClears(s, spawned, now, run, client, ids, k);
    case CheckCovered(t) => CheckClears(s, t, now, run, client, ids, k);
    case _ => NotCleared(s, step, now, k);
  }

  lemma PlainCheckClears(s: System, now: Time, run: nat, client: Client, ids: seq<Secret>, k: nat)
    requires Enabled(s, PlainCheck)
    requires |s.w.log| <= k < |Take(s, PlainCheck, now).w.log| && Take(s, PlainCheck, now).w.log[k] == Cleared(run, client, ids)
    ensures client !in Disconnected(s.w.s, s.w.dead) && Covered(Gone(s.w.s, s.w.dead), client, ids, now)
  {
    hide Next, SectionEvent, Gone, Covered, RequireAccess, Disconnected;
    var a := DoRequireAccess(s.board.active.value.client);
    NextLog(s.w, a, now);
    EventKinds(s.w, a, now);
    if RequireAccess(s.w.s, s.w.dead, now, s.board.active.value.client).1 && !s.w.s.access.Active? {
      PlainAccessCovers(s.w, now, s.board.active.value.client);
    }
  }

  lemma LaunchClears(s: System, spawned: bool, now: Time, run: nat, client: Client, ids: seq<Secret>, k: nat)
    requires Safe(s) && Enabled(s, LaunchBound(spawned))
    requires |s.w.log| <= k < |Take(s, LaunchBound(spawned), now).w.log| && Take(s, LaunchBound(spawned), now).w.log[k] == Cleared(run, client, ids)
    ensures client !in Disconnected(s.w.s, s.w.dead) && Covered(Gone(s.w.s, s.w.dead), client, ids, now)
  {
    hide Safe, Sound, Next, SectionEvent, Gone, Covered, Valid, Disconnected, Fits;
    SafeParts(s);
    var kept := s.stage.ticket;
    NextLog(s.w, DoValid(kept), now);
    EventKinds(s.w, DoValid(kept), now);
    if Valid(s.w.s, s.w.dead, now, kept).1 && !s.w.s.access.Active? {
      ValidIsGranted(s.w.s, s.w.dead, now, kept);
      SameCover(Gone(s.w.s, s.w.dead), kept, s.board.active.value, now);
      CoveredIsConnected(s.w.s, s.w.dead, now, kept.client, kept.secrets);
      FitsClient(kept, s.board.active.value);
    }
  }

  lemma FitsClient(k: Ticket, a: ActiveRun<Token>)
    requires Fits(k, a)
    ensures k.client == a.client
  {}

  lemma CheckClears(s: System, t: nat, now: Time, run: nat, client: Client, ids: seq<Secret>, k: nat)
    requires Enabled(s, CheckCovered(t))
    requires |s.w.log| <= k < |Take(s, CheckCovered(t), now).w.log| && Take(s, CheckCovered(t), now).w.log[k] == Cleared(run, client, ids)
    ensures client !in Disconnected(s.w.s, s.w.dead) && Covered(Gone(s.w.s, s.w.dead), client, ids, now)
  {
    hide Next, SectionEvent, Gone, Covered, UnattendedCovers, Disconnected;
    if s.threads[t].stage.seen.Some? {
      var seen := s.threads[t].stage.seen.value;
      var asked := if seen.ids.Some? then seen.ids.value else [];
      NextLog(s.w, DoCovers(seen.client, asked), now);
      EventKinds(s.w, DoCovers(seen.client, asked), now);
      if UnattendedCovers(s.w.s, s.w.dead, now, seen.client, asked).1 { CoversMeans(s.w.s, s.w.dead, now, seen.client, asked); }
    }
  }

  lemma NotCleared(s: System, step: Step, now: Time, k: nat)
    requires Enabled(s, step) && !step.PlainCheck? && !step.LaunchBound? && !step.CheckCovered?
    requires |s.w.log| <= k < |Take(s, step, now).w.log|
    ensures !Take(s, step, now).w.log[k].Cleared?
  {
    if step.LaunchPlain? {
      hide Next;
    } else {
      hide Enabled, Take, Next, SectionEvent;
      TakeIsSection(s, step, now);
      if SectionOf(s, step).Some? {
        var a := SectionOf(s, step).value;
        NextLog(s.w, a, now);
        EventKinds(s.w, a, now);
      }
    }
  }

  lemma CoveredIsConnected(s: State, dead: set<Token>, now: Time, client: Client, ids: seq<Secret>)
    requires Covered(Gone(s, dead), client, ids, now)
    ensures client !in Disconnected(s, dead)
  {
    hide Live, HasUnattendedIn, MissingUnattendedIn;
  }

  lemma PlainAccessCovers(w: World, now: Time, client: Client)
    requires RequireAccess(w.s, w.dead, now, client).1 && !w.s.access.Active?
    ensures Covered(Gone(w.s, w.dead), client, [], now) && client !in Disconnected(w.s, w.dead)
  {
    hide Live;
    CoveredIsConnected(w.s, w.dead, now, client, []);
  }

  lemma CoversMeans(s: State, dead: set<Token>, now: Time, client: Client, ids: seq<Secret>)
    requires UnattendedCovers(s, dead, now, client, ids).1
    ensures Covered(Gone(s, dead), client, ids, now) && client !in Disconnected(s, dead)
  {
    CoveredIsConnected(s, dead, now, client, ids);
  }

  lemma SameCover(s: State, k: Ticket, a: ActiveRun<Token>, now: Time)
    requires Fits(k, a) && Covered(s, k.client, k.secrets, now)
    ensures Covered(s, a.client, a.ids.value, now)
  {
    hide Purge, HasUnattendedIn;
    assert MissingUnattendedIn(Purge(s.grants, now), a.client, a.ids.value) <= MissingUnattendedIn(Purge(s.grants, now), k.client, k.secrets);
  }

  /** A run is its first step and then the rest of it. */
  lemma RunFrom(s: System, moments: seq<Protocol.Moment>, n: nat)
    requires AllEnabled(s, moments) && 0 < n <= |moments|
    ensures var v := Take(s, moments[0].step, moments[0].now);
            AllEnabled(v, moments[1..][..n - 1]) ==>
              AllEnabled(s, moments[..n]) && Protocol.Run(s, moments[..n]) == Protocol.Run(v, moments[1..][..n - 1])
  {
    hide Enabled, Take;
    assert moments[..n][1..] == moments[1..][..n - 1] && moments[..n][0] == moments[0];
  }

  lemma {:induction false} ClearedWasCovered(s: System, moments: seq<Protocol.Moment>, run: nat, client: Client, ids: seq<Secret>, k: nat)
    requires Safe(s) && AllEnabled(s, moments)
    requires |s.w.log| <= k < |Protocol.Run(s, moments).w.log| && Protocol.Run(s, moments).w.log[k] == Cleared(run, client, ids)
    ensures exists m: nat :: CoveredAt(s, moments, m, k, client, ids)
    decreases |moments|
  {
    hide Safe, Enabled, Take, Covered, Gone, Disconnected;
    var m := moments[0];
    var v, rest := Take(s, m.step, m.now), moments[1..];
    LaterLog(v, rest);
    if k < |v.w.log| {
      ClearedIsCovered(s, m.step, m.now, run, client, ids, k);
      assert moments[..0] == [] && rest[..0] == [];
      RunFrom(s, moments, 1);
      assert CoveredAt(s, moments, 0, k, client, ids);
    } else {
      TakeKeeps(s, m.step, m.now);
      ClearedWasCovered(v, rest, run, client, ids, k);
      var n: nat :| CoveredAt(v, rest, n, k, client, ids);
      RunFrom(s, moments, n + 1);
      RunFrom(s, moments, n + 2);
      assert CoveredAt(s, moments, n + 1, k, client, ids);
    }
  }

  /** The run was cleared for all it is bound to by entry `k` of the log, written at step `m`. */
  ghost predicate ClearedSince(moments: seq<Protocol.Moment>, k: nat, m: nat)
    requires AllEnabled(START, moments)
  {
    var s := Protocol.Run(START, moments);
    ClearedAt(s, k) && CoveredAt(START, moments, m, k, s.board.active.value.client, s.board.active.value.ids.value)
  }

  /** When an automatic lock is complete, a child that runs belongs to a client that was connected, and
      whose unattended grants covered everything the child is bound to, at a check made since the lock
      began: the lock's own, or the one before the child's launch. */
  lemma AutoLockSparesOnlyCovered(moments: seq<Protocol.Moment>)
    requires AllEnabled(START, moments)
    ensures var s := Protocol.Run(START, moments);
            s.w.s.access.Locked? && !s.manual && s.board.active.Some? && s.stage.Running? ==>
              exists k: nat, m: nat :: s.lockStart <= k && ClearedSince(moments, k, m)
  {
    hide Protocol.Run, AllEnabled, Sound, CoveredAt, LaunchesSound;
    ReachableIsSafe(moments);
    StartIsSafe();
    var s := Protocol.Run(START, moments);
    if s.w.s.access.Locked? && !s.manual && s.board.active.Some? && s.stage.Running? {
      assert !Risky(s);
      var k: nat :| ClearedAt(s, k);
      var a := s.board.active.value;
      ClearedWasCovered(START, moments, s.run, a.client, a.ids.value, k);
      var m: nat :| CoveredAt(START, moments, m, k, a.client, a.ids.value);
      assert ClearedSince(moments, k, m);
    }
  }
}
