/**
 Whole runs of the vault controller over the two copies, with a power loss possible after every
 effect of every commit.

 Copies are stood for by the payload they open to; `Controller` shows that the real methods, over real
 files, take exactly these steps.
*/
module Persistence {
  import opened Bytes
  import opened Model
  import opened Codec
  import opened CodecProofs
  import opened Session
  import opened Store

  datatype Phase =
    | FirstRun
    | Locked
    | Recovery(primary: Option<Payload>, backup: Payload)
    | Unlocked(current: Payload)

  /** `acked` is what the user was last told is the vault, by a commit or by a session that opened;
      `committed` is what the last successful commit wrote. */
  datatype System = System(disk: Disk<Payload>, phase: Phase, acked: Option<Payload>, committed: Option<Payload>)

  /** A commit gets as far as its effect number `k`; it is acknowledged only when all four happened. */
  datatype Op =
    | Create(blank: Payload, k: nat, ok: bool)
    | Unlock
    | Restore(k: nat, ok: bool)
    | Continue
    | Change(edit: Edit, k: nat, ok: bool)
    | Lock
    | Misplaced   // a restore or a continue outside a recovery
    | Quit
    | PowerLoss(primary: Option<Payload>, backup: Option<Payload>)

  predicate CommitOk(k: nat, ok: bool) { k <= 4 && (ok ==> k == 4) }

  /** A new vault: revision 0 and no records. */
  ghost predicate Blank(nfc: Normalizer, p: Payload) {
    PayloadOk(nfc, p) && p.revision == 0 && p.records == []
  }

  /** What may happen next. A change must not take the vault over 10,000 records. */
  ghost predicate Legal(nfc: Normalizer, s: System, op: Op) {
    match op
    case Create(blank, k, ok) => s.phase.FirstRun? && Blank(nfc, blank) && CommitOk(k, ok)
    case Unlock => s.phase.Locked?
    case Restore(k, ok) => s.phase.Recovery? && CommitOk(k, ok)
    case Continue => s.phase.Recovery? && s.phase.primary.Some?
    case Change(edit, k, ok) =>
      && s.phase.Unlocked? && CommitOk(k, ok) && EditOk(nfc, s.phase.current, edit)
      && Edited(nfc, s.phase.current, edit).Ok? && |Edited(nfc, s.phase.current, edit).value.records| <= MAX_RECORDS
    case Lock => true
    case Misplaced => !s.phase.Recovery?
    case Quit => true
    case PowerLoss(p, b) => Possible(s.disk.primary, p) && Possible(s.disk.backup, b)
  }

  /** `VaultController::new` */
  function Started<T>(disk: Disk<T>): Phase {
    if Visible(disk.primary).Some? || Visible(disk.backup).Some? then Locked else FirstRun
  }

  /** The state after committing `v` from phase `failed`. */
  function Committed(s: System, v: Payload, k: nat, ok: bool, failed: Phase): System {
    if ok then System(Stage(s.disk, v, k), Unlocked(v), Some(v), Some(v))
    else s.(disk := Stage(s.disk, v, k), phase := failed)
  }

  function Begin(s: System, v: Payload): System { s.(phase := Unlocked(v), acked := Some(v)) }

  /** `VaultController::unlock` */
  function Opened(s: System): System {
    match (Visible(s.disk.primary), Visible(s.disk.backup))
    case (Some(p), Some(b)) =>
      if b.vaultId == p.vaultId && b.revision > p.revision then s.(phase := Recovery(Some(p), b)) else Begin(s, p)
    case (Some(p), None) => Begin(s, p)
    case (None, Some(b)) => s.(phase := Recovery(None, b))
    case (None, None) => s
  }

  ghost function Do(nfc: Normalizer, s: System, op: Op): System
    requires Legal(nfc, s, op)
  {
    match op
    case Create(blank, k, ok) => Committed(s, blank, k, ok, FirstRun)
    case Unlock => Opened(s)
    case Restore(k, ok) => Committed(s, s.phase.backup, k, ok, s.phase)
    case Continue => Begin(s, s.phase.primary.value)
    case Change(edit, k, ok) => Committed(s, Edited(nfc, s.phase.current, edit).value, k, ok, Locked)
    case Lock => if s.phase.FirstRun? then s else s.(phase := Locked)
    case Misplaced => s.(phase := Locked)
    case Quit => s.(phase := Started(s.disk))
    case PowerLoss(p, b) =>
      var disk := Disk(Slot(p, []), Slot(b, []));
      s.(disk := disk, phase := Started(disk))
  }

  /** `op` may happen in `s` and leads to `t`. */
  ghost predicate Steps(nfc: Normalizer, s: System, op: Op, t: System) {
    Legal(nfc, s, op) && t == Do(nfc, s, op)
  }

  const START: System := System(Disk(Slot(None, []), Slot(None, [])), FirstRun, None, None)

  ghost predicate AllLegal(nfc: Normalizer, s: System, ops: seq<Op>)
    decreases |ops|
  {
    ops == [] || (Legal(nfc, s, ops[0]) && AllLegal(nfc, Do(nfc, s, ops[0]), ops[1..]))
  }

  ghost function Run(nfc: Normalizer, s: System, ops: seq<Op>): System
    requires AllLegal(nfc, s, ops)
    decreases |ops|
  {
    if ops == [] then s else Run(nfc, Do(nfc, s, ops[0]), ops[1..])
  }

  // ----- whatever happens: nothing acknowledged by a commit is lost -----

  /** `q` comes from `p` by edits of a vault. */
  ghost predicate Chain(nfc: Normalizer, edits: seq<Edit>, p: Payload, q: Payload)
    decreases |edits|
  {
    if edits == [] then p == q
    else EditOk(nfc, p, edits[0]) && Edited(nfc, p, edits[0]).Ok? && Chain(nfc, edits[1..], Edited(nfc, p, edits[0]).value, q)
  }

  ghost predicate Descends(nfc: Normalizer, p: Payload, q: Payload) {
    exists edits :: Chain(nfc, edits, p, q)
  }

  lemma {:induction false} ChainExtends(nfc: Normalizer, edits: seq<Edit>, p: Payload, q: Payload, edit: Edit)
    requires Chain(nfc, edits, p, q) && EditOk(nfc, q, edit) && Edited(nfc, q, edit).Ok?
    ensures Chain(nfc, edits + [edit], p, Edited(nfc, q, edit).value)
    decreases |edits|
  {
    hide Edited, EditOk;
    if edits == [] {
      assert ([] + [edit])[1..] == [];
    } else {
      ChainExtends(nfc, edits[1..], Edited(nfc, p, edits[0]).value, q, edit);
      assert (edits + [edit])[1..] == edits[1..] + [edit];
    }
  }

  lemma DescendsStep(nfc: Normalizer, p: Payload, q: Payload, edit: Edit)
    requires Descends(nfc, p, q) && EditOk(nfc, q, edit) && Edited(nfc, q, edit).Ok?
    ensures Descends(nfc, p, Edited(nfc, q, edit).value)
  {
    hide Edited, EditOk, Chain;
    var edits :| Chain(nfc, edits, p, q);
    ChainExtends(nfc, edits, p, q, edit);
  }

  lemma DescendsRefl(nfc: Normalizer, p: Payload)
    ensures Descends(nfc, p, p)
  {
    assert Chain(nfc, [], p, p);
  }

  /** `q` may be stored or shown: a payload the decoder accepts, with everything committed in it. */
  ghost predicate Good(nfc: Normalizer, s: System, q: Payload) {
    && PayloadOk(nfc, q) && |q.records| <= MAX_RECORDS
    && (s.committed.Some? ==> Descends(nfc, s.committed.value, q))
    && (s.acked.None? ==> q.revision == 0 && q.records == [])
  }

  ghost predicate GoodPhase(nfc: Normalizer, s: System) {
    match s.phase
    case FirstRun => s.acked.None?
    case Locked => true
    case Recovery(p, b) => (p.Some? ==> Good(nfc, s, p.value) && s.disk.backup.durable.Some?) && Good(nfc, s, b)
    case Unlocked(v) => Good(nfc, s, v) && s.acked.Some?
  }

  /** The invariant of every run. */
  ghost predicate Safe(nfc: Normalizer, s: System) {
    && (forall q :: Holds(s.disk.primary, q) || Holds(s.disk.backup, q) ==> Good(nfc, s, q))
    && GoodPhase(nfc, s)
    && (s.committed.Some? ==> s.acked.Some? && s.disk.primary.durable.Some?)
    && (s.acked.Some? ==> s.disk.backup.durable.Some?)
    && ((exists q :: Holds(s.disk.primary, q)) ==> s.disk.backup.durable.Some?)
  }

  /** A commit of a good payload, successful or cut short, keeps the invariant. */
  lemma CommitKeeps(nfc: Normalizer, s: System, v: Payload, k: nat, ok: bool, failed: Phase)
    requires Safe(nfc, s) && Good(nfc, s, v) && CommitOk(k, ok) && GoodPhase(nfc, s.(phase := failed))
    ensures Safe(nfc, Committed(s, v, k, ok, failed))
  {
    hide PayloadOk, Descends, Stage, Holds;
    var t := Committed(s, v, k, ok, failed);
    DescendsRefl(nfc, v);
    forall q | Holds(t.disk.primary, q) || Holds(t.disk.backup, q) ensures Good(nfc, t, q) {
      StageHolds(s.disk, v, k, q);
    }
    CommitDurable(s.disk, v, k);
    if q :| Holds(t.disk.primary, q) {
      StageHolds(s.disk, v, k, q);
      assert t.disk.backup.durable.Some?;
    }
  }

  lemma CommitDurable(d: Disk<Payload>, v: Payload, k: nat)
    requires k <= 4
    ensures d.backup.durable.Some? || k >= 2 ==> Stage(d, v, k).backup.durable.Some?
    ensures d.primary.durable.Some? || k == 4 ==> Stage(d, v, k).primary.durable.Some?
  {}

  lemma EditIsGood(nfc: Normalizer, s: System, edit: Edit)
    requires IdealNormalizer(nfc) && Safe(nfc, s) && s.phase.Unlocked? && EditOk(nfc, s.phase.current, edit)
    requires Edited(nfc, s.phase.current, edit).Ok? && |Edited(nfc, s.phase.current, edit).value.records| <= MAX_RECORDS
    ensures Good(nfc, s, Edited(nfc, s.phase.current, edit).value)
  {
    hide PayloadOk, Descends, Edited, EditOk, IdealNormalizer, Holds;
    EditKeeps(nfc, s.phase.current, edit);
    if s.committed.Some? { DescendsStep(nfc, s.committed.value, s.phase.current, edit); }
  }

  lemma OpenedKeeps(nfc: Normalizer, s: System)
    requires Safe(nfc, s) && s.phase.Locked?
    ensures Safe(nfc, Opened(s))
  {
    hide PayloadOk, Descends, Holds;
    if Visible(s.disk.primary).Some? { VisibleHolds(s.disk.primary); }
    if Visible(s.disk.backup).Some? { VisibleHolds(s.disk.backup); }
  }

  lemma BlankIsGood(nfc: Normalizer, s: System, p: Payload)
    requires Safe(nfc, s) && s.phase.FirstRun? && Blank(nfc, p)
    ensures Good(nfc, s, p)
  {
    hide PayloadOk, Holds;
  }

  lemma PowerLossKeeps(nfc: Normalizer, s: System, p: Option<Payload>, b: Option<Payload>)
    requires Safe(nfc, s) && Legal(nfc, s, PowerLoss(p, b))
    ensures Safe(nfc, Do(nfc, s, PowerLoss(p, b)))
  {
    hide PayloadOk, Descends;
    var t := Do(nfc, s, PowerLoss(p, b));
    forall q | Holds(t.disk.primary, q) || Holds(t.disk.backup, q) ensures Good(nfc, t, q) {
      assert Holds(s.disk.primary, q) || Holds(s.disk.backup, q);
    }
    if p.Some? { assert Holds(s.disk.primary, p.value); }
  }

  lemma QuitKeeps(nfc: Normalizer, s: System)
    requires Safe(nfc, s)
    ensures Safe(nfc, Do(nfc, s, Quit))
  {
    hide PayloadOk, Descends;
  }

  lemma StepKeeps(nfc: Normalizer, s: System, op: Op)
    requires IdealNormalizer(nfc) && Safe(nfc, s) && Legal(nfc, s, op)
    ensures Safe(nfc, Do(nfc, s, op))
  {
    hide PayloadOk, Descends, Edited, EditOk, IdealNormalizer, Holds, Committed, Opened, Blank;
    match op
    case Create(blank, k, ok) =>
      BlankIsGood(nfc, s, blank);
      CommitKeeps(nfc, s, blank, k, ok, FirstRun);
    case Unlock => OpenedKeeps(nfc, s);
    case Restore(k, ok) => CommitKeeps(nfc, s, s.phase.backup, k, ok, s.phase);
    case Continue => ContinueKeeps(nfc, s);
    case Change(edit, k, ok) =>
      EditIsGood(nfc, s, edit);
      CommitKeeps(nfc, s, Edited(nfc, s.phase.current, edit).value, k, ok, Locked);
    case Lock =>
    case Misplaced =>
    case Quit => QuitKeeps(nfc, s);
    case PowerLoss(p, b) => PowerLossKeeps(nfc, s, p, b);
  }

  /** A primary was read when the recovery began, so the backup is durable. */
  lemma ContinueKeeps(nfc: Normalizer, s: System)
    requires Safe(nfc, s) && Legal(nfc, s, Continue)
    ensures Safe(nfc, Do(nfc, s, Continue))
  {
    hide PayloadOk, Descends, Holds;
  }

  lemma {:induction false} RunKeeps(nfc: Normalizer, s: System, ops: seq<Op>)
    requires IdealNormalizer(nfc) && Safe(nfc, s) && AllLegal(nfc, s, ops)
    ensures Safe(nfc, Run(nfc, s, ops))
    decreases |ops|
  {
    hide Safe, Legal, Do, IdealNormalizer;
    if ops != [] {
      StepKeeps(nfc, s, ops[0]);
      RunKeeps(nfc, Do(nfc, s, ops[0]), ops[1..]);
    }
  }

  /** Once a backup is durable it stays durable, whatever happens, and nothing is ever stored that the
      decoder would refuse or that lacks what was last committed. */
  lemma {:induction false} BackupStays(nfc: Normalizer, s: System, ops: seq<Op>)
    requires s.disk.backup.durable.Some? && AllLegal(nfc, s, ops)
    ensures Run(nfc, s, ops).disk.backup.durable.Some?
    decreases |ops|
  {
    hide Legal, Do;
    if ops != [] {
      StepKeepsBackup(nfc, s, ops[0]);
      BackupStays(nfc, Do(nfc, s, ops[0]), ops[1..]);
    }
  }

  lemma StepKeepsBackup(nfc: Normalizer, s: System, op: Op)
    requires s.disk.backup.durable.Some? && Legal(nfc, s, op)
    ensures Do(nfc, s, op).disk.backup.durable.Some?
  {
    hide PayloadOk, Edited, EditOk, Blank;
  }

  lemma StartIsSafe(nfc: Normalizer)
    ensures Safe(nfc, START)
  {
    hide PayloadOk, Descends;
  }

  /** In every run from an empty disk, with power lost at any moment: each copy that can be found
      afterwards opens and holds the last committed payload or something edited from it; and once the
      first commit has been acknowledged both copies are durable. */
  lemma NothingIsLost(nfc: Normalizer, ops: seq<Op>)
    requires IdealNormalizer(nfc) && AllLegal(nfc, START, ops)
    ensures var s := Run(nfc, START, ops);
            && (forall q :: Holds(s.disk.primary, q) || Holds(s.disk.backup, q) ==>
                 PayloadOk(nfc, q) && |q.records| <= MAX_RECORDS && (s.committed.Some? ==> Descends(nfc, s.committed.value, q)))
            && (s.committed.Some? ==> s.disk.primary.durable.Some? && s.disk.backup.durable.Some?)
  {
    hide PayloadOk, Descends, AllLegal, Run, Holds, IdealNormalizer;
    StartIsSafe(nfc);
    RunKeeps(nfc, START, ops);
  }

  // ----- what unlocking shows -----

  /** Unlocking never opens over a copy of the same vault that is newer: it shows the primary, offers a
      newer backup of the same vault first, and offers the backup when there is no primary. It fails only
      when no copy opens. */
  lemma UnlockShowsNewest(s: System)
    requires s.phase.Locked?
    ensures var t := Opened(s);
            var primary, backup := Visible(s.disk.primary), Visible(s.disk.backup);
            && t.disk == s.disk && t.committed == s.committed
            && (t.phase.Locked? <==> primary.None? && backup.None?)
            && (t.phase.Unlocked? ==>
                  && primary == Some(t.phase.current) && t.acked == primary
                  && (backup.Some? && backup.value.vaultId == t.phase.current.vaultId ==> backup.value.revision <= t.phase.current.revision))
            && (t.phase.Recovery? ==>
                  && backup == Some(t.phase.backup) && primary == t.phase.primary && t.acked == s.acked
                  && (primary.Some? ==> primary.value.vaultId == t.phase.backup.vaultId && primary.value.revision < t.phase.backup.revision))
            && !t.phase.FirstRun?
  {
    hide Visible;
  }

  /** The payload that a successful operation commits. */
  ghost function Commits(nfc: Normalizer, s: System, op: Op): Payload
    requires Legal(nfc, s, op) && (op.Create? || op.Restore? || op.Change?)
  {
    match op
    case Create(blank, _, _) => blank
    case Restore(_, _) => s.phase.backup
    case Change(edit, _, _) => Edited(nfc, s.phase.current, edit).value
  }

  /** A commit that was acknowledged is what the session goes on with, and what every unlock finds after
      it: after a lock, and after any power loss. */
  lemma CommitIsFinal(nfc: Normalizer, s: System, op: Op, p: Option<Payload>, b: Option<Payload>)
    requires Legal(nfc, s, op) && (op.Create? || op.Restore? || op.Change?) && op.ok
    ensures var v, t := Commits(nfc, s, op), Do(nfc, s, op);
            && t.phase == Unlocked(v) && t.acked == Some(v) && t.committed == Some(v)
            && Do(nfc, Do(nfc, t, Lock), Unlock).phase == Unlocked(v)
            && (Legal(nfc, t, PowerLoss(p, b)) ==> Do(nfc, Do(nfc, t, PowerLoss(p, b)), Unlock).phase == Unlocked(v))
  {
    hide PayloadOk, Edited, EditOk, Blank;
  }

  // ----- one process shows one payload at each revision -----

  /** What a process has shown, in order, and how its state relates to it: the visible primary is never
      below what was last shown, and nor is the primary a recovery still offers. */
  ghost predicate ShownSound(s: System, shown: seq<Payload>) {
    var primary := Visible(s.disk.primary);
    && Rising(shown)
    && (s.phase.FirstRun? ==> shown == [])
    && (shown != [] ==> primary.Some? && NotBelow(primary.value, shown[|shown| - 1]))
    && match s.phase
       case Unlocked(v) => shown != [] && shown[|shown| - 1] == v
       case Recovery(None, _) => shown == []
       case Recovery(Some(p), b) =>
         && b.revision > p.revision && primary.Some? && NotBelow(primary.value, p)
         && (shown != [] ==> NotBelow(p, shown[|shown| - 1]))
       case _ => true
  }

  /** A session that opens, or a commit that succeeds, shows its payload. */
  function NowShown(t: System, shown: seq<Payload>): seq<Payload> {
    if t.phase.Unlocked? then shown + [t.phase.current] else shown
  }

  predicate SameProcess(op: Op) { !op.Quit? && !op.PowerLoss? }

  lemma EditBumps(nfc: Normalizer, p: Payload, edit: Edit)
    requires Edited(nfc, p, edit).Ok?
    ensures Edited(nfc, p, edit).value.revision == p.revision + 1
  {
    hide FromParts, ParseName, NameTaken;
  }

  lemma RisingNext(shown: seq<Payload>, p: Payload)
    requires Rising(shown) && (shown != [] ==> NotBelow(p, shown[|shown| - 1]))
    ensures Rising(shown + [p])
  {}

  /** A commit of something later than all that was shown. */
  lemma CommitShows(s: System, v: Payload, k: nat, ok: bool, failed: Phase, shown: seq<Payload>)
    requires ShownSound(s, shown) && CommitOk(k, ok) && (shown != [] ==> NotBelow(v, shown[|shown| - 1]))
    requires failed == s.phase || failed.Locked?
    requires failed == s.phase ==> failed.FirstRun? || (failed.Recovery? && failed.backup == v)
    ensures ShownSound(Committed(s, v, k, ok, failed), NowShown(Committed(s, v, k, ok, failed), shown))
  {
    hide Stage, Visible, Rising;
    StageVisible(s.disk, v, k);
    RisingNext(shown, v);
  }

  lemma OpenedShows(s: System, shown: seq<Payload>)
    requires ShownSound(s, shown) && s.phase.Locked?
    ensures ShownSound(Opened(s), NowShown(Opened(s), shown))
  {
    hide Visible, Rising;
    if Visible(s.disk.primary).Some? { RisingNext(shown, Visible(s.disk.primary).value); }
  }

  lemma ContinueShows(nfc: Normalizer, s: System, shown: seq<Payload>)
    requires ShownSound(s, shown) && Legal(nfc, s, Continue)
    ensures var t := Do(nfc, s, Continue); ShownSound(t, NowShown(t, shown))
  {
    hide Visible, Rising;
    RisingNext(shown, s.phase.primary.value);
  }

  lemma StepShows(nfc: Normalizer, s: System, op: Op, shown: seq<Payload>)
    requires ShownSound(s, shown) && Legal(nfc, s, op) && SameProcess(op)
    ensures var t := Do(nfc, s, op); ShownSound(t, NowShown(t, shown))
  {
    hide PayloadOk, Edited, EditOk, Committed, Opened, Blank, Visible, Rising;
    match op
    case Create(blank, k, ok) => CommitShows(s, blank, k, ok, FirstRun, shown);
    case Unlock => OpenedShows(s, shown);
    case Restore(k, ok) => CommitShows(s, s.phase.backup, k, ok, s.phase, shown);
    case Continue => ContinueShows(nfc, s, shown);
    case Change(edit, k, ok) =>
      EditBumps(nfc, s.phase.current, edit);
      CommitShows(s, Edited(nfc, s.phase.current, edit).value, k, ok, Locked, shown);
    case Lock =>
    case Misplaced =>
  }

  lemma StepsShow(nfc: Normalizer, s: System, op: Op, t: System, shown: seq<Payload>)
    requires ShownSound(s, shown) && Steps(nfc, s, op, t) && SameProcess(op)
    ensures ShownSound(t, NowShown(t, shown))
  {
    hide ShownSound, Legal, Do;
    StepShows(nfc, s, op, shown);
  }

  predicate OneProcess(ops: seq<Op>) { forall i :: 0 <= i < |ops| ==> SameProcess(ops[i]) }

  /** Over a run of one process, `shown` only grows. */
  lemma {:induction false} RunShows(nfc: Normalizer, s: System, ops: seq<Op>, shown: seq<Payload>) returns (after: seq<Payload>)
    requires ShownSound(s, shown) && AllLegal(nfc, s, ops) && OneProcess(ops)
    ensures shown <= after && ShownSound(Run(nfc, s, ops), after)
    decreases |ops|
  {
    hide ShownSound, Legal, Do;
    after := shown;
    if ops != [] {
      var t := Do(nfc, s, ops[0]);
      StepShows(nfc, s, ops[0], shown);
      after := RunShows(nfc, t, ops[1..], NowShown(t, shown));
    }
  }

  /** From the start of a process, through any locks, unlocks, recoveries and failed commits but without a
      restart: two sessions, or two moments of one, that show the same revision show the same payload. */
  lemma SameRevisionSamePayload(nfc: Normalizer, s: System, before: seq<Op>, after: seq<Op>)
    requires s.phase == Started(s.disk)
    requires AllLegal(nfc, s, before) && OneProcess(before)
    requires AllLegal(nfc, Run(nfc, s, before), after) && OneProcess(after)
    ensures var u := Run(nfc, s, before);
            var v := Run(nfc, u, after);
            u.phase.Unlocked? && v.phase.Unlocked? && u.phase.current.revision == v.phase.current.revision ==>
              u.phase.current == v.phase.current
  {
    hide AllLegal, Run, Visible;
    var u := Run(nfc, s, before);
    var v := Run(nfc, u, after);
    var first := RunShows(nfc, s, before, []);
    var all := RunShows(nfc, u, after, first);
    if u.phase.Unlocked? && v.phase.Unlocked? && u.phase.current.revision == v.phase.current.revision {
      assert all[|first| - 1] == u.phase.current;
      assert |first| < |all| ==> NotBelow(all[|all| - 1], all[|first| - 1]);
    }
  }

  /** Once a session has shown a revision, the visible primary does not fall below it, and at that
      revision it is what was shown. */
  lemma PrimaryNeverFallsBelow(nfc: Normalizer, s: System, before: seq<Op>, after: seq<Op>)
    requires s.phase == Started(s.disk)
    requires AllLegal(nfc, s, before) && OneProcess(before)
    requires AllLegal(nfc, Run(nfc, s, before), after) && OneProcess(after)
    ensures var u := Run(nfc, s, before);
            var primary := Visible(Run(nfc, u, after).disk.primary);
            u.phase.Unlocked? ==> primary.Some? && NotBelow(primary.value, u.phase.current)
  {
    hide AllLegal, Run, Visible;
    var u := Run(nfc, s, before);
    var first := RunShows(nfc, s, before, []);
    var all := RunShows(nfc, u, after, first);
    if u.phase.Unlocked? {
      assert all[|first| - 1] == u.phase.current;
      assert |first| < |all| ==> NotBelow(all[|all| - 1], all[|first| - 1]);
    }
  }
}
