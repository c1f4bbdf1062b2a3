/**
 How far apart the two copies can be: when the backup is never behind the primary, and when each copy
 is the acknowledged payload or one edit ahead of it.

 Neither holds of every run. Each is proved for the runs that keep its guard, and where the guard is
 broken a run is given in which it fails.
*/
module CopyOrder {
  import opened Bytes
  import opened Utf8
  import opened Model
  import opened Codec
  import opened CodecProofs
  import opened Session
  import opened Store
  import opened Persistence

  // ----- the backup is never behind the primary -----

  /** No primary copy that can be found is newer than a backup copy that can be found. */
  ghost predicate InOrder(d: Disk<Payload>) {
    forall x, y :: Holds(d.primary, x) && Holds(d.backup, y) ==> x.revision <= y.revision
  }

  /** What holds of `InOrder` runs between steps. */
  ghost predicate Ranked(s: System) {
    && InOrder(s.disk)
    && (forall x :: Holds(s.disk.primary, x) ==> Visible(s.disk.primary).Some? && x.revision <= Visible(s.disk.primary).value.revision)
    && (s.phase.Unlocked? ==> Visible(s.disk.primary) == Some(s.phase.current))
    && (s.phase.Recovery? ==> Visible(s.disk.backup) == Some(s.phase.backup))
  }

  /** A recovery continues with the primary only while that primary is still what is on disk: no
      failed restore has renamed the backup over it. */
  ghost predicate Guarded(s: System, op: Op) {
    op.Continue? && s.phase.Recovery? ==> Visible(s.disk.primary) == s.phase.primary
  }

  ghost predicate AllGuarded(nfc: Normalizer, s: System, ops: seq<Op>)
    requires AllLegal(nfc, s, ops)
    decreases |ops|
  {
    ops == [] || (Guarded(s, ops[0]) && AllGuarded(nfc, Do(nfc, s, ops[0]), ops[1..]))
  }

  /** Committing a payload at least as new as every primary copy keeps the order at every stage. */
  lemma CommitKeepsOrder(s: System, v: Payload, k: nat, ok: bool, failed: Phase)
    requires Ranked(s) && CommitOk(k, ok)
    requires forall x :: Holds(s.disk.primary, x) ==> x.revision <= v.revision
    requires failed.FirstRun? || failed.Locked? || (failed.Recovery? && failed.backup == v && Visible(s.disk.backup) == Some(v))
    ensures Ranked(Committed(s, v, k, ok, failed))
  {
    hide Stage, Holds, Visible;
    var t := Committed(s, v, k, ok, failed);
    StageVisible(s.disk, v, k);
    forall x | Holds(t.disk.primary, x)
      ensures Visible(t.disk.primary).Some? && x.revision <= Visible(t.disk.primary).value.revision
      ensures forall y :: Holds(t.disk.backup, y) ==> x.revision <= y.revision
    {
      StageHolds(s.disk, v, k, x);
      forall y | Holds(t.disk.backup, y) ensures x.revision <= y.revision { StageHolds(s.disk, v, k, y); }
    }
  }

  lemma OpenedKeepsOrder(s: System)
    requires Ranked(s) && s.phase.Locked?
    ensures Ranked(Opened(s))
  {
    hide Holds, Visible;
  }

  lemma ResetKeepsOrder(nfc: Normalizer, s: System, op: Op)
    requires Ranked(s) && Legal(nfc, s, op) && (op.Quit? || op.PowerLoss?)
    ensures Ranked(Do(nfc, s, op))
  {
    var t := Do(nfc, s, op);
    forall x | Holds(t.disk.primary, x) ensures Holds(s.disk.primary, x) {}
    forall x | Holds(t.disk.backup, x) ensures Holds(s.disk.backup, x) {}
  }

  /** A payload shown as the backup of a recovery is at least as new as every primary copy. */
  lemma RestoredIsNewest(s: System)
    requires Ranked(s) && s.phase.Recovery?
    ensures forall x :: Holds(s.disk.primary, x) ==> x.revision <= s.phase.backup.revision
  {
    VisibleHolds(s.disk.backup);
  }

  lemma BlanksOnly(nfc: Normalizer, s: System)
    requires Safe(nfc, s) && s.phase.FirstRun?
    ensures forall x :: Holds(s.disk.primary, x) || Holds(s.disk.backup, x) ==> x.revision == 0 && x.records == []
  {
    hide PayloadOk, Descends;
  }

  lemma StepKeepsOrder(nfc: Normalizer, s: System, op: Op)
    requires IdealNormalizer(nfc) && Safe(nfc, s) && Ranked(s) && Legal(nfc, s, op) && Guarded(s, op)
    ensures Ranked(Do(nfc, s, op))
  {
    hide PayloadOk, Descends, Edited, EditOk, IdealNormalizer, Holds, Committed, Opened, Visible, Good, InOrder;
    match op
    case Create(blank, k, ok) =>
      BlanksOnly(nfc, s);
      CommitKeepsOrder(s, blank, k, ok, FirstRun);
    case Unlock => OpenedKeepsOrder(s);
    case Restore(k, ok) =>
      RestoredIsNewest(s);
      CommitKeepsOrder(s, s.phase.backup, k, ok, s.phase);
    case Continue =>
    case Change(edit, k, ok) =>
      UnlockedIsGood(nfc, s);
      EditKeeps(nfc, s.phase.current, edit);
      CommitKeepsOrder(s, Edited(nfc, s.phase.current, edit).value, k, ok, Locked);
    case Lock =>
    case Misplaced =>
    case Quit => ResetKeepsOrder(nfc, s, op);
    case PowerLoss(p, b) => ResetKeepsOrder(nfc, s, op);
  }

  lemma UnlockedIsGood(nfc: Normalizer, s: System)
    requires Safe(nfc, s) && s.phase.Unlocked?
    ensures PayloadOk(nfc, s.phase.current)
  {
    hide PayloadOk, Descends, Holds;
  }

  lemma {:induction false} RunKeepsOrder(nfc: Normalizer, s: System, ops: seq<Op>)
    requires IdealNormalizer(nfc) && Safe(nfc, s) && Ranked(s) && AllLegal(nfc, s, ops) && AllGuarded(nfc, s, ops)
    ensures Ranked(Run(nfc, s, ops))
    decreases |ops|
  {
    hide Safe, Ranked, Legal, Do, Guarded, IdealNormalizer;
    if ops != [] {
      StepKeeps(nfc, s, ops[0]);
      StepKeepsOrder(nfc, s, ops[0]);
      RunKeepsOrder(nfc, Do(nfc, s, ops[0]), ops[1..]);
    }
  }

  /** In every guarded run the backup is never behind the primary, wherever power is lost. */
  lemma BackupIsNeverBehind(nfc: Normalizer, ops: seq<Op>)
    requires IdealNormalizer(nfc) && AllLegal(nfc, START, ops) && AllGuarded(nfc, START, ops)
    ensures InOrder(Run(nfc, START, ops).disk)
  {
    hide AllLegal, AllGuarded, Run, InOrder, IdealNormalizer;
    StartIsSafe(nfc);
    StartIsRanked();
    RunKeepsOrder(nfc, START, ops);
  }

  lemma StartIsRanked()
    ensures Ranked(START)
  {}

  /** Without the guard: a change keeps the order, wherever its commit is cut short, exactly when no
      primary copy is more than one revision ahead of the payload being changed. */
  lemma ChangeKeepsOrderExactly(nfc: Normalizer, s: System, edit: Edit)
    requires IdealNormalizer(nfc) && Safe(nfc, s) && InOrder(s.disk) && s.phase.Unlocked?
    requires EditOk(nfc, s.phase.current, edit) && Edited(nfc, s.phase.current, edit).Ok?
    ensures (forall k {:trigger Stage(s.disk, Edited(nfc, s.phase.current, edit).value, k)} :: 0 <= k <= 4 ==> InOrder(Stage(s.disk, Edited(nfc, s.phase.current, edit).value, k)))
       <==> forall x :: Holds(s.disk.primary, x) ==> x.revision <= s.phase.current.revision + 1
  {
    hide PayloadOk, Descends, Edited, EditOk, IdealNormalizer, Stage, Good, Visible, Holds;
    var v := Edited(nfc, s.phase.current, edit).value;
    UnlockedIsGood(nfc, s);
    EditKeeps(nfc, s.phase.current, edit);
    if forall x :: Holds(s.disk.primary, x) ==> x.revision <= v.revision {
      forall k | 0 <= k <= 4 ensures InOrder(Stage(s.disk, v, k)) {
        forall x, y | Holds(Stage(s.disk, v, k).primary, x) && Holds(Stage(s.disk, v, k).backup, y) ensures x.revision <= y.revision {
          StageHolds(s.disk, v, k, x);
          StageHolds(s.disk, v, k, y);
        }
      }
    } else {
      FirstStage(s.disk, v);
      assert Stage(s.disk, v, 1).primary == s.disk.primary && Holds(Stage(s.disk, v, 1).backup, v);
      assert !InOrder(Stage(s.disk, v, 1));
    }
  }

  lemma FirstStage(d: Disk<Payload>, v: Payload)
    ensures Stage(d, v, 1).primary == d.primary && Holds(Stage(d, v, 1).backup, v)
  {}

  lemma RunStep(nfc: Normalizer, s: System, op: Op, t: System, ops: seq<Op>)
    requires Legal(nfc, s, op) && Do(nfc, s, op) == t && AllLegal(nfc, t, ops)
    ensures AllLegal(nfc, s, [op] + ops) && Run(nfc, s, [op] + ops) == Run(nfc, t, ops)
  {
    hide Legal, Do;
    assert ([op] + ops)[1..] == ops;
  }

  /** One edit of `p` gives `q`. */
  ghost predicate EditGives(nfc: Normalizer, p: Payload, edit: Edit, q: Payload) {
    && PayloadOk(nfc, p) && EditOk(nfc, p, edit) && Edited(nfc, p, edit) == Ok(q) && |q.records| <= MAX_RECORDS
  }

  lemma GivenIsNext(nfc: Normalizer, p: Payload, edit: Edit, q: Payload)
    requires IdealNormalizer(nfc) && EditGives(nfc, p, edit, q)
    ensures PayloadOk(nfc, q) && q.revision == p.revision + 1 && q.vaultId == p.vaultId
  {
    hide PayloadOk, Edited, EditOk, IdealNormalizer;
    EditKeeps(nfc, p, edit);
  }

  function UnguardedRun(b0: Payload, b2: Payload, e1: Edit, e2: Edit, e3: Edit): seq<Op> {
    [Create(b0, 4, true)] + ([Change(e1, 3, false)] + ([Op.Unlock] + ([Change(e2, 1, false)] + ([PowerLoss(Some(b0), Some(b2))]
    + ([Op.Unlock] + ([Restore(3, false)] + ([Continue] + ([Change(e3, 1, false)] + []))))))))
  }

  /** A sync fails, the user unlocks and edits on, power is lost, a restore fails in its last sync, and
      the user continues with the primary: the backup is then behind the primary. So it goes for every
      new vault and any three edits. */
  lemma UnguardedRunBreaksOrder(nfc: Normalizer, b0: Payload, b1: Payload, b2: Payload, b3: Payload, e1: Edit, e2: Edit, e3: Edit)
    requires IdealNormalizer(nfc) && Blank(nfc, b0)
    requires EditGives(nfc, b0, e1, b1) && EditGives(nfc, b1, e2, b2) && EditGives(nfc, b0, e3, b3)
    ensures AllLegal(nfc, START, UnguardedRun(b0, b2, e1, e2, e3))
    ensures !InOrder(Run(nfc, START, UnguardedRun(b0, b2, e1, e2, e3)).disk)
  {
    hide PayloadOk, Edited, EditOk, IdealNormalizer, AllLegal, Run;
    GivenIsNext(nfc, b0, e1, b1);
    GivenIsNext(nfc, b1, e2, b2);
    GivenIsNext(nfc, b0, e3, b3);
    var one, two := Slot(Some(b1), []), Slot(Some(b2), []);
    var s1 := System(Disk(Slot(Some(b0), []), Slot(Some(b0), [])), Unlocked(b0), Some(b0), Some(b0));
    var s2 := s1.(disk := Disk(Slot(Some(b0), [b1]), one), phase := Locked);
    var s3 := s2.(phase := Unlocked(b1), acked := Some(b1));
    var s4 := s3.(disk := Disk(Slot(Some(b0), [b1]), Slot(Some(b1), [b2])), phase := Locked);
    var s5 := s4.(disk := Disk(Slot(Some(b0), []), two));
    var s6 := s5.(phase := Recovery(Some(b0), b2));
    var s7 := s6.(disk := Disk(Slot(Some(b0), [b2]), two));
    var s8 := s7.(phase := Unlocked(b0), acked := Some(b0));
    var s9 := s8.(disk := Disk(Slot(Some(b0), [b2]), Slot(Some(b2), [b3])), phase := Locked);
    RunEnds(nfc, s9);
    RunStep(nfc, s8, Change(e3, 1, false), s9, []);
    RunStep(nfc, s7, Continue, s8, [Change(e3, 1, false)] + []);
    RunStep(nfc, s6, Restore(3, false), s7, [Continue] + ([Change(e3, 1, false)] + []));
    var tail := [Restore(3, false)] + ([Continue] + ([Change(e3, 1, false)] + []));
    RunStep(nfc, s5, Op.Unlock, s6, tail);
    RunStep(nfc, s4, PowerLoss(Some(b0), Some(b2)), s5, [Op.Unlock] + tail);
    var later := [PowerLoss(Some(b0), Some(b2))] + ([Op.Unlock] + tail);
    RunStep(nfc, s3, Change(e2, 1, false), s4, later);
    RunStep(nfc, s2, Op.Unlock, s3, [Change(e2, 1, false)] + later);
    RunStep(nfc, s1, Change(e1, 3, false), s2, [Op.Unlock] + ([Change(e2, 1, false)] + later));
    RunStep(nfc, START, Create(b0, 4, true), s1, [Change(e1, 3, false)] + ([Op.Unlock] + ([Change(e2, 1, false)] + later)));
    assert Holds(s9.disk.primary, b2) && Holds(s9.disk.backup, b3);
  }

  lemma RunEnds(nfc: Normalizer, s: System)
    ensures AllLegal(nfc, s, []) && Run(nfc, s, []) == s
  {}

  // ----- each copy is the acknowledged payload or one edit ahead of it -----

  ghost predicate Succeeds(nfc: Normalizer, a: Payload, q: Payload) {
    exists edit :: EditGives(nfc, a, edit, q)
  }

  /** The acknowledged payload, one edit further, or the empty vault of a creation that failed before
      anything was acknowledged. */
  ghost predicate Near(nfc: Normalizer, a: Payload, q: Payload) {
    q == a || Succeeds(nfc, a, q) || (a.revision == 0 && q.revision == 0 && q.records == [])
  }

  /** Every copy that can be found is near the acknowledged payload. */
  ghost predicate Within(nfc: Normalizer, s: System) {
    s.acked.Some? ==> forall q :: Holds(s.disk.primary, q) || Holds(s.disk.backup, q) ==> Near(nfc, s.acked.value, q)
  }

  /** Whatever becomes of the primary, it is `v`. */
  ghost predicate Firm(s: Slot<Payload>, v: Payload) {
    s.durable.Some? && forall x :: Holds(s, x) ==> x == v
  }

  /** A session that starts without a commit starts over a primary that is firmly its payload: no
      rename of the primary is still unsynced. */
  ghost predicate Settled(s: System, op: Op) {
    && (op.Unlock? && s.phase.Locked? && Opened(s).phase.Unlocked? ==> Firm(s.disk.primary, Opened(s).phase.current))
    && (op.Continue? && s.phase.Recovery? && s.phase.primary.Some? ==> Firm(s.disk.primary, s.phase.primary.value))
  }

  ghost predicate AllSettled(nfc: Normalizer, s: System, ops: seq<Op>)
    requires AllLegal(nfc, s, ops)
    decreases |ops|
  {
    ops == [] || (Settled(s, ops[0]) && AllSettled(nfc, Do(nfc, s, ops[0]), ops[1..]))
  }

  /** A primary ahead of the acknowledged payload is what every backup copy is. */
  ghost predicate Led(d: Disk<Payload>, a: Payload) {
    forall x, y :: Holds(d.primary, x) && x != a && Holds(d.backup, y) ==> y == x
  }

  ghost predicate AheadOnly(nfc: Normalizer, s: Slot<Payload>, a: Payload) {
    forall x :: Holds(s, x) ==> x == a || Succeeds(nfc, a, x)
  }

  ghost predicate NearOnly(nfc: Normalizer, s: Slot<Payload>, a: Payload) {
    forall x :: Holds(s, x) ==> Near(nfc, a, x)
  }

  /** What holds of settled runs between steps, `a` being the acknowledged payload. */
  ghost predicate Close(nfc: Normalizer, s: System, a: Payload) {
    && AheadOnly(nfc, s.disk.primary, a) && NearOnly(nfc, s.disk.backup, a) && Led(s.disk, a)
    && s.disk.primary.durable.Some?
    && (s.phase.Unlocked? ==> s.phase.current == a && Firm(s.disk.primary, a))
    && (s.phase.Recovery? ==> s.phase.primary == Some(a) && Succeeds(nfc, a, s.phase.backup) && Visible(s.disk.backup) == Some(s.phase.backup))
  }

  ghost predicate Tight(nfc: Normalizer, s: System) {
    && (s.acked.Some? ==> Close(nfc, s, s.acked.value))
    && (s.acked.None? && s.phase.Recovery? ==> s.phase.primary.None?)
  }

  lemma TightIsWithin(nfc: Normalizer, s: System)
    requires Tight(nfc, s)
    ensures Within(nfc, s)
  {
    hide Succeeds, Holds;
  }

  /** A commit of a successor of the acknowledged payload that is cut short. */
  lemma CutShortKeepsClose(nfc: Normalizer, s: System, a: Payload, v: Payload, k: nat, failed: Phase)
    requires k <= 4 && Close(nfc, s, a) && Succeeds(nfc, a, v)
    requires failed.Locked? || (failed.Recovery? && failed == s.phase && failed.backup == v)
    requires forall x :: Holds(s.disk.primary, x) && x != a ==> x == v
    ensures Close(nfc, Committed(s, v, k, false, failed), a)
  {
    hide Succeeds, Stage, Holds, Visible;
    var t := Committed(s, v, k, false, failed);
    StageVisible(s.disk, v, k);
    CommitDurable(s.disk, v, k);
    forall x | Holds(t.disk.primary, x) ensures x == a || x == v { StageHolds(s.disk, v, k, x); }
    forall x | Holds(t.disk.backup, x) ensures Near(nfc, a, x) { StageHolds(s.disk, v, k, x); }
    forall x, y | Holds(t.disk.primary, x) && x != a && Holds(t.disk.backup, y) ensures y == x {
      StageHolds(s.disk, v, k, x);
      StageHolds(s.disk, v, k, y);
    }
  }

  lemma AllFour(nfc: Normalizer, s: System, v: Payload, failed: Phase)
    ensures Tight(nfc, Committed(s, v, 4, true, failed))
  {
    hide EditGives;
  }

  lemma ResetKeepsClose(nfc: Normalizer, s: System, op: Op)
    requires Tight(nfc, s) && Legal(nfc, s, op) && (op.Quit? || op.PowerLoss?)
    ensures Tight(nfc, Do(nfc, s, op))
  {
    hide Succeeds;
    var t := Do(nfc, s, op);
    forall x | Holds(t.disk.primary, x) ensures Holds(s.disk.primary, x) {}
    forall x | Holds(t.disk.backup, x) ensures Holds(s.disk.backup, x) {}
  }

  lemma SuccessorIsNext(nfc: Normalizer, a: Payload, q: Payload)
    requires IdealNormalizer(nfc) && Succeeds(nfc, a, q)
    ensures q.revision == a.revision + 1 && q.vaultId == a.vaultId && q != a
  {
    hide EditGives, IdealNormalizer;
    var edit :| EditGives(nfc, a, edit, q);
    GivenIsNext(nfc, a, edit, q);
  }

  /** Opening over a firm primary. */
  lemma OpenedKeepsClose(nfc: Normalizer, s: System)
    requires IdealNormalizer(nfc) && Safe(nfc, s) && Tight(nfc, s) && s.phase.Locked? && Settled(s, Op.Unlock)
    ensures Tight(nfc, Opened(s))
  {
    hide Succeeds, Holds, Visible, IdealNormalizer, PayloadOk, Descends;
    var t := Opened(s);
    if Visible(s.disk.primary).Some? { VisibleHolds(s.disk.primary); }
    if Visible(s.disk.backup).Some? { VisibleHolds(s.disk.backup); }
    if s.acked.Some? {
      var a := s.acked.value;
      DurableIsVisible(s.disk.primary);
      var p := Visible(s.disk.primary).value;
      if p != a { SuccessorIsNext(nfc, a, p); }
      if t.phase.Recovery? {
        var b := t.phase.backup;
        assert p == a;
      } else if p != a {
        assert forall y :: Holds(s.disk.backup, y) ==> y == p;
      }
    }
  }

  lemma DurableIsVisible(s: Slot<Payload>)
    requires s.durable.Some?
    ensures Visible(s).Some?
  {}

  lemma ChangeKeepsClose(nfc: Normalizer, s: System, edit: Edit, k: nat, ok: bool)
    requires IdealNormalizer(nfc) && Safe(nfc, s) && Tight(nfc, s) && Legal(nfc, s, Change(edit, k, ok))
    ensures Tight(nfc, Do(nfc, s, Change(edit, k, ok)))
  {
    hide PayloadOk, Descends, Edited, EditOk, IdealNormalizer, Holds, Committed;
    var v := Edited(nfc, s.phase.current, edit).value;
    UnlockedIsGood(nfc, s);
    assert EditGives(nfc, s.phase.current, edit, v);
    if ok {
      AllFour(nfc, s, v, Locked);
    } else {
      assert s.acked.Some?;
      var a := s.acked.value;
      assert Succeeds(nfc, a, v);
      hide Succeeds;
      CutShortKeepsClose(nfc, s, a, v, k, Locked);
      CommittedAcked(s, v, k, Locked);
    }
  }

  lemma CommittedAcked(s: System, v: Payload, k: nat, failed: Phase)
    ensures Committed(s, v, k, false, failed).acked == s.acked && Committed(s, v, k, false, failed).phase == failed
  {}

  lemma RestoreKeepsClose(nfc: Normalizer, s: System, k: nat, ok: bool)
    requires Tight(nfc, s) && Legal(nfc, s, Restore(k, ok))
    ensures Tight(nfc, Do(nfc, s, Restore(k, ok)))
  {
    hide Succeeds, Holds, Committed, Visible;
    var v := s.phase.backup;
    if ok {
      AllFour(nfc, s, v, s.phase);
    } else {
      CommittedAcked(s, v, k, s.phase);
      if s.acked.Some? {
        VisibleHolds(s.disk.backup);
        CutShortKeepsClose(nfc, s, s.acked.value, v, k, s.phase);
      }
    }
  }

  lemma StepKeepsClose(nfc: Normalizer, s: System, op: Op)
    requires IdealNormalizer(nfc) && Safe(nfc, s) && Tight(nfc, s) && Legal(nfc, s, op) && Settled(s, op)
    ensures Tight(nfc, Do(nfc, s, op))
  {
    hide PayloadOk, Descends, Succeeds, Edited, EditOk, IdealNormalizer, Holds, Committed, Opened, Good, Close, Visible;
    match op
    case Create(blank, k, ok) =>
      if ok { AllFour(nfc, s, blank, FirstRun); } else { CommittedAcked(s, blank, k, FirstRun); }
    case Unlock => OpenedKeepsClose(nfc, s);
    case Restore(k, ok) => RestoreKeepsClose(nfc, s, k, ok);
    case Continue => ContinueKeepsClose(nfc, s);
    case Change(edit, k, ok) => ChangeKeepsClose(nfc, s, edit, k, ok);
    case Lock => LockKeepsClose(nfc, s);
    case Misplaced => MisplacedKeepsClose(nfc, s);
    case Quit => ResetKeepsClose(nfc, s, op);
    case PowerLoss(p, b) => ResetKeepsClose(nfc, s, op);
  }

  lemma ContinueKeepsClose(nfc: Normalizer, s: System)
    requires Tight(nfc, s) && Legal(nfc, s, Continue) && Settled(s, Continue)
    ensures Tight(nfc, Do(nfc, s, Continue))
  {
    hide Succeeds, Holds;
  }

  lemma LockKeepsClose(nfc: Normalizer, s: System)
    requires Tight(nfc, s)
    ensures Tight(nfc, Do(nfc, s, Lock))
  {
    hide Succeeds, Holds;
  }

  lemma MisplacedKeepsClose(nfc: Normalizer, s: System)
    requires Tight(nfc, s) && Legal(nfc, s, Misplaced)
    ensures Tight(nfc, Do(nfc, s, Misplaced))
  {
    hide Succeeds, Holds;
  }

  lemma {:induction false} RunKeepsClose(nfc: Normalizer, s: System, ops: seq<Op>)
    requires IdealNormalizer(nfc) && Safe(nfc, s) && Tight(nfc, s) && AllLegal(nfc, s, ops) && AllSettled(nfc, s, ops)
    ensures Tight(nfc, Run(nfc, s, ops))
    decreases |ops|
  {
    hide Safe, Tight, Legal, Do, Settled, IdealNormalizer;
    if ops != [] {
      StepKeeps(nfc, s, ops[0]);
      StepKeepsClose(nfc, s, ops[0]);
      RunKeepsClose(nfc, Do(nfc, s, ops[0]), ops[1..]);
    }
  }

  /** In every settled run, wherever power is lost, each copy is the acknowledged payload or one edit
      ahead of it. */
  lemma CopiesStayNear(nfc: Normalizer, ops: seq<Op>)
    requires IdealNormalizer(nfc) && AllLegal(nfc, START, ops) && AllSettled(nfc, START, ops)
    ensures Within(nfc, Run(nfc, START, ops))
  {
    hide AllLegal, AllSettled, Run, Within, Tight, Safe, IdealNormalizer;
    StartIsSafe(nfc);
    StartIsTight(nfc);
    RunKeepsClose(nfc, START, ops);
    TightIsWithin(nfc, Run(nfc, START, ops));
  }

  lemma StartIsTight(nfc: Normalizer)
    ensures Tight(nfc, START)
  {}

  /** After a settled run, opening a session leaves every copy near what the session shows exactly when
      the primary is firm: an unlock over an unsynced primary rename is where the property is lost. */
  lemma UnlockStaysNearExactly(nfc: Normalizer, s: System)
    requires IdealNormalizer(nfc) && Safe(nfc, s) && Tight(nfc, s) && s.acked.Some? && s.phase.Locked? && Opened(s).phase.Unlocked?
    ensures Within(nfc, Opened(s)) <==> Firm(s.disk.primary, Opened(s).phase.current)
  {
    hide Succeeds, Holds, Visible, IdealNormalizer, PayloadOk, Descends;
    var a := s.acked.value;
    DurableIsVisible(s.disk.primary);
    VisibleHolds(s.disk.primary);
    if Visible(s.disk.backup).Some? { VisibleHolds(s.disk.backup); }
    var p := Visible(s.disk.primary).value;
    if Firm(s.disk.primary, p) {
      OpenedKeepsClose(nfc, s);
      TightIsWithin(nfc, Opened(s));
    } else {
      var x :| Holds(s.disk.primary, x) && x != p;
      if p == a {
        SuccessorIsNext(nfc, a, x);
        DurableIsVisible(s.disk.backup);
        VisibleHolds(s.disk.backup);
      } else {
        SuccessorIsNext(nfc, a, p);
        DurableIsVisible(s.disk.backup);
        VisibleHolds(s.disk.backup);
        assert x == a;
        if Succeeds(nfc, p, x) { SuccessorIsNext(nfc, p, x); }
        assert !Near(nfc, p, x);
      }
    }
  }

  /** Continuing with a primary over which a failed restore has renamed the backup: the next edit, cut
      short and followed by a power loss and an unlock, leaves a backup that is neither what the session
      shows nor an edit of it. */
  lemma ContinueOverRestored(nfc: Normalizer, s: System, x: Payload, edit: Edit, v: Payload)
    requires IdealNormalizer(nfc) && Safe(nfc, s) && Tight(nfc, s) && s.acked.Some? && s.phase.Recovery?
    requires Holds(s.disk.primary, x) && x != s.acked.value
    requires EditGives(nfc, s.acked.value, edit, v) && v != x
    ensures var ops := [Continue] + ([Change(edit, 1, false)] + ([PowerLoss(Some(x), Some(v))] + ([Op.Unlock] + [])));
            AllLegal(nfc, s, ops) && !Within(nfc, Run(nfc, s, ops))
  {
    hide PayloadOk, Edited, EditOk, IdealNormalizer, AllLegal, Run, Descends, Succeeds;
    var a := s.acked.value;
    GivenIsNext(nfc, a, edit, v);
    SuccessorIsNext(nfc, a, x);
    var s1 := Begin(s, a);
    var s2 := s1.(disk := Disk(s.disk.primary, Store.Renamed(s.disk.backup, v)), phase := Locked);
    var s3 := s2.(disk := Disk(Slot(Some(x), []), Slot(Some(v), [])));
    var s4 := Begin(s3, x);
    RunEnds(nfc, s4);
    RunStep(nfc, s3, Op.Unlock, s4, []);
    RunStep(nfc, s2, PowerLoss(Some(x), Some(v)), s3, [Op.Unlock] + []);
    RunStep(nfc, s1, Change(edit, 1, false), s2, [PowerLoss(Some(x), Some(v))] + ([Op.Unlock] + []));
    RunStep(nfc, s, Continue, s1, [Change(edit, 1, false)] + ([PowerLoss(Some(x), Some(v))] + ([Op.Unlock] + [])));
    assert Holds(s4.disk.backup, v);
    if Succeeds(nfc, x, v) { SuccessorIsNext(nfc, x, v); }
    assert !Near(nfc, x, v);
  }

  // ----- the two failures, on one concrete vault -----

  const IDENTITY: Normalizer := (s: seq<Byte>) => s

  function Zeros(): (r: seq<Byte>)
    ensures |r| == 16
  {
    [0, 0, 0, 0, 0, 0, 0, 0, 0, 0, 0, 0, 0, 0, 0, 0]
  }

  const EMPTY_VAULT: Payload := Payload(Zeros(), 0, [], 1800, [])
  const LETTER: seq<Byte> := [0x61]
  const ONE_FIELD: seq<Field> := [Field(LETTER, [], Binary)]
  const ADDED: Payload := EMPTY_VAULT.(revision := 1, records := [Record(Zeros(), LETTER, ONE_FIELD)])
  const REMOVED: Payload := EMPTY_VAULT.(revision := 2)

  lemma LetterIsName()
    ensures ParseName(IDENTITY, LETTER) == Ok(LETTER) && WellFormed(LETTER)
  {
    AsciiIsWellFormed(LETTER);
    assert !AnyForbidden(LETTER[1..]);
    assert !AnyForbidden(LETTER);
    forall i: nat | i <= |LETTER| ensures !OccursAt(LETTER, DOUBLE_COLON, i) {}
  }

  lemma ConcreteEdits()
    ensures IdealNormalizer(IDENTITY) && Blank(IDENTITY, EMPTY_VAULT)
    ensures EditGives(IDENTITY, EMPTY_VAULT, Edit.Add(Zeros(), LETTER, ONE_FIELD), ADDED)
    ensures EditGives(IDENTITY, ADDED, Edit.Delete(Id(Zeros())), REMOVED)
  {
    hide NormalNameOk, WellFormed, Contains, AnyForbidden;
    LetterIsName();
    var add := Edit.Add(Zeros(), LETTER, ONE_FIELD);
    assert FromParts(IDENTITY, Zeros(), LETTER, ONE_FIELD) == Ok(ADDED.records[0]);
    assert EMPTY_VAULT.records + [ADDED.records[0]] == ADDED.records;
    assert Edited(IDENTITY, EMPTY_VAULT, add) == Ok(ADDED);
    EditKeeps(IDENTITY, EMPTY_VAULT, add);
    assert Find(ADDED.records, Id(Zeros())) == Ok(0);
    assert ADDED.records[..0] + ADDED.records[1..] == [];
    assert Edited(IDENTITY, ADDED, Edit.Delete(Id(Zeros()))) == Ok(REMOVED);
  }

  /** There is a run after which a primary can be found that is newer than the backup found with it. */
  lemma OrderCanFail()
    ensures exists ops :: AllLegal(IDENTITY, START, ops) && !InOrder(Run(IDENTITY, START, ops).disk)
  {
    hide PayloadOk, Edited, EditOk, AllLegal, Run, InOrder;
    ConcreteEdits();
    var add, remove := Edit.Add(Zeros(), LETTER, ONE_FIELD), Edit.Delete(Id(Zeros()));
    UnguardedRunBreaksOrder(IDENTITY, EMPTY_VAULT, ADDED, REMOVED, ADDED, add, remove, add);
  }

  /** There is a run after which a copy can be found that is neither what the session shows nor an edit
      of it: one commit whose last sync fails, and an unlock. */
  lemma NearnessCanFail()
    ensures exists ops :: AllLegal(IDENTITY, START, ops) && !Within(IDENTITY, Run(IDENTITY, START, ops))
  {
    hide PayloadOk, Edited, EditOk, AllLegal, Run, Succeeds;
    ConcreteEdits();
    var nfc, b0, b1, add := IDENTITY, EMPTY_VAULT, ADDED, Edit.Add(Zeros(), LETTER, ONE_FIELD);
    var s1 := System(Disk(Slot(Some(b0), []), Slot(Some(b0), [])), Unlocked(b0), Some(b0), Some(b0));
    var s2 := s1.(disk := Disk(Slot(Some(b0), [b1]), Slot(Some(b1), [])), phase := Locked);
    var s3 := s2.(phase := Unlocked(b1), acked := Some(b1));
    RunEnds(nfc, s3);
    RunStep(nfc, s2, Op.Unlock, s3, []);
    RunStep(nfc, s1, Change(add, 3, false), s2, [Op.Unlock] + []);
    RunStep(nfc, START, Create(b0, 4, true), s1, [Change(add, 3, false)] + ([Op.Unlock] + []));
    assert Holds(s3.disk.primary, b0);
    if Succeeds(nfc, b1, b0) { SuccessorIsNext(nfc, b1, b0); }
    assert !Near(nfc, b1, b0);
  }
}
