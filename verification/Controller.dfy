/**
 `VaultController` (ui.rs): real files, real sealing and unlocking, one session at a time.

 Every method takes exactly one step of `Persistence`, seen through the payloads the files open to.
*/
module Controller {
  import opened Bytes
  import opened Utf8
  import opened Model
  import opened Codec
  import opened CodecProofs
  import opened Crypto
  import opened Session
  import opened Store
  import P = Persistence

  const DEFAULT_IDLE_TIMEOUT_SECONDS: nat := 30 * 60

  const NOTHING: Payload := Payload([], 0, [], 0, [])

  /** The payload a file opens to. */
  function Read(lib: Library, passphrase: seq<Byte>, file: seq<Byte>): Payload {
    match OpenCopy(lib, passphrase, Some(file))
    case Some(v) => v.payload
    case None => NOTHING
  }

  function Shown(o: Option<UnlockedVault>): Option<Payload> {
    match o
    case Some(v) => Some(v.payload)
    case None => None
  }

  /** A vault this controller may hold: sealing it gives a file that opens to it again. */
  ghost predicate Sealable(lib: Library, passphrase: seq<Byte>, v: UnlockedVault) {
    PayloadOk(lib.nfc, v.payload) && |v.payload.records| <= MAX_RECORDS && Protects(lib, passphrase, v.keyMaterial)
  }

  ghost predicate AllOpen(lib: Library, passphrase: seq<Byte>, d: Disk<seq<Byte>>) {
    forall f :: Holds(d.primary, f) || Holds(d.backup, f) ==> OpenCopy(lib, passphrase, Some(f)).Some?
  }

  ghost function View(lib: Library, passphrase: seq<Byte>, d: Disk<seq<Byte>>): Disk<Payload> {
    MapDisk(f => Read(lib, passphrase, f), d)
  }

  /** A sealed vault is accepted by `open_copy`, size limit included, and comes back as it was, exactly
      when it has at most 10,000 records. */
  lemma SealedOpens(lib: Library, passphrase: seq<Byte>, v: UnlockedVault, nonce: seq<Byte>, file: seq<Byte>)
    requires Ideal(lib) && PayloadOk(lib.nfc, v.payload) && Protects(lib, passphrase, v.keyMaterial) && |nonce| == NONCE_BYTES
    requires Prints(v.payload) && Seal(lib, v.payload, v.keyMaterial, nonce) == Ok(file)
    ensures OpenCopy(lib, passphrase, Some(file)) == if |v.payload.records| <= 10_000 then Some(v) else None
  {
    hide Ideal, Protects, PayloadOk, Prints, Seal, Unlock;
    UnlockOfSeal(lib, passphrase, v, nonce, file);
    SealedFileFits(lib, passphrase, v, nonce);
  }

  /** Whatever opens may be held. */
  lemma OpenedIsSealable(lib: Library, passphrase: seq<Byte>, file: seq<Byte>)
    requires Ideal(lib) && OpenCopy(lib, passphrase, Some(file)).Some?
    ensures Sealable(lib, passphrase, OpenCopy(lib, passphrase, Some(file)).value)
  {
    hide Ideal, Protects, PayloadOk, Prints, Seal, Unlock;
    SealOfUnlock(lib, passphrase, file);
  }

  lemma CommitKeepsOpen(lib: Library, passphrase: seq<Byte>, d: Disk<seq<Byte>>, file: seq<Byte>, k: nat)
    requires AllOpen(lib, passphrase, d) && OpenCopy(lib, passphrase, Some(file)).Some? && k <= 4
    ensures AllOpen(lib, passphrase, Stage(d, file, k))
  {
    hide OpenCopy, Stage, Holds;
    forall f | Holds(Stage(d, file, k).primary, f) || Holds(Stage(d, file, k).backup, f) ensures OpenCopy(lib, passphrase, Some(f)).Some? {
      StageHolds(d, file, k, f);
    }
  }

  datatype Managed =
    | FirstRun
    | Locked
    | Recovery(primary: Option<UnlockedVault>, backup: UnlockedVault)
    | Unlocked(session: VaultSession)

  /** The random bytes and file names a commit draws, and what the file system does to it. */
  datatype Commit = Commit(nonce: Option<seq<Byte>>, first: nat, second: nat, faults: Faults)

  predicate Drawn(c: Commit) { c.first != c.second && (c.nonce.Some? ==> |c.nonce.value| == NONCE_BYTES) }

  /** A commit that went through leaves only its own file. */
  lemma LastStageOpens(lib: Library, passphrase: seq<Byte>, d: Disk<seq<Byte>>, file: seq<Byte>)
    requires OpenCopy(lib, passphrase, Some(file)).Some?
    ensures AllOpen(lib, passphrase, Stage(d, file, 4))
  {
    hide OpenCopy;
  }

  /** When both copies are a file that does not open, unlocking fails. */
  lemma NothingOpens(lib: Library, passphrase: seq<Byte>, d: Disk<seq<Byte>>, file: seq<Byte>)
    requires OpenCopy(lib, passphrase, Some(file)).None?
    ensures var s := Stage(d, file, 4);
            Choose(OpenCopy(lib, passphrase, Visible(s.primary)), OpenCopy(lib, passphrase, Visible(s.backup))) == Err(VaultUnavailable)
  {
    hide OpenCopy;
  }

  /** What a session that just committed shows. */
  lemma FreshlyShown(s: P.System, shown: seq<Payload>, v: Payload)
    requires Rising(shown) && shown != [] && shown[|shown| - 1] == v
    requires s.phase == P.Unlocked(v) && Visible(s.disk.primary) == Some(v)
    ensures P.ShownSound(s, shown)
  {
    hide Rising, Visible;
  }

  /** Committing `v` goes through: the nonce was drawn, the payload is not too large and the cipher takes it
      (`SealSucceeds`), and nothing goes wrong on the disk. */
  ghost predicate Commits(lib: Library, v: UnlockedVault, c: Commit) {
    && c.nonce.Some? && Prints(v.payload)
    && var sealed := Seal(lib, v.payload, v.keyMaterial, c.nonce.value);
       sealed.Ok? && Healthy(c.faults, sealed.value)
  }

  /** `commit`: seals `v` and commits the file. With more than 10,000 records the file does not open. */
  method CommitVault(lib: Library, passphrase: seq<Byte>, store: VaultStore, v: UnlockedVault, c: Commit)
    returns (r: Result<()>, ghost k: nat, ghost file: seq<Byte>)
    requires Ideal(lib) && store.candidates == map[]
    requires PayloadOk(lib.nfc, v.payload) && Protects(lib, passphrase, v.keyMaterial) && Drawn(c)
    modifies store
    ensures store.candidates == map[] && P.CommitOk(k, r.Ok?)
    ensures r.Ok? <==> Commits(lib, v, c)
    ensures store.disk == Stage(old(store.disk), file, k)
    ensures |v.payload.records| <= MAX_RECORDS ==>
              && (AllOpen(lib, passphrase, old(store.disk)) || k == 4 ==> AllOpen(lib, passphrase, store.disk))
              && View(lib, passphrase, store.disk) == Stage(View(lib, passphrase, old(store.disk)), v.payload, k)
    ensures k > 0 ==> OpenCopy(lib, passphrase, Some(file)) == if |v.payload.records| <= MAX_RECORDS then Some(v) else None
  {
    hide Ideal, AllOpen, OpenCopy, PayloadOk, Protects, Prints, Seal, Stage, MapDisk;
    PayloadOkPrints(lib.nfc, v.payload);
    k, file := 0, [];
    StageZero(View(lib, passphrase, store.disk), v.payload);
    StageZero(store.disk, file);
    var sealed := SealPayload(lib, v.payload, v.keyMaterial, c.nonce);
    if sealed.Err? { return Err(sealed.error), 0, []; }
    file := sealed.value;
    SealedOpens(lib, passphrase, v, c.nonce.value, file);
    r, k := store.CommitEncrypted(sealed.value, c.first, c.second, c.faults);
    if |v.payload.records| <= MAX_RECORDS {
      if AllOpen(lib, passphrase, old(store.disk)) { CommitKeepsOpen(lib, passphrase, old(store.disk), file, k); }
      LastStageOpens(lib, passphrase, old(store.disk), file);
      MapStage(f => Read(lib, passphrase, f), old(store.disk), file, k);
    }
  }

  /** An edit of `v` and the commit after it both go through. */
  ghost predicate EditCommits(lib: Library, v: UnlockedVault, edit: Edit, c: Commit) {
    var edited := Edited(lib.nfc, v.payload, edit);
    edited.Ok? && Commits(lib, v.(payload := edited.value), c)
  }

  /** The key can be wrapped, and the empty vault sealed and committed. */
  ghost predicate CreateCommits(lib: Library, passphrase: seq<Byte>, vaultId: seq<Byte>, salt: seq<Byte>, key: seq<Byte>,
                                wrapNonce: seq<Byte>, firstNonce: seq<Byte>, c: Commit)
    requires |salt| == 16
  {
    var km := WrappedKey(lib, passphrase, KdfHeader(64 * 1024, 3, 4, salt), key, wrapNonce);
    var blank := Payload(vaultId, 0, [], DEFAULT_IDLE_TIMEOUT_SECONDS, []);
    && km.Ok? && Prints(blank) && Seal(lib, blank, km.value, firstNonce).Ok?
    && Commits(lib, UnlockedVault(blank, km.value), c)
  }

  /** What a power loss leaves of the files is, seen through what they open to, what it leaves of the
      payloads; and every file found still opens. */
  lemma PowerLossInView(lib: Library, passphrase: seq<Byte>, d: Disk<seq<Byte>>, p: Option<seq<Byte>>, b: Option<seq<Byte>>)
    requires AllOpen(lib, passphrase, d) && Possible(d.primary, p) && Possible(d.backup, b)
    ensures var found := Disk(Slot(p, []), Slot(b, []));
            var read := (f: seq<Byte>) => Read(lib, passphrase, f);
            && AllOpen(lib, passphrase, found)
            && View(lib, passphrase, found) == Disk(Slot(MapOption(read, p), []), Slot(MapOption(read, b), []))
            && Possible(View(lib, passphrase, d).primary, MapOption(read, p))
            && Possible(View(lib, passphrase, d).backup, MapOption(read, b))
  {
    hide OpenCopy, MapSlot;
    var read := (f: seq<Byte>) => Read(lib, passphrase, f);
    MapPossible(read, d.primary, p);
    MapPossible(read, d.backup, b);
    MapFound(read, p);
    MapFound(read, b);
    forall f | p == Some(f) || b == Some(f) ensures OpenCopy(lib, passphrase, Some(f)).Some? {
      assert Holds(d.primary, f) || Holds(d.backup, f);
    }
  }

  /** After a run of the system over these files, each file found after a power loss opens, and holds the
      last committed payload or something edited from it. */
  lemma FoundFilesAreGood(lib: Library, passphrase: seq<Byte>, ops: seq<P.Op>, d: Disk<seq<Byte>>, f: seq<Byte>)
    requires Ideal(lib) && P.AllLegal(lib.nfc, P.START, ops) && AllOpen(lib, passphrase, d)
    requires P.Run(lib.nfc, P.START, ops).disk == View(lib, passphrase, d)
    requires Holds(d.primary, f) || Holds(d.backup, f)
    ensures var s := P.Run(lib.nfc, P.START, ops);
            var o := OpenCopy(lib, passphrase, Some(f));
            && o.Some? && PayloadOk(lib.nfc, o.value.payload)
            && (s.committed.Some? ==> P.Descends(lib.nfc, s.committed.value, o.value.payload))
  {
    hide PayloadOk, OpenCopy, P.AllLegal, P.Run, P.Descends, MapSlot;
    var read := (x: seq<Byte>) => Read(lib, passphrase, x);
    if Holds(d.primary, f) { MapPossible(read, d.primary, Some(f)); } else { MapPossible(read, d.backup, Some(f)); }
    NormalizerOf(lib);
    P.NothingIsLost(lib.nfc, ops);
  }

  lemma StartedInView(lib: Library, passphrase: seq<Byte>, d: Disk<seq<Byte>>)
    ensures P.Started(View(lib, passphrase, d)) == P.Started(d)
  {
    hide MapSlot, Visible, OpenCopy;
    MapVisible(f => Read(lib, passphrase, f), d.primary);
    MapVisible(f => Read(lib, passphrase, f), d.backup);
  }

  /** The files of a run: a disk whose copies all open, seen as the system sees it. A power loss of the
      files followed by a start of the program is the system's power loss. */
  lemma PowerLossOfFiles(lib: Library, passphrase: seq<Byte>, s: P.System, d: Disk<seq<Byte>>, p: Option<seq<Byte>>, b: Option<seq<Byte>>)
    requires AllOpen(lib, passphrase, d) && s.disk == View(lib, passphrase, d) && Possible(d.primary, p) && Possible(d.backup, b)
    ensures var found := Disk(Slot(p, []), Slot(b, []));
            var read := (f: seq<Byte>) => Read(lib, passphrase, f);
            && AllOpen(lib, passphrase, found)
            && P.Steps(lib.nfc, s, P.PowerLoss(MapOption(read, p), MapOption(read, b)),
                       P.System(View(lib, passphrase, found), P.Started(found), s.acked, s.committed))
  {
    hide OpenCopy, AllOpen, View, Visible, Possible;
    PowerLossInView(lib, passphrase, d, p, b);
    StartedInView(lib, passphrase, Disk(Slot(p, []), Slot(b, [])));
  }

  lemma StageZero<T>(d: Disk<T>, v: T)
    ensures Stage(d, v, 0) == d
  {}

  /** A refused or failing edit leaves the system alone; otherwise the edit is one step of it. */
  ghost predicate Changed(nfc: Normalizer, before: P.System, edit: Edit, r: Result<()>, k: nat, after: P.System)
    requires before.phase.Unlocked?
  {
    match Edited(nfc, before.phase.current, edit)
    case Err(e) => r == Err(e) && after == before
    case Ok(_) => P.Steps(nfc, before, P.Change(edit, k, r.Ok?), after)
  }

  lemma BlankIsOk(nfc: Normalizer, p: Payload)
    requires |p.vaultId| == 16 && p.revision == 0 && p.records == [] && p.idleTimeoutSeconds <= U32_MAX && p.unknown == []
    ensures PayloadOk(nfc, p)
  {}

  lemma WrapsProtects(lib: Library, passphrase: seq<Byte>, km: KeyMaterial, header: KdfHeader, nonce: seq<Byte>)
    requires Wraps(lib, passphrase, km, header, nonce)
    ensures Protects(lib, passphrase, km)
  {
    hide Wraps;
  }

  /** What opening the visible copies yields. */
  lemma ReadVisible(lib: Library, passphrase: seq<Byte>, d: Disk<seq<Byte>>)
    requires Ideal(lib) && AllOpen(lib, passphrase, d)
    ensures forall s {:trigger Visible(s)} :: s == d.primary || s == d.backup ==>
              var o := OpenCopy(lib, passphrase, Visible(s));
              && (o.Some? <==> Visible(s).Some?)
              && (o.Some? ==> Sealable(lib, passphrase, o.value))
              && Visible(MapSlot(f => Read(lib, passphrase, f), s)) == Shown(o)
  {
    hide Ideal, Sealable, Unlock;
    forall s {:trigger Visible(s)} | s == d.primary || s == d.backup
      ensures var o := OpenCopy(lib, passphrase, Visible(s));
              && (o.Some? <==> Visible(s).Some?)
              && (o.Some? ==> Sealable(lib, passphrase, o.value))
              && Visible(MapSlot(f => Read(lib, passphrase, f), s)) == Shown(o)
    {
      MapVisible(f => Read(lib, passphrase, f), s);
      if Visible(s).Some? {
        VisibleHolds(s);
        OpenedIsSealable(lib, passphrase, Visible(s).value);
      }
    }
  }

  lemma ShownRises(s: P.System, shown: seq<Payload>)
    requires P.ShownSound(s, shown)
    ensures Rising(shown)
  {
    hide Rising;
  }

  class VaultController {
    const lib: Library
    const passphrase: seq<Byte>
    const store: VaultStore
    var state: Managed
    var sessionId: Option<nat>
    ghost var acked: Option<Payload>
    ghost var committed: Option<Payload>
    /** Every payload shown since the process started. */
    ghost var shown: seq<Payload>

    ghost function Sessions(): set<object> reads this`state {
      if state.Unlocked? then {state.session} else {}
    }

    ghost predicate Valid() reads this, store, Sessions() {
      && Ideal(lib) && P.ShownSound(System(), shown)
      && store.candidates == map[] && AllOpen(lib, passphrase, store.disk)
      && (state.Unlocked? ==> sessionId.Some?)
      && match state
         case Recovery(p, b) => (p.Some? ==> Sealable(lib, passphrase, p.value)) && Sealable(lib, passphrase, b)
         case Unlocked(session) => session.Valid() && session.nfc == lib.nfc && session.history == shown && Sealable(lib, passphrase, session.vault)
         case _ => true
    }

    ghost function Phase(): P.Phase reads this, Sessions() {
      match state
      case FirstRun => P.FirstRun
      case Locked => P.Locked
      case Recovery(p, b) => P.Recovery(Shown(p), b.payload)
      case Unlocked(session) => P.Unlocked(session.vault.payload)
    }

    /** The state as `Persistence` sees it. */
    ghost function System(): P.System reads this, store, Sessions() {
      P.System(View(lib, passphrase, store.disk), Phase(), acked, committed)
    }

    /** `VaultController::new`, over the files left by earlier runs. */
    constructor (lib: Library, passphrase: seq<Byte>, store: VaultStore, ghost acked: Option<Payload>, ghost committed: Option<Payload>)
      requires Ideal(lib) && store.candidates == map[] && AllOpen(lib, passphrase, store.disk)
      ensures Valid() && this.store == store && this.acked == acked && this.committed == committed
      ensures Phase() == P.Started(store.disk) && Sessions() == {} && shown == []
    {
      hide Ideal, AllOpen, Visible, OpenCopy, View;
      this.lib, this.passphrase, this.store := lib, passphrase, store;
      var exists_ := Visible(store.disk.primary).Some? || Visible(store.disk.backup).Some?;
      state := if exists_ then Locked else FirstRun;
      sessionId := None;
      this.acked, this.committed, shown := acked, committed, [];
    }

    /** A session over more than 10,000 records. What is on disk may not open. */
    ghost predicate Overfull() reads this, store, Sessions() {
      && Ideal(lib) && store.candidates == map[]
      && sessionId.Some? && state.Unlocked?
      && state.session.Valid() && state.session.nfc == lib.nfc && state.session.history == shown
      && Protects(lib, passphrase, state.session.vault.keyMaterial)
      && |state.session.vault.payload.records| > MAX_RECORDS
    }

    /** The copies on disk and what was shown are as `Valid` has them. */
    ghost predicate Whole(before: P.System) reads this, store {
      AllOpen(lib, passphrase, store.disk) && P.ShownSound(before, shown)
    }

    /** The session has made `edit`, and nothing is committed yet. */
    ghost predicate Uncommitted(before: P.System, edit: Edit) reads this, store, Sessions() {
      && Ideal(lib) && store.candidates == map[]
      && sessionId.Some? && state.Unlocked?
      && state.session.Valid() && state.session.nfc == lib.nfc && Protects(lib, passphrase, state.session.vault.keyMaterial)
      && state.session.history == shown + [state.session.vault.payload]
      && before.phase.Unlocked?
      && before.disk == View(lib, passphrase, store.disk) && before.acked == acked && before.committed == committed
      && EditOk(lib.nfc, before.phase.current, edit)
      && Edited(lib.nfc, before.phase.current, edit) == Ok(state.session.vault.payload)
    }

    /** The edited payload `q` was committed from or to a vault of more than 10,000 records. The file opens
        exactly when `q` is within the bound; a success puts it in both copies, and when it opens all is
        well again; a failure locks the vault. */
    ghost predicate Stray(before: Disk<seq<Byte>>, q: Payload, r: Result<()>, k: nat, file: seq<Byte>) reads this, store, Sessions() {
      && P.CommitOk(k, r.Ok?) && store.disk == Stage(before, file, k)
      && (k > 0 ==> var o := OpenCopy(lib, passphrase, Some(file));
                    if |q.records| <= MAX_RECORDS then o.Some? && o.value.payload == q else o.None?)
      && (r.Err? ==> state == Locked)
      && (r.Ok? ==> state.Unlocked? && state.session.vault.payload == q && if |q.records| <= MAX_RECORDS then Valid() else Overfull())
    }

    /** `commit_to`, and the lock that follows a failure. */
    method CommitSession(ghost whole: bool, ghost before: P.System, ghost edit: Edit, c: Commit) returns (r: Result<()>, ghost k: nat, ghost file: seq<Byte>)
      requires Uncommitted(before, edit) && Drawn(c) && (whole ==> Whole(before))
      modifies this, store
      ensures old(shown) <= shown
      ensures r.Ok? <==> Commits(lib, old(state.session.vault), c)
      ensures |old(state.session.vault.payload.records)| <= MAX_RECORDS && whole ==> Valid() && Changed(lib.nfc, before, edit, r, k, System())
      ensures !(|old(state.session.vault.payload.records)| <= MAX_RECORDS && whole) ==>
                Stray(old(store.disk), old(state.session.vault.payload), r, k, file)
    {
      hide Ideal, AllOpen, OpenCopy, PayloadOk, Protects, Edited, EditOk, View, Stage, P.ShownSound, Rising, Commits, Visible;
      r, k, file := CommitVault(lib, passphrase, store, state.session.vault, c);
      ghost var payload, session := state.session.vault.payload, state.session;
      if r.Err? {
        state := Locked;
        sessionId := None;
      } else {
        acked, committed := Some(payload), Some(payload);
        shown := session.history;
      }
      if |payload.records| <= MAX_RECORDS {
        if whole {
          assert P.Steps(lib.nfc, before, P.Change(edit, k, r.Ok?), System());
          P.StepsShow(lib.nfc, before, P.Change(edit, k, r.Ok?), System(), old(shown));
        } else if r.Ok? {
          StageVisible(before.disk, payload, 4);
          FreshlyShown(System(), shown, payload);
        }
      }
    }

    /** What an edit of the open session comes to. */
    ghost predicate Outcome(whole: bool, before: P.System, disk: Disk<seq<Byte>>, edit: Edit, r: Result<()>, k: nat, file: seq<Byte>)
      requires before.phase.Unlocked?
      reads this, store, Sessions()
    {
      match Edited(lib.nfc, before.phase.current, edit)
      case Err(e) => r == Err(e) && System() == before && store.disk == disk && if whole then Valid() else Overfull()
      case Ok(q) =>
        if whole && |q.records| <= MAX_RECORDS then Valid() && Changed(lib.nfc, before, edit, r, k, System())
        else Stray(disk, q, r, k, file)
    }

    /** `add_secret`. Nothing stops it from adding to a vault that already holds 10,000 records. */
    method AddSecret(name: seq<Byte>, fields: seq<Field>, id: seq<Byte>, c: Commit) returns (r: Result<()>, ghost k: nat, ghost file: seq<Byte>)
      requires (Valid() || Overfull()) && Drawn(c)
      requires state.Unlocked? ==> EditOk(lib.nfc, state.session.vault.payload, Edit.Add(id, name, fields))
      modifies this, store, Sessions()
      ensures old(shown) <= shown
      ensures !old(state.Unlocked?) ==> Valid() && r == Err(InvalidRequest) && System() == old(System())
      ensures old(state.Unlocked?) ==> Outcome(old(Valid()), old(System()), old(store.disk), Edit.Add(id, name, fields), r, k, file)
      ensures old(state.Unlocked?) ==> (r.Ok? <==> EditCommits(lib, old(state.session.vault), Edit.Add(id, name, fields), c))
    {
      hide Ideal, AllOpen, OpenCopy, PayloadOk, Protects, Edited, EditOk, View, Stage, P.ShownSound;
      k, file := 0, [];
      if !state.Unlocked? { return Err(InvalidRequest), 0, []; }
      ghost var whole, before := Valid(), System();
      r := state.session.Add(name, fields, id);
      if r.Err? { return; }
      EditCounts(lib.nfc, before.phase.current, Edit.Add(id, name, fields));
      r, k, file := CommitSession(whole, before, Edit.Add(id, name, fields), c);
    }

    /** `delete_secret`; from a session of 10,001 records it is the way back. */
    method DeleteSecret(id: seq<Byte>, c: Commit) returns (r: Result<()>, ghost k: nat, ghost file: seq<Byte>)
      requires (Valid() || Overfull()) && Drawn(c)
      modifies this, store, Sessions()
      ensures old(shown) <= shown
      ensures !old(state.Unlocked?) ==> Valid() && r == Err(InvalidRequest) && System() == old(System())
      ensures old(state.Unlocked?) ==> Outcome(old(Valid()), old(System()), old(store.disk), Edit.Delete(Id(id)), r, k, file)
      ensures old(state.Unlocked?) ==> (r.Ok? <==> EditCommits(lib, old(state.session.vault), Edit.Delete(Id(id)), c))
    {
      hide Ideal, AllOpen, OpenCopy, PayloadOk, Protects, Edited, View, Stage, P.ShownSound;
      k, file := 0, [];
      if !state.Unlocked? { return Err(InvalidRequest), 0, []; }
      ghost var whole, before := Valid(), System();
      r := state.session.Delete(Id(id));
      if r.Err? { return; }
      EditCounts(lib.nfc, before.phase.current, Edit.Delete(Id(id)));
      r, k, file := CommitSession(whole, before, Edit.Delete(Id(id)), c);
    }

    method PrepareSecretUpdate(id: seq<Byte>, newName: seq<Byte>, fields: seq<Field>) returns (r: Result<Prepared>)
      requires (Valid() || Overfull()) && WellFormed(newName) && FieldsOk(fields)
      ensures !state.Unlocked? ==> r == Err(VaultLocked)
      ensures state.Unlocked? ==> r == Prepare(lib.nfc, state.session.vault.payload, Id(id), newName, fields)
      ensures r.Ok? ==> PreparedIn(lib.nfc, shown, r.value)
      ensures state.Unlocked? ==> forall q :: r == Ok(q) <==> Prepares(lib.nfc, state.session.vault.payload, Id(id), newName, fields, q)
    {
      hide Prepares, Ideal, AllOpen, PayloadOk, Sealable, Prepare, PreparedIn, P.ShownSound;
      if !state.Unlocked? { return Err(VaultLocked); }
      r := state.session.PrepareRecordReplacement(Id(id), newName, fields);
    }

    /** `apply_secret_update`, of an update prepared at any earlier moment of the process. The vault may
        have been locked and unlocked, recovered or edited in between: the revision alone decides. */
    method ApplySecretUpdate(update: Prepared, c: Commit) returns (r: Result<()>, ghost k: nat, ghost file: seq<Byte>)
      requires (Valid() || Overfull()) && Drawn(c) && PreparedIn(lib.nfc, shown, update)
      modifies this, store, Sessions()
      ensures old(shown) <= shown
      ensures !old(state.Unlocked?) ==> Valid() && r == Err(VaultLocked) && System() == old(System())
      ensures old(state.Unlocked?) ==> Outcome(old(Valid()), old(System()), old(store.disk), Edit.Apply(update), r, k, file)
      ensures old(state.Unlocked?) ==> (r.Ok? <==> EditCommits(lib, old(state.session.vault), Edit.Apply(update), c))
    {
      hide Ideal, AllOpen, OpenCopy, PayloadOk, Protects, Edited, View, Stage, PreparedIn, PreparedFrom, P.ShownSound;
      k, file := 0, [];
      if !state.Unlocked? { return Err(VaultLocked), 0, []; }
      ghost var whole, before := Valid(), System();
      if update.expectedRevision == state.session.vault.payload.revision {
        PreparedIsCurrent(lib.nfc, state.session.history, state.session.vault.payload, update);
      }
      r := state.session.ApplyRecordReplacement(update);
      if r.Err? { return; }
      EditCounts(lib.nfc, before.phase.current, Edit.Apply(update));
      r, k, file := CommitSession(whole, before, Edit.Apply(update), c);
    }

    /** Replaces the state by a session over `v`; `op` is the operation this completes. */
    method StartSession(v: UnlockedVault, id: nat, ghost before: P.System, ghost op: P.Op)
      requires Ideal(lib) && store.candidates == map[] && AllOpen(lib, passphrase, store.disk) && Sealable(lib, passphrase, v)
      requires P.ShownSound(before, shown) && P.SameProcess(op)
      requires P.Steps(lib.nfc, before, op, P.System(View(lib, passphrase, store.disk), P.Unlocked(v.payload), acked, committed))
      modifies this`state, this`sessionId, this`shown
      ensures Valid() && old(shown) <= shown && sessionId == Some(id)
      ensures System() == P.System(View(lib, passphrase, store.disk), P.Unlocked(v.payload), acked, committed)
    {
      hide Ideal, AllOpen, PayloadOk, Protects, View, P.Steps, OpenCopy, P.ShownSound;
      ghost var after := P.System(View(lib, passphrase, store.disk), P.Unlocked(v.payload), acked, committed);
      P.StepsShow(lib.nfc, before, op, after, shown);
      ShownRises(after, shown + [v.payload]);
      NormalizerOf(lib);
      var session := new VaultSession(lib.nfc, v, shown);
      shown := shown + [v.payload];
      state := Unlocked(session);
      sessionId := Some(id);
    }

    /** `create`. `confirmed` says that the passphrase and its confirmation are acceptable, `parent`
        that the directory could be made; the rest are random draws. */
    method Create(confirmed: bool, parent: bool, vaultId: seq<Byte>, salt: Option<seq<Byte>>, key: Option<seq<Byte>>,
                  wrapNonce: Option<seq<Byte>>, firstNonce: Option<seq<Byte>>, c: Commit, id: nat)
      returns (r: Result<()>, ghost k: nat)
      requires Valid() && Drawn(c) && |vaultId| == 16
      requires salt.Some? ==> |salt.value| == 16
      requires key.Some? ==> |key.value| == KEY_BYTES
      requires wrapNonce.Some? ==> |wrapNonce.value| == NONCE_BYTES
      requires firstNonce.Some? ==> |firstNonce.value| == NONCE_BYTES
      modifies this, store
      ensures Valid() && P.CommitOk(k, r.Ok?) && old(shown) <= shown
      ensures !old(state.FirstRun?) ==> r == Err(InvalidRequest) && System() == old(System())
      ensures old(state.FirstRun?) ==>
                var blank := Payload(vaultId, 0, [], DEFAULT_IDLE_TIMEOUT_SECONDS, []);
                P.Steps(lib.nfc, old(System()), P.Create(blank, k, r.Ok?), System())
      ensures old(state.FirstRun?) && r.Ok? ==> confirmed && parent && sessionId == Some(id)
      ensures old(state.FirstRun?) && confirmed && parent ==>
                (r.Ok? <==> && salt.Some? && key.Some? && wrapNonce.Some? && firstNonce.Some?
                            && CreateCommits(lib, passphrase, vaultId, salt.value, key.value, wrapNonce.value, firstNonce.value, c))
    {
      hide Ideal, AllOpen, OpenCopy, PayloadOk, Protects, View, Stage, Wraps, Prints, Seal, Commits, WrappedKey, HeaderBytes, VaultSession.Valid, P.ShownSound;
      k := 0;
      if !state.FirstRun? { return Err(InvalidRequest), 0; }
      ghost var before := System();
      var blank := Payload(vaultId, 0, [], DEFAULT_IDLE_TIMEOUT_SECONDS, []);
      BlankIsOk(lib.nfc, blank);
      StageZero(View(lib, passphrase, store.disk), blank);
      if !confirmed { return Err(InvalidRequest), 0; }
      if !parent { return Err(StorageFailure), 0; }
      var km := NewKeyMaterial(lib, passphrase, salt, key, wrapNonce);
      if km.Err? { return Err(km.error), 0; }
      var header := KdfHeader(64 * 1024, 3, 4, salt.value);
      WrapsProtects(lib, passphrase, km.value, header, wrapNonce.value);
      var v := UnlockedVault(blank, km.value);
      PayloadOkPrints(lib.nfc, blank);
      var unused := SealPayload(lib, blank, km.value, firstNonce);
      if unused.Err? { return Err(unused.error), 0; }
      ghost var file;
      r, k, file := CommitVault(lib, passphrase, store, v, c);
      if r.Err? {
        assert P.Steps(lib.nfc, before, P.Create(blank, k, false), System());
        P.StepsShow(lib.nfc, before, P.Create(blank, k, false), System(), shown);
        return;
      }
      acked, committed := Some(blank), Some(blank);
      StartSession(v, id, before, P.Create(blank, k, true));
    }

    /** `unlock` */
    method UnlockVault(id: nat) returns (r: Result<()>)
      requires Valid()
      modifies this
      ensures Valid() && old(shown) <= shown
      ensures !old(state.Locked?) ==> r == Err(InvalidRequest) && System() == old(System())
      ensures old(state.Locked?) ==> P.Steps(lib.nfc, old(System()), P.Op.Unlock, System())
      ensures old(state.Locked?) ==> (r.Err? <==> Visible(store.disk.primary).None? && Visible(store.disk.backup).None?)
    {
      hide Ideal, OpenCopy, PayloadOk, Protects, Stage, VaultSession.Valid, MapSlot, Visible, P.ShownSound;
      if !state.Locked? { return Err(InvalidRequest); }
      ghost var before := System();
      ReadVisible(lib, passphrase, store.disk);
      var open := store.Open(lib, passphrase);
      if open.Err? { return Err(open.error); }
      match open.value
      case Primary(vault, newerBackup) =>
        if newerBackup.Some? {
          state := Recovery(Some(vault), newerBackup.value);
          P.StepsShow(lib.nfc, before, P.Op.Unlock, System(), shown);
        } else {
          acked := Some(vault.payload);
          StartSession(vault, id, before, P.Op.Unlock);
        }
        return Ok(());
      case RestoreRequired(backup) =>
        state := Recovery(None, backup);
        P.StepsShow(lib.nfc, before, P.Op.Unlock, System(), shown);
        return Ok(());
    }

    /** `restore_backup` */
    method RestoreBackup(c: Commit, id: nat) returns (r: Result<()>, ghost k: nat)
      requires Valid() && Drawn(c)
      modifies this, store
      ensures Valid() && P.CommitOk(k, r.Ok?) && old(shown) <= shown
      ensures !old(state.Recovery?) ==> r == Err(InvalidRequest) && P.Steps(lib.nfc, old(System()), P.Misplaced, System())
      ensures old(state.Recovery?) ==> P.Steps(lib.nfc, old(System()), P.Restore(k, r.Ok?), System())
      ensures old(state.Recovery?) ==> (r.Ok? <==> Commits(lib, old(state).backup, c))
    {
      hide Ideal, AllOpen, OpenCopy, PayloadOk, Protects, View, Stage, Seal, VaultSession.Valid, P.ShownSound;
      k := 0;
      ghost var before := System();
      var was := state;
      state := Locked;
      if !was.Recovery? {
        assert P.Steps(lib.nfc, before, P.Misplaced, System());
        P.StepsShow(lib.nfc, before, P.Misplaced, System(), shown);
        return Err(InvalidRequest), 0;
      }
      ghost var file;
      r, k, file := CommitVault(lib, passphrase, store, was.backup, c);
      if r.Err? {
        state := was;
        assert P.Steps(lib.nfc, before, P.Restore(k, false), System());
        P.StepsShow(lib.nfc, before, P.Restore(k, false), System(), shown);
        return;
      }
      acked, committed := Some(was.backup.payload), Some(was.backup.payload);
      StartSession(was.backup, id, before, P.Restore(k, true));
    }

    /** `continue_with_primary` */
    method ContinueWithPrimary(id: nat) returns (r: Result<()>)
      requires Valid()
      modifies this
      ensures Valid() && old(shown) <= shown
      ensures !old(state.Recovery?) ==> r == Err(InvalidRequest) && P.Steps(lib.nfc, old(System()), P.Misplaced, System())
      ensures old(state.Recovery?) && old(state).primary.None? ==> r == Err(InvalidRequest) && System() == old(System())
      ensures old(state.Recovery?) && old(state).primary.Some? ==> r == Ok(()) && P.Steps(lib.nfc, old(System()), P.Continue, System())
    {
      hide Ideal, AllOpen, OpenCopy, PayloadOk, Protects, View, VaultSession.Valid, P.ShownSound;
      ghost var before := System();
      var was := state;
      state := Locked;
      if !was.Recovery? {
        assert P.Steps(lib.nfc, before, P.Misplaced, System());
        P.StepsShow(lib.nfc, before, P.Misplaced, System(), shown);
        return Err(InvalidRequest);
      }
      if was.primary.None? {
        state := was;
        return Err(InvalidRequest);
      }
      acked := Some(was.primary.value.payload);
      StartSession(was.primary.value, id, before, P.Continue);
      return Ok(());
    }

    /** `lock` */
    method LockVault()
      requires Valid()
      modifies this
      ensures Valid() && shown == old(shown) && sessionId == None && P.Steps(lib.nfc, old(System()), P.Lock, System())
    {
      hide Ideal, AllOpen, OpenCopy, Sealable, View, VaultSession.Valid, P.ShownSound;
      ghost var before := System();
      if !state.FirstRun? { state := Locked; }
      sessionId := None;
      assert P.Steps(lib.nfc, before, P.Lock, System());
      P.StepsShow(lib.nfc, before, P.Lock, System(), shown);
    }
  }
}
