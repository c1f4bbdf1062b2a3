/**
 The two copies of the vault file (store.rs).

 A copy is a directory entry: what is durable, and the renames made since the directory was last
 synced. After a power loss each entry, independently, is the durable one or any of the renamed ones.
*/
module Store {
  import opened Bytes
  import opened Model
  import opened Crypto

  datatype Slot<T> = Slot(durable: Option<T>, pending: seq<T>)

  datatype Disk<T> = Disk(primary: Slot<T>, backup: Slot<T>)

  /** What a reader sees: the last rename, synced or not. */
  function Visible<T>(s: Slot<T>): Option<T> {
    if s.pending != [] then Some(s.pending[|s.pending| - 1]) else s.durable
  }

  function Renamed<T>(s: Slot<T>, v: T): Slot<T> { s.(pending := s.pending + [v]) }

  function Synced<T>(s: Slot<T>): Slot<T> { Slot(Visible(s), []) }

  /** What the entry can be after a power loss. */
  ghost predicate Possible<T>(s: Slot<T>, o: Option<T>) {
    o == s.durable || (o.Some? && o.value in s.pending)
  }

  ghost predicate Holds<T>(s: Slot<T>, v: T) { Possible(s, Some(v)) }

  /** The disk after the first `k` effects of a commit: backup renamed, directory synced, primary
      renamed, directory synced. */
  function Stage<T>(d: Disk<T>, v: T, k: nat): Disk<T> {
    if k == 0 then d
    else if k == 1 then Disk(d.primary, Renamed(d.backup, v))
    else if k == 2 then Disk(Synced(d.primary), Slot(Some(v), []))
    else if k == 3 then Disk(Renamed(Synced(d.primary), v), Slot(Some(v), []))
    else Disk(Slot(Some(v), []), Slot(Some(v), []))
  }

  /** How a commit changes what each copy can be. */
  lemma StageHolds<T>(d: Disk<T>, v: T, k: nat, q: T)
    requires k <= 4
    ensures Holds(Stage(d, v, k).primary, q) ==> Holds(d.primary, q) || (k >= 3 && q == v)
    ensures Holds(Stage(d, v, k).backup, q) ==> (k <= 1 && Holds(d.backup, q)) || (k >= 1 && q == v)
    ensures k >= 2 ==> Holds(Stage(d, v, k).primary, q) ==> Some(q) == Visible(d.primary) || (k >= 3 && q == v)
    ensures k == 4 ==> Holds(Stage(d, v, k).primary, q) ==> q == v
  {}

  lemma StageVisible<T>(d: Disk<T>, v: T, k: nat)
    requires k <= 4
    ensures Visible(Stage(d, v, k).primary) == if k >= 3 then Some(v) else Visible(d.primary)
    ensures Visible(Stage(d, v, k).backup) == if k >= 1 then Some(v) else Visible(d.backup)
  {}

  lemma VisibleHolds<T>(s: Slot<T>)
    requires Visible(s).Some?
    ensures Holds(s, Visible(s).value)
  {}

  // ----- the same disk with other contents -----

  function MapOption<T, U>(f: T -> U, o: Option<T>): Option<U> {
    match o
    case Some(v) => Some(f(v))
    case None => None
  }

  function MapSlot<T, U>(f: T -> U, s: Slot<T>): Slot<U> {
    Slot(MapOption(f, s.durable), seq(|s.pending|, i requires 0 <= i < |s.pending| => f(s.pending[i])))
  }

  function MapDisk<T, U>(f: T -> U, d: Disk<T>): Disk<U> {
    Disk(MapSlot(f, d.primary), MapSlot(f, d.backup))
  }

  lemma MapVisible<T, U>(f: T -> U, s: Slot<T>)
    ensures Visible(MapSlot(f, s)) == MapOption(f, Visible(s))
  {}

  lemma MapRenamed<T, U>(f: T -> U, s: Slot<T>, v: T)
    ensures MapSlot(f, Renamed(s, v)) == Renamed(MapSlot(f, s), f(v))
  {}

  lemma MapSynced<T, U>(f: T -> U, s: Slot<T>)
    ensures MapSlot(f, Synced(s)) == Synced(MapSlot(f, s))
  {}

  /** A commit does not look into the files. */
  lemma MapStage<T, U>(f: T -> U, d: Disk<T>, v: T, k: nat)
    requires k <= 4
    ensures MapDisk(f, Stage(d, v, k)) == Stage(MapDisk(f, d), f(v), k)
  {
    hide MapSlot, Renamed, Synced;
    MapSynced(f, d.primary);
    MapRenamed(f, d.backup, v);
    MapRenamed(f, Synced(d.primary), v);
    MapFresh(f, v);
  }

  lemma MapFresh<T, U>(f: T -> U, v: T)
    ensures MapSlot(f, Slot(Some(v), [])) == Slot(Some(f(v)), [])
  {}

  /** Nor does a power loss. */
  lemma MapPossible<T, U>(f: T -> U, s: Slot<T>, o: Option<T>)
    requires Possible(s, o)
    ensures Possible(MapSlot(f, s), MapOption(f, o))
  {
    if o != s.durable {
      var i :| 0 <= i < |s.pending| && s.pending[i] == o.value;
      assert MapSlot(f, s).pending[i] == f(o.value);
    }
  }

  lemma MapFound<T, U>(f: T -> U, o: Option<T>)
    ensures MapSlot(f, Slot(o, [])) == Slot(MapOption(f, o), [])
  {}

  // ----- opening -----

  /** `open_copy`; the argument is the file, if there is one. */
  function OpenCopy(lib: Library, passphrase: seq<Byte>, file: Option<seq<Byte>>): Option<UnlockedVault> {
    if file.None? || |file.value| > MAX_VAULT_FILE_BYTES then None
    else
      match Unlock(lib, file.value, passphrase)
      case Ok(v) => Some(v)
      case Err(_) => None
  }

  datatype VaultOpen =
    | Primary(vault: UnlockedVault, newerBackup: Option<UnlockedVault>)
    | RestoreRequired(backup: UnlockedVault)

  /** The final match of `VaultStore::open`. */
  function Choose(primary: Option<UnlockedVault>, backup: Option<UnlockedVault>): Result<VaultOpen> {
    match (primary, backup)
    case (Some(v), Some(b)) =>
      Ok(Primary(v, if b.payload.vaultId == v.payload.vaultId && b.payload.revision > v.payload.revision then Some(b) else None))
    case (Some(v), None) => Ok(Primary(v, None))
    case (None, Some(b)) => Ok(RestoreRequired(b))
    case (None, None) => Err(VaultUnavailable)
  }

  // ----- committing -----

  /** How the directory sync went. A failure may be reported although the sync took effect. */
  datatype Sync = Done | Lost | DoneButReported

  /** What the file system does to one commit: whether each write succeeds and what it really stores,
      whether the candidates can be read back, and how the renames and syncs go. */
  datatype Faults = Faults(
    wrote: (bool, bool), stored: (seq<Byte>, seq<Byte>), readBack: (bool, bool),
    renamed: (bool, bool), sync: (Sync, Sync))

  /** Both candidates were written and read back as what was to be written. */
  predicate BothPrepared(f: Faults, encrypted: seq<Byte>) {
    f.wrote == (true, true) && f.stored == (encrypted, encrypted) && f.readBack == (true, true)
  }

  /** Nothing went wrong. */
  predicate Healthy(f: Faults, encrypted: seq<Byte>) {
    BothPrepared(f, encrypted) && f.renamed == (true, true) && f.sync == (Done, Done)
  }

  /** How many of the four effects a commit has; the first thing that goes wrong ends it. */
  function Effects(f: Faults, encrypted: seq<Byte>): (k: nat)
    ensures k <= 4 && (Healthy(f, encrypted) ==> k == 4)
  {
    if !BothPrepared(f, encrypted) || !f.renamed.0 then 0
    else if f.sync.0.Lost? then 1
    else if f.sync.0.DoneButReported? || !f.renamed.1 then 2
    else if f.sync.1.Lost? then 3
    else 4
  }

  class VaultStore {
    var disk: Disk<seq<Byte>>
    /** Candidate files, by the random number in their name. */
    var candidates: map<nat, seq<Byte>>

    constructor (disk: Disk<seq<Byte>>)
      ensures this.disk == disk && candidates == map[]
    {
      this.disk := disk;
      candidates := map[];
    }

    /** `write_candidate` */
    method WriteCandidate(path: nat, ok: bool, stored: seq<Byte>) returns (r: Result<()>)
      modifies this`candidates
      ensures r == if ok && path !in old(candidates) then Ok(()) else Err(StorageFailure)
      ensures candidates == if path in old(candidates) then old(candidates) else old(candidates)[path := stored]
    {
      if path in candidates { return Err(StorageFailure); }
      candidates := candidates[path := stored];
      return if ok then Ok(()) else Err(StorageFailure);
    }

    /** `verify_candidate` */
    method VerifyCandidate(path: nat, expected: seq<Byte>, readable: bool) returns (r: Result<()>)
      ensures r == if readable && path in candidates && candidates[path] == expected then Ok(()) else Err(StorageFailure)
    {
      if !readable || path !in candidates { return Err(StorageFailure); }
      return if candidates[path] == expected then Ok(()) else Err(StorageFailure);
    }

    /** `sync_parent` */
    method SyncParent(sync: Sync) returns (r: Result<()>)
      modifies this`disk
      ensures disk == if sync.Lost? then old(disk) else Disk(Synced(old(disk).primary), Synced(old(disk).backup))
      ensures r == if sync.Done? then Ok(()) else Err(StorageFailure)
    {
      if !sync.Lost? { disk := Disk(Synced(disk.primary), Synced(disk.backup)); }
      return if sync.Done? then Ok(()) else Err(StorageFailure);
    }

    /** `atomic_replace` onto the backup. */
    method ReplaceBackup(path: nat, ok: bool) returns (r: Result<()>)
      requires path in candidates
      modifies this
      ensures r == if ok then Ok(()) else Err(StorageFailure)
      ensures ok ==> disk == old(disk).(backup := Renamed(old(disk).backup, old(candidates)[path])) && candidates == old(candidates) - {path}
      ensures !ok ==> disk == old(disk) && candidates == old(candidates)
    {
      if !ok { return Err(StorageFailure); }
      disk := disk.(backup := Renamed(disk.backup, candidates[path]));
      candidates := candidates - {path};
      return Ok(());
    }

    /** `atomic_replace` onto the primary. */
    method ReplacePrimary(path: nat, ok: bool) returns (r: Result<()>)
      requires path in candidates
      modifies this
      ensures r == if ok then Ok(()) else Err(StorageFailure)
      ensures ok ==> disk == old(disk).(primary := Renamed(old(disk).primary, old(candidates)[path])) && candidates == old(candidates) - {path}
      ensures !ok ==> disk == old(disk) && candidates == old(candidates)
    {
      if !ok { return Err(StorageFailure); }
      disk := disk.(primary := Renamed(disk.primary, candidates[path]));
      candidates := candidates - {path};
      return Ok(());
    }

    /** The first half of `commit_encrypted`: both candidates hold what was to be written, or an error. */
    method PrepareCandidates(encrypted: seq<Byte>, first: nat, second: nat, faults: Faults) returns (r: Result<()>)
      requires first != second && first !in candidates && second !in candidates
      modifies this`candidates
      ensures r == if BothPrepared(faults, encrypted) then Ok(()) else Err(StorageFailure)
      ensures r.Ok? ==> candidates == old(candidates)[first := encrypted][second := encrypted]
      ensures candidates - {first, second} == old(candidates)
    {
      r := WriteCandidate(first, faults.wrote.0, faults.stored.0);
      if r.Err? { return; }
      r := WriteCandidate(second, faults.wrote.1, faults.stored.1);
      if r.Err? { return; }
      r := VerifyCandidate(first, encrypted, faults.readBack.0);
      if r.Err? { return; }
      r := VerifyCandidate(second, encrypted, faults.readBack.1);
    }

    /** The second half: backup, sync, primary, sync. */
    method InstallCandidates(encrypted: seq<Byte>, first: nat, second: nat, faults: Faults) returns (r: Result<()>, ghost k: nat)
      requires first != second && first in candidates && second in candidates
      requires candidates[first] == encrypted && candidates[second] == encrypted
      modifies this
      ensures disk == Stage(old(disk), encrypted, k)
      ensures BothPrepared(faults, encrypted) ==>
                && k == Effects(faults, encrypted)
                && r == if Healthy(faults, encrypted) then Ok(()) else Err(StorageFailure)
      ensures k <= 4 && (r.Ok? ==> k == 4 && candidates == old(candidates) - {first} - {second})
      ensures candidates - {first, second} == old(candidates) - {first, second}
    {
      k := 0;
      r := ReplaceBackup(first, faults.renamed.0);
      if r.Err? { return; }
      k := 1;
      r := SyncParent(faults.sync.0);
      if !faults.sync.0.Lost? { k := 2; }
      if r.Err? { return; }
      r := ReplacePrimary(second, faults.renamed.1);
      if r.Err? { return; }
      k := 3;
      r := SyncParent(faults.sync.1);
      if !faults.sync.1.Lost? { k := 4; }
    }

    /** The fallible part of `commit_encrypted`. */
    method TryCommit(encrypted: seq<Byte>, first: nat, second: nat, faults: Faults) returns (r: Result<()>, ghost k: nat)
      requires first != second && first !in candidates && second !in candidates
      modifies this
      ensures k == Effects(faults, encrypted) && disk == Stage(old(disk), encrypted, k)
      ensures r == if Healthy(faults, encrypted) then Ok(()) else Err(StorageFailure)
      ensures r.Ok? ==> first !in candidates && second !in candidates
      ensures candidates - {first, second} == old(candidates)
    {
      hide Visible, Renamed, Synced;
      k := 0;
      r := PrepareCandidates(encrypted, first, second, faults);
      if r.Err? { return; }
      r, k := InstallCandidates(encrypted, first, second, faults);
    }

    /** `commit_encrypted`: it succeeds exactly when nothing goes wrong, and then both copies are what was
        to be written and durable. Otherwise the effects up to the first failure have happened. No
        candidate is left behind. */
    method CommitEncrypted(encrypted: seq<Byte>, first: nat, second: nat, faults: Faults) returns (r: Result<()>, ghost k: nat)
      requires first != second && first !in candidates && second !in candidates
      modifies this
      ensures r == if Healthy(faults, encrypted) then Ok(()) else Err(StorageFailure)
      ensures k == Effects(faults, encrypted) && disk == Stage(old(disk), encrypted, k)
      ensures r.Ok? ==> k == 4 && disk == Disk(Slot(Some(encrypted), []), Slot(Some(encrypted), []))
      ensures candidates == old(candidates)
    {
      r, k := TryCommit(encrypted, first, second, faults);
      if r.Err? {
        candidates := candidates - {first, second};
      } else {
        assert candidates == candidates - {first, second};
      }
    }

    /** `VaultStore::open` */
    method Open(lib: Library, passphrase: seq<Byte>) returns (r: Result<VaultOpen>)
      ensures r == Choose(OpenCopy(lib, passphrase, Visible(disk.primary)), OpenCopy(lib, passphrase, Visible(disk.backup)))
    {
      var primary := OpenCopy(lib, passphrase, Visible(disk.primary));
      var backup := OpenCopy(lib, passphrase, Visible(disk.backup));
      return Choose(primary, backup);
    }
  }
}
