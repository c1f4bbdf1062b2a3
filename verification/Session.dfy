/** An unlocked vault and the edits made to it (vault.rs). */
module Session {
  import opened Bytes
  import opened Utf8
  import opened Model
  import opened Codec
  import opened CodecProofs
  import Crypto

  datatype SecretRef = Name(name: seq<Byte>) | Id(id: seq<Byte>)

  predicate Names(reference: SecretRef, r: Record) {
    match reference
    case Name(name) => r.name == name
    case Id(id) => r.id == id
  }

  /** `find_record_index` */
  function Find(records: seq<Record>, reference: SecretRef): (r: Result<nat>)
    ensures r.Ok? ==> r.value < |records| && Names(reference, records[r.value])
                      && forall i :: 0 <= i < r.value ==> !Names(reference, records[i])
    ensures r.Err? ==> r.error == SecretNotFound && forall i :: 0 <= i < |records| ==> !Names(reference, records[i])
    decreases |records|
  {
    if records == [] then Err(SecretNotFound)
    else if Names(reference, records[0]) then Ok(0)
    else
      match Find(records[1..], reference)
      case Ok(i) =>
        assert forall j :: 0 < j < i + 1 ==> records[j] == records[1..][j - 1];
        Ok(i + 1)
      case Err(e) =>
        assert forall j :: 0 < j < |records| ==> records[j] == records[1..][j - 1];
        Err(e)
  }

  /** A record other than the one at `target` has this name. */
  predicate NameTaken(records: seq<Record>, target: nat, name: seq<Byte>) {
    exists i :: 0 <= i < |records| && i != target && records[i].name == name
  }

  /** `increment_revision`, with the records put in place of the old ones. */
  function Bump(p: Payload, records: seq<Record>): Result<Payload> {
    if p.revision >= U64_MAX then Err(RevisionOverflow)
    else Ok(p.(revision := p.revision + 1, records := records))
  }

  datatype Prepared = Prepared(expectedRevision: nat, targetId: seq<Byte>, replacement: Record)

  datatype Edit =
    | Add(id: seq<Byte>, name: seq<Byte>, fields: seq<Field>)
    | Rename(reference: SecretRef, newName: seq<Byte>)
    | ReplaceFields(reference: SecretRef, fields: seq<Field>)
    | Delete(reference: SecretRef)
    | Apply(prepared: Prepared)

  /** `VaultSession::add`; `id` is the new identifier the record draws. */
  function Added(nfc: Normalizer, p: Payload, id: seq<Byte>, name: seq<Byte>, fields: seq<Field>): Result<Payload> {
    var record :- FromParts(nfc, id, name, fields);
    if NameTaken(p.records, |p.records|, record.name) then Err(DuplicateSecretName)
    else Bump(p, p.records + [record])
  }

  /** `VaultSession::rename` */
  function Renamed(nfc: Normalizer, p: Payload, reference: SecretRef, newName: seq<Byte>): Result<Payload> {
    if ID_PREFIX <= newName then Err(InvalidSecretRef)
    else
      var name :- ParseName(nfc, newName);
      var target :- Find(p.records, reference);
      if NameTaken(p.records, target, name) then Err(DuplicateSecretName)
      else Bump(p, p.records[target := p.records[target].(name := name)])
  }

  /** `VaultSession::replace_fields` */
  function FieldsReplaced(nfc: Normalizer, p: Payload, reference: SecretRef, fields: seq<Field>): Result<Payload> {
    var target :- Find(p.records, reference);
    var record :- FromParts(nfc, p.records[target].id, p.records[target].name, fields);
    Bump(p, p.records[target := record])
  }

  /** `VaultSession::delete` */
  function Deleted(p: Payload, reference: SecretRef): Result<Payload> {
    var target :- Find(p.records, reference);
    Bump(p, p.records[..target] + p.records[target + 1..])
  }

  /** `prepare_record_replacement` */
  function Prepare(nfc: Normalizer, p: Payload, reference: SecretRef, newName: seq<Byte>, fields: seq<Field>): Result<Prepared> {
    var target :- Find(p.records, reference);
    var replacement :- FromParts(nfc, p.records[target].id, newName, fields);
    if NameTaken(p.records, target, replacement.name) then Err(DuplicateSecretName)
    else Ok(Prepared(p.revision, p.records[target].id, replacement))
  }

  /** `apply_record_replacement` */
  function Applied(p: Payload, prepared: Prepared): Result<Payload> {
    if p.revision != prepared.expectedRevision then Err(InvalidRequest)
    else
      var target :- Find(p.records, Id(prepared.targetId));
      Bump(p, p.records[target := prepared.replacement])
  }

  function Edited(nfc: Normalizer, p: Payload, edit: Edit): Result<Payload> {
    match edit
    case Add(id, name, fields) => Added(nfc, p, id, name, fields)
    case Rename(reference, newName) => Renamed(nfc, p, reference, newName)
    case ReplaceFields(reference, fields) => FieldsReplaced(nfc, p, reference, fields)
    case Delete(reference) => Deleted(p, reference)
    case Apply(prepared) => Applied(p, prepared)
  }

  // ----- what an edit comes to, said without the way it is computed -----

  /** The record at `i` is the first one the reference names. */
  predicate FirstNamed(records: seq<Record>, reference: SecretRef, i: nat) {
    i < |records| && Names(reference, records[i]) && forall j :: 0 <= j < i ==> !Names(reference, records[j])
  }

  /** A record may have these fields. */
  predicate FieldsFit(fields: seq<Field>) { 1 <= |fields| <= 64 && DistinctFields(fields) }

  /** Nobody else has the name. */
  predicate NameFree(records: seq<Record>, i: nat, name: seq<Byte>) {
    forall j :: 0 <= j < |records| && j != i ==> records[j].name != name
  }

  /** The prepared edit is for the record named, at the revision shown, and carries the new name in its
      normal form and the new fields. */
  ghost predicate Prepares(nfc: Normalizer, p: Payload, reference: SecretRef, newName: seq<Byte>, fields: seq<Field>, q: Prepared) {
    exists i: nat :: FirstNamed(p.records, reference, i) && FieldsFit(fields)
                && ParseName(nfc, newName).Ok? && NameFree(p.records, i, ParseName(nfc, newName).value)
                && q == Prepared(p.revision, p.records[i].id, Record(p.records[i].id, ParseName(nfc, newName).value, fields))
  }

  lemma FromPartsExactly(nfc: Normalizer, id: seq<Byte>, name: seq<Byte>, fields: seq<Field>)
    ensures FromParts(nfc, id, name, fields).Ok? <==> FieldsFit(fields) && ParseName(nfc, name).Ok?
    ensures FromParts(nfc, id, name, fields).Ok? ==>
              FromParts(nfc, id, name, fields).value == Record(id, ParseName(nfc, name).value, fields)
  {
    hide ParseName, DistinctFields;
  }

  lemma FindExactly(records: seq<Record>, reference: SecretRef, i: nat)
    ensures Find(records, reference) == Ok(i) <==> FirstNamed(records, reference, i)
  {
    hide Names;
  }

  lemma NameFreeExactly(records: seq<Record>, i: nat, name: seq<Byte>)
    ensures NameTaken(records, i, name) <==> !NameFree(records, i, name)
  {}

  lemma FindMeans(records: seq<Record>, reference: SecretRef)
    ensures forall i: nat :: Find(records, reference) == Ok(i) <==> FirstNamed(records, reference, i)
    ensures Find(records, reference).Ok? <==> exists i: nat :: FirstNamed(records, reference, i)
  {
    hide FirstNamed;
    forall i: nat ensures Find(records, reference) == Ok(i) <==> FirstNamed(records, reference, i) { FindExactly(records, reference, i); }
    if Find(records, reference).Ok? { assert FirstNamed(records, reference, Find(records, reference).value); }
  }

  lemma PrepareExactly(nfc: Normalizer, p: Payload, reference: SecretRef, newName: seq<Byte>, fields: seq<Field>, q: Prepared)
    ensures Prepare(nfc, p, reference, newName, fields) == Ok(q) <==> Prepares(nfc, p, reference, newName, fields, q)
  {
    hide Find, FirstNamed, FieldsFit, ParseName, FromParts, NameTaken, NameFree;
    FindMeans(p.records, reference);
    if Find(p.records, reference).Ok? {
      var i := Find(p.records, reference).value;
      FromPartsExactly(nfc, p.records[i].id, newName, fields);
      if ParseName(nfc, newName).Ok? { NameFreeExactly(p.records, i, ParseName(nfc, newName).value); }
    }
  }

  /** The payload after a change of the records. */
  predicate MovesTo(p: Payload, records: seq<Record>, q: Payload) {
    p.revision < U64_MAX && q == Payload(p.vaultId, p.revision + 1, records, p.idleTimeoutSeconds, p.unknown)
  }

  /** The edit of `p` succeeds and leads to `q`. */
  ghost predicate EditsTo(nfc: Normalizer, p: Payload, edit: Edit, q: Payload) {
    match edit
    case Add(id, name, fields) =>
      && FieldsFit(fields) && ParseName(nfc, name).Ok? && NameFree(p.records, |p.records|, ParseName(nfc, name).value)
      && MovesTo(p, p.records + [Record(id, ParseName(nfc, name).value, fields)], q)
    case Rename(reference, newName) =>
      && !(ID_PREFIX <= newName) && ParseName(nfc, newName).Ok?
      && exists i: nat :: FirstNamed(p.records, reference, i) && NameFree(p.records, i, ParseName(nfc, newName).value)
           && MovesTo(p, p.records[i := Record(p.records[i].id, ParseName(nfc, newName).value, p.records[i].fields)], q)
    case ReplaceFields(reference, fields) =>
      && FieldsFit(fields)
      && exists i: nat :: FirstNamed(p.records, reference, i) && MovesTo(p, p.records[i := Record(p.records[i].id, p.records[i].name, fields)], q)
    case Delete(reference) =>
      exists i: nat :: FirstNamed(p.records, reference, i) && MovesTo(p, p.records[..i] + p.records[i + 1..], q)
    case Apply(prepared) =>
      && p.revision == prepared.expectedRevision
      && exists i: nat :: FirstNamed(p.records, Id(prepared.targetId), i) && MovesTo(p, p.records[i := prepared.replacement], q)
  }

  // ----- what the types of the arguments guarantee -----

  predicate FieldsOk(fields: seq<Field>) { forall i :: 0 <= i < |fields| ==> FieldOk(fields[i]) }

  /** The prepared edit was made from `p`. */
  ghost predicate PreparedFrom(nfc: Normalizer, p: Payload, prepared: Prepared) {
    exists reference, newName, fields ::
      WellFormed(newName) && FieldsOk(fields) && Prepare(nfc, p, reference, newName, fields) == Ok(prepared)
  }

  /** Arguments are text and checked fields, a new id is unused, and a vector never holds 2^64 records. */
  ghost predicate EditOk(nfc: Normalizer, p: Payload, edit: Edit) {
    match edit
    case Add(id, name, fields) =>
      && |id| == 16 && (forall i :: 0 <= i < |p.records| ==> p.records[i].id != id)
      && WellFormed(name) && FieldsOk(fields) && |p.records| < U64_MAX
    case Rename(_, newName) => WellFormed(newName)
    case ReplaceFields(_, fields) => FieldsOk(fields)
    case Delete(_) => true
    case Apply(prepared) => p.revision == prepared.expectedRevision ==> PreparedFrom(nfc, p, prepared)
  }

  // ----- every edit keeps a payload well formed -----

  lemma FromPartsIsOk(nfc: Normalizer, id: seq<Byte>, name: seq<Byte>, fields: seq<Field>)
    requires IdealNormalizer(nfc) && |id| == 16 && WellFormed(name) && FieldsOk(fields)
    requires FromParts(nfc, id, name, fields).Ok?
    ensures RecordOk(nfc, FromParts(nfc, id, name, fields).value)
  {
    hide IdealNormalizer, WellFormed, ParseName, NameOk, FieldOk, DistinctFields;
    ParsedNameIsOk(nfc, name);
  }

  /** Putting a well-formed record in place of one with the same id keeps ids and names unique when
      no other record has its name. */
  lemma ReplaceKeeps(nfc: Normalizer, p: Payload, target: nat, record: Record)
    requires PayloadOk(nfc, p) && target < |p.records| && RecordOk(nfc, record)
    requires record.id == p.records[target].id && !NameTaken(p.records, target, record.name)
    ensures Bump(p, p.records[target := record]).Ok? ==> PayloadOk(nfc, Bump(p, p.records[target := record]).value)
  {
    hide RecordOk, UnknownOk;
  }

  lemma AddKeeps(nfc: Normalizer, p: Payload, record: Record)
    requires PayloadOk(nfc, p) && RecordOk(nfc, record) && |p.records| < U64_MAX
    requires forall i :: 0 <= i < |p.records| ==> p.records[i].id != record.id
    requires !NameTaken(p.records, |p.records|, record.name)
    ensures Bump(p, p.records + [record]).Ok? ==> PayloadOk(nfc, Bump(p, p.records + [record]).value)
  {
    hide RecordOk, UnknownOk;
  }

  lemma DeleteKeeps(nfc: Normalizer, p: Payload, target: nat)
    requires PayloadOk(nfc, p) && target < |p.records|
    ensures var rest := p.records[..target] + p.records[target + 1..];
            Bump(p, rest).Ok? ==> PayloadOk(nfc, Bump(p, rest).value)
  {
    hide RecordOk, UnknownOk;
  }

  lemma RenamedRecordIsOk(nfc: Normalizer, r: Record, name: seq<Byte>)
    requires IdealNormalizer(nfc) && RecordOk(nfc, r) && WellFormed(name) && ParseName(nfc, name).Ok?
    ensures RecordOk(nfc, r.(name := ParseName(nfc, name).value))
  {
    hide IdealNormalizer, WellFormed, ParseName, NameOk, FieldOk, DistinctFields;
    ParsedNameIsOk(nfc, name);
  }

  /** A name already in a record is parsed to itself. */
  lemma NameIsStable(nfc: Normalizer, r: Record)
    requires RecordOk(nfc, r)
    ensures WellFormed(r.name) && ParseName(nfc, r.name) == Ok(r.name)
  {
    hide WellFormed, ParseName, FieldOk, DistinctFields;
  }

  lemma OwnNameIsFree(nfc: Normalizer, p: Payload, target: nat)
    requires PayloadOk(nfc, p) && target < |p.records|
    ensures !NameTaken(p.records, target, p.records[target].name)
  {
    hide RecordOk, UnknownOk;
  }

  lemma ApplyKeeps(nfc: Normalizer, p: Payload, prepared: Prepared)
    requires IdealNormalizer(nfc) && PayloadOk(nfc, p) && PreparedFrom(nfc, p, prepared) && Applied(p, prepared).Ok?
    ensures PayloadOk(nfc, Applied(p, prepared).value)
  {
    hide IdealNormalizer, WellFormed, RecordOk, FromParts, UnknownOk;
    var reference, newName, fields :|
      WellFormed(newName) && FieldsOk(fields) && Prepare(nfc, p, reference, newName, fields) == Ok(prepared);
    var target := Find(p.records, reference).value;
    RecordIdLength(nfc, p.records[target]);
    FromPartsIsOk(nfc, p.records[target].id, newName, fields);
    assert Find(p.records, Id(prepared.targetId)) == Ok(target) by {
      assert Names(Id(prepared.targetId), p.records[target]);
    }
    ReplaceKeeps(nfc, p, target, prepared.replacement);
  }

  lemma RecordIdLength(nfc: Normalizer, r: Record)
    requires RecordOk(nfc, r)
    ensures |r.id| == 16
  {}

  /** Every edit either fails or raises the revision by exactly one, leaves everything but the records
      alone, and keeps the payload well formed: ids unique, names unique. */
  lemma EditKeeps(nfc: Normalizer, p: Payload, edit: Edit)
    requires IdealNormalizer(nfc) && PayloadOk(nfc, p) && EditOk(nfc, p, edit) && Edited(nfc, p, edit).Ok?
    ensures var q := Edited(nfc, p, edit).value;
            PayloadOk(nfc, q) && q == p.(revision := p.revision + 1, records := q.records) && |q.records| <= |p.records| + 1
  {
    hide IdealNormalizer, WellFormed, RecordOk, FromParts, ParseName, PayloadOk, FieldsOk, PreparedFrom, NameTaken;
    RecordsAreOk(nfc, p);
    match edit
    case Add(id, name, fields) =>
      FromPartsIsOk(nfc, id, name, fields);
      AddKeeps(nfc, p, FromParts(nfc, id, name, fields).value);
    case Rename(reference, newName) =>
      var target := Find(p.records, reference).value;
      RenamedRecordIsOk(nfc, p.records[target], newName);
      ReplaceKeeps(nfc, p, target, p.records[target].(name := ParseName(nfc, newName).value));
    case ReplaceFields(reference, fields) =>
      var target := Find(p.records, reference).value;
      var current := p.records[target];
      NameIsStable(nfc, current);
      RecordIdLength(nfc, current);
      FromPartsIsOk(nfc, current.id, current.name, fields);
      OwnNameIsFree(nfc, p, target);
      ReplaceKeeps(nfc, p, target, FromParts(nfc, current.id, current.name, fields).value);
    case Delete(reference) =>
      DeleteKeeps(nfc, p, Find(p.records, reference).value);
    case Apply(prepared) =>
      ApplyKeeps(nfc, p, prepared);
  }

  /** How many records an edit leaves. */
  lemma EditCounts(nfc: Normalizer, p: Payload, edit: Edit)
    requires Edited(nfc, p, edit).Ok?
    ensures |Edited(nfc, p, edit).value.records| == if edit.Add? then |p.records| + 1 else if edit.Delete? then |p.records| - 1 else |p.records|
  {
    hide FromParts, ParseName, NameTaken;
  }

  lemma RecordsAreOk(nfc: Normalizer, p: Payload)
    requires PayloadOk(nfc, p)
    ensures forall i :: 0 <= i < |p.records| ==> RecordOk(nfc, p.records[i])
  {
    hide RecordOk, UnknownOk;
  }

  // ----- what an edit means: the records as a map by id -----

  ghost function ById(records: seq<Record>): map<seq<Byte>, Record>
    requires DistinctRecords(records)
  {
    map r | r in records :: r.id := r
  }

  lemma SameMap(records: seq<Record>, m: map<seq<Byte>, Record>)
    requires DistinctRecords(records)
    requires forall id :: id in m ==> m[id].id == id && m[id] in records
    requires forall r :: r in records ==> r.id in m
    ensures ById(records) == m
  {
    var b := ById(records);
    forall id | id in m ensures id in b && b[id] == m[id] {
      assert m[id] in records;
    }
    forall id | id in b ensures id in m {}
    assert b.Keys == m.Keys;
  }

  lemma UpdateMap(records: seq<Record>, target: nat, record: Record)
    requires DistinctRecords(records) && target < |records| && record.id == records[target].id
    requires DistinctRecords(records[target := record])
    ensures ById(records[target := record]) == ById(records)[record.id := record]
  {
    var m := ById(records)[record.id := record];
    var after := records[target := record];
    assert after[target] == record;
    forall id | id in m ensures m[id].id == id && m[id] in after {
      if id != record.id {
        var i :| 0 <= i < |records| && records[i] == m[id];
        assert after[i] == m[id];
      }
    }
    SameMap(after, m);
  }

  lemma RemovedRecords(records: seq<Record>, target: nat, r: Record)
    requires DistinctRecords(records) && target < |records|
    ensures r in records[..target] + records[target + 1..] <==> r in records && r.id != records[target].id
  {
    var after := records[..target] + records[target + 1..];
    if r in after {
      var i :| 0 <= i < |after| && after[i] == r;
      assert r == records[if i < target then i else i + 1];
    }
    if r in records && r.id != records[target].id {
      var i :| 0 <= i < |records| && records[i] == r;
      assert after[if i < target then i else i - 1] == r;
    }
  }

  lemma RemoveMap(records: seq<Record>, target: nat)
    requires DistinctRecords(records) && target < |records|
    requires DistinctRecords(records[..target] + records[target + 1..])
    ensures ById(records[..target] + records[target + 1..]) == ById(records) - {records[target].id}
  {
    var after := records[..target] + records[target + 1..];
    var m := ById(records) - {records[target].id};
    forall r: Record ensures r in after <==> r in records && r.id != records[target].id {
      RemovedRecords(records, target, r);
    }
    hide DistinctRecords;
    SameMap(after, m);
  }

  lemma AppendMap(records: seq<Record>, record: Record)
    requires DistinctRecords(records) && DistinctRecords(records + [record])
    ensures ById(records + [record]) == ById(records)[record.id := record]
  {
    var after, m := records + [record], ById(records)[record.id := record];
    assert after[|records|] == record;
    forall id | id in m ensures m[id].id == id && m[id] in after {
      if id != record.id {
        var i :| 0 <= i < |records| && records[i] == m[id];
        assert after[i] == m[id];
      }
    }
    SameMap(after, m);
  }

  /** The record a reference names. */
  ghost predicate Refers(m: map<seq<Byte>, Record>, reference: SecretRef, id: seq<Byte>) {
    id in m && Names(reference, m[id])
  }

  /** What an edit does to the records, seen as a map from ids: it adds, changes or removes one entry. */
  ghost predicate Means(nfc: Normalizer, m: map<seq<Byte>, Record>, m': map<seq<Byte>, Record>, edit: Edit) {
    match edit
    case Add(id, name, fields) => id !in m && ParseName(nfc, name).Ok? && m' == m[id := Record(id, ParseName(nfc, name).value, fields)]
    case Rename(reference, newName) =>
      ParseName(nfc, newName).Ok? && exists id :: Refers(m, reference, id) && m' == m[id := Record(id, ParseName(nfc, newName).value, m[id].fields)]
    case ReplaceFields(reference, fields) => exists id :: Refers(m, reference, id) && m' == m[id := Record(id, m[id].name, fields)]
    case Delete(reference) => exists id :: Refers(m, reference, id) && m' == m - {id}
    case Apply(prepared) => prepared.targetId in m && m' == m[prepared.targetId := prepared.replacement]
  }

  lemma RecordInMap(records: seq<Record>, i: nat)
    requires DistinctRecords(records) && i < |records|
    ensures records[i].id in ById(records) && ById(records)[records[i].id] == records[i]
  {
    assert records[i] in records;
  }

  lemma AddMeans(nfc: Normalizer, p: Payload, id: seq<Byte>, name: seq<Byte>, fields: seq<Field>)
    requires DistinctRecords(p.records) && Added(nfc, p, id, name, fields).Ok?
    requires forall i :: 0 <= i < |p.records| ==> p.records[i].id != id
    requires DistinctRecords(Added(nfc, p, id, name, fields).value.records)
    ensures Means(nfc, ById(p.records), ById(Added(nfc, p, id, name, fields).value.records), Add(id, name, fields))
  {
    hide ParseName, NameTaken, DistinctRecords, FromParts;
    AppendMap(p.records, FromParts(nfc, id, name, fields).value);
    AddIsNamed(nfc, id, name, fields);
  }

  lemma RenameMeans(nfc: Normalizer, p: Payload, reference: SecretRef, newName: seq<Byte>)
    requires DistinctRecords(p.records) && Renamed(nfc, p, reference, newName).Ok?
    requires DistinctRecords(Renamed(nfc, p, reference, newName).value.records)
    ensures Means(nfc, ById(p.records), ById(Renamed(nfc, p, reference, newName).value.records), Rename(reference, newName))
  {
    hide ParseName, NameTaken, DistinctRecords, ById;
    var target := Find(p.records, reference).value;
    RecordInMap(p.records, target);
    UpdateMap(p.records, target, p.records[target].(name := ParseName(nfc, newName).value));
    assert Refers(ById(p.records), reference, p.records[target].id);
  }

  lemma ReplaceMeans(nfc: Normalizer, p: Payload, reference: SecretRef, fields: seq<Field>)
    requires PayloadOk(nfc, p) && FieldsReplaced(nfc, p, reference, fields).Ok?
    requires DistinctRecords(FieldsReplaced(nfc, p, reference, fields).value.records)
    ensures Means(nfc, ById(p.records), ById(FieldsReplaced(nfc, p, reference, fields).value.records), ReplaceFields(reference, fields))
  {
    hide ParseName, NameTaken, DistinctRecords, ById, FromParts, RecordOk, UnknownOk;
    var target := Find(p.records, reference).value;
    var current := p.records[target];
    NameIsStable(nfc, current);
    AddIsNamed(nfc, current.id, current.name, fields);
    RecordInMap(p.records, target);
    UpdateMap(p.records, target, FromParts(nfc, current.id, current.name, fields).value);
    assert Refers(ById(p.records), reference, current.id);
  }

  lemma DeleteMeans(nfc: Normalizer, p: Payload, reference: SecretRef)
    requires DistinctRecords(p.records) && Deleted(p, reference).Ok?
    requires DistinctRecords(Deleted(p, reference).value.records)
    ensures Means(nfc, ById(p.records), ById(Deleted(p, reference).value.records), Delete(reference))
  {
    hide DistinctRecords, ById;
    var target := Find(p.records, reference).value;
    RecordInMap(p.records, target);
    RemoveMap(p.records, target);
    assert Refers(ById(p.records), reference, p.records[target].id);
  }

  lemma ApplyMeans(nfc: Normalizer, p: Payload, prepared: Prepared)
    requires DistinctRecords(p.records) && PreparedFrom(nfc, p, prepared) && Applied(p, prepared).Ok?
    requires DistinctRecords(Applied(p, prepared).value.records)
    ensures Means(nfc, ById(p.records), ById(Applied(p, prepared).value.records), Apply(prepared))
  {
    hide DistinctRecords, ById, PreparedFrom;
    var target := Find(p.records, Id(prepared.targetId)).value;
    PreparedKeepsId(nfc, p, prepared);
    RecordInMap(p.records, target);
    UpdateMap(p.records, target, prepared.replacement);
  }

  /** Every successful edit means what its name says. */
  lemma EditMeans(nfc: Normalizer, p: Payload, edit: Edit)
    requires IdealNormalizer(nfc) && PayloadOk(nfc, p) && EditOk(nfc, p, edit) && Edited(nfc, p, edit).Ok?
    ensures DistinctRecords(p.records) && DistinctRecords(Edited(nfc, p, edit).value.records)
    ensures Means(nfc, ById(p.records), ById(Edited(nfc, p, edit).value.records), edit)
  {
    hide IdealNormalizer, WellFormed, PayloadOk, FieldsOk, PreparedFrom, DistinctRecords, ById, Means, Added, Renamed, FieldsReplaced, Deleted;
    EditKeeps(nfc, p, edit);
    OkIsDistinct(nfc, p);
    OkIsDistinct(nfc, Edited(nfc, p, edit).value);
    match edit
    case Add(id, name, fields) => AddMeans(nfc, p, id, name, fields);
    case Rename(reference, newName) => RenameMeans(nfc, p, reference, newName);
    case ReplaceFields(reference, fields) => ReplaceMeans(nfc, p, reference, fields);
    case Delete(reference) => DeleteMeans(nfc, p, reference);
    case Apply(prepared) => ApplyMeans(nfc, p, prepared);
  }

  lemma OkIsDistinct(nfc: Normalizer, p: Payload)
    requires PayloadOk(nfc, p)
    ensures DistinctRecords(p.records)
  {}

  lemma AddIsNamed(nfc: Normalizer, id: seq<Byte>, name: seq<Byte>, fields: seq<Field>)
    requires FromParts(nfc, id, name, fields).Ok?
    ensures ParseName(nfc, name).Ok? && FromParts(nfc, id, name, fields).value == Record(id, ParseName(nfc, name).value, fields)
  {
    hide ParseName;
  }

  lemma PreparedKeepsId(nfc: Normalizer, p: Payload, prepared: Prepared)
    requires PreparedFrom(nfc, p, prepared)
    ensures prepared.replacement.id == prepared.targetId
  {
    hide WellFormed, ParseName;
  }

  // ----- the session -----

  /** `q` is later than `p`, or the same. */
  predicate NotBelow(q: Payload, p: Payload) { p.revision < q.revision || p == q }

  /** Revisions only ever go up, and payloads at the same revision are the same. */
  predicate Rising(history: seq<Payload>) {
    forall i, j :: 0 <= i < j < |history| ==> NotBelow(history[j], history[i])
  }

  /** The edit was prepared from one of these payloads. */
  ghost predicate PreparedIn(nfc: Normalizer, history: seq<Payload>, prepared: Prepared) {
    exists i :: 0 <= i < |history| && PreparedFrom(nfc, history[i], prepared)
  }

  /** An edit prepared from any earlier payload, found at an equal revision, was prepared from the very
      payload it is applied to. So names stay unique though nothing checks them again. */
  lemma PreparedIsCurrent(nfc: Normalizer, history: seq<Payload>, p: Payload, prepared: Prepared)
    requires history != [] && history[|history| - 1] == p && Rising(history)
    requires PreparedIn(nfc, history, prepared) && prepared.expectedRevision == p.revision
    ensures PreparedFrom(nfc, p, prepared)
  {
    hide WellFormed, FromParts;
    var i :| 0 <= i < |history| && PreparedFrom(nfc, history[i], prepared);
    assert history[i].revision == prepared.expectedRevision;
  }

  /** The outcome of one edit: all of the new payload on success, nothing changed on failure. */
  ghost predicate Did(nfc: Normalizer, edit: Edit, r: Result<()>, before: Crypto.UnlockedVault, past: seq<Payload>, after: Crypto.UnlockedVault, history: seq<Payload>) {
    match Edited(nfc, before.payload, edit)
    case Err(e) => r == Err(e) && after == before && history == past
    case Ok(p) => r == Ok(()) && after == before.(payload := p) && history == past + [p]
  }

  class VaultSession {
    const nfc: Normalizer
    var vault: Crypto.UnlockedVault
    /** Every payload shown since the process started, in this session or an earlier one, the current one
        last. */
    ghost var history: seq<Payload>

    ghost predicate Valid() reads this`vault, this`history {
      && IdealNormalizer(nfc) && PayloadOk(nfc, vault.payload)
      && history != [] && history[|history| - 1] == vault.payload && Rising(history)
    }

    constructor (nfc: Normalizer, vault: Crypto.UnlockedVault, ghost past: seq<Payload>)
      requires IdealNormalizer(nfc) && PayloadOk(nfc, vault.payload) && Rising(past + [vault.payload])
      ensures Valid() && this.nfc == nfc && this.vault == vault && history == past + [vault.payload]
    {
      this.nfc := nfc;
      this.vault := vault;
      history := past + [vault.payload];
    }

    method Put(ghost edit: Edit, records: seq<Record>) returns (r: Result<()>)
      requires Valid() && EditOk(nfc, vault.payload, edit) && Edited(nfc, vault.payload, edit) == Bump(vault.payload, records)
      modifies this
      ensures Valid() && Did(nfc, edit, r, old(vault), old(history), vault, history)
    {
      hide PayloadOk, EditOk, Edited, IdealNormalizer;
      if vault.payload.revision >= U64_MAX { return Err(RevisionOverflow); }
      EditKeeps(nfc, vault.payload, edit);
      vault := vault.(payload := vault.payload.(revision := vault.payload.revision + 1, records := records));
      history := history + [vault.payload];
      return Ok(());
    }

    method Add(name: seq<Byte>, fields: seq<Field>, id: seq<Byte>) returns (r: Result<()>)
      requires Valid() && EditOk(nfc, vault.payload, Edit.Add(id, name, fields))
      modifies this
      ensures Valid() && Did(nfc, Edit.Add(id, name, fields), r, old(vault), old(history), vault, history)
    {
      hide PayloadOk, EditOk, FromParts, IdealNormalizer, Rising;
      var record :- FromParts(nfc, id, name, fields);
      if NameTaken(vault.payload.records, |vault.payload.records|, record.name) { return Err(DuplicateSecretName); }
      r := Put(Edit.Add(id, name, fields), vault.payload.records + [record]);
    }

    method Rename(reference: SecretRef, newName: seq<Byte>) returns (r: Result<()>)
      requires Valid() && WellFormed(newName)
      modifies this
      ensures Valid() && Did(nfc, Edit.Rename(reference, newName), r, old(vault), old(history), vault, history)
    {
      hide PayloadOk, ParseName, IdealNormalizer, Rising, WellFormed;
      if ID_PREFIX <= newName { return Err(InvalidSecretRef); }
      var name :- ParseName(nfc, newName);
      var records := vault.payload.records;
      var target :- Find(records, reference);
      if NameTaken(records, target, name) { return Err(DuplicateSecretName); }
      r := Put(Edit.Rename(reference, newName), records[target := records[target].(name := name)]);
    }

    method ReplaceFields(reference: SecretRef, fields: seq<Field>) returns (r: Result<()>)
      requires Valid() && FieldsOk(fields)
      modifies this
      ensures Valid() && Did(nfc, Edit.ReplaceFields(reference, fields), r, old(vault), old(history), vault, history)
    {
      hide PayloadOk, FromParts, IdealNormalizer, Rising, FieldsOk;
      var records := vault.payload.records;
      var target :- Find(records, reference);
      var record :- FromParts(nfc, records[target].id, records[target].name, fields);
      r := Put(Edit.ReplaceFields(reference, fields), records[target := record]);
    }

    method Delete(reference: SecretRef) returns (r: Result<()>)
      requires Valid()
      modifies this
      ensures Valid() && Did(nfc, Edit.Delete(reference), r, old(vault), old(history), vault, history)
    {
      hide PayloadOk, IdealNormalizer, Rising;
      var records := vault.payload.records;
      var target :- Find(records, reference);
      r := Put(Edit.Delete(reference), records[..target] + records[target + 1..]);
    }

    method PrepareRecordReplacement(reference: SecretRef, newName: seq<Byte>, fields: seq<Field>) returns (r: Result<Prepared>)
      requires Valid() && WellFormed(newName) && FieldsOk(fields)
      ensures r == Prepare(nfc, vault.payload, reference, newName, fields)
      ensures r.Ok? ==> PreparedIn(nfc, history, r.value)
      ensures forall q :: r == Ok(q) <==> Prepares(nfc, vault.payload, reference, newName, fields, q)
    {
      hide PayloadOk, IdealNormalizer, Rising, FromParts, WellFormed, FieldsOk, Prepares;
      forall q ensures Prepare(nfc, vault.payload, reference, newName, fields) == Ok(q) <==> Prepares(nfc, vault.payload, reference, newName, fields, q) {
        PrepareExactly(nfc, vault.payload, reference, newName, fields, q);
      }
      var records := vault.payload.records;
      var target :- Find(records, reference);
      var replacement :- FromParts(nfc, records[target].id, newName, fields);
      if NameTaken(records, target, replacement.name) { return Err(DuplicateSecretName); }
      assert Prepare(nfc, vault.payload, reference, newName, fields) == Ok(Prepared(vault.payload.revision, records[target].id, replacement));
      assert PreparedFrom(nfc, history[|history| - 1], Prepared(vault.payload.revision, records[target].id, replacement));
      return Ok(Prepared(vault.payload.revision, records[target].id, replacement));
    }

    /** Takes an edit prepared from any payload shown since the process started. */
    method ApplyRecordReplacement(prepared: Prepared) returns (r: Result<()>)
      requires Valid() && PreparedIn(nfc, history, prepared)
      modifies this
      ensures Valid() && Did(nfc, Edit.Apply(prepared), r, old(vault), old(history), vault, history)
    {
      hide PayloadOk, IdealNormalizer, Rising, PreparedIn, PreparedFrom;
      var records := vault.payload.records;
      if vault.payload.revision != prepared.expectedRevision { return Err(InvalidRequest); }
      PreparedIsCurrent(nfc, history, vault.payload, prepared);
      var target :- Find(records, Id(prepared.targetId));
      r := Put(Edit.Apply(prepared), records[target := prepared.replacement]);
    }
  }
}
