/** When an edit of an unlocked vault succeeds, what it then leads to, and what a refusal says. */
module EditResults {
  import opened Bytes
  import opened Utf8
  import opened Model
  import opened Codec
  import opened CodecProofs
  import opened Session

  lemma AddExactly(nfc: Normalizer, p: Payload, id: seq<Byte>, name: seq<Byte>, fields: seq<Field>, q: Payload)
    ensures Added(nfc, p, id, name, fields) == Ok(q) <==> EditsTo(nfc, p, Add(id, name, fields), q)
  {
    hide ParseName, FieldsFit, FromParts, NameTaken, NameFree;
    FromPartsExactly(nfc, id, name, fields);
    if ParseName(nfc, name).Ok? { NameFreeExactly(p.records, |p.records|, ParseName(nfc, name).value); }
  }

  lemma RenameExactly(nfc: Normalizer, p: Payload, reference: SecretRef, newName: seq<Byte>, q: Payload)
    ensures Session.Renamed(nfc, p, reference, newName) == Ok(q) <==> EditsTo(nfc, p, Rename(reference, newName), q)
  {
    hide ParseName, Find, FirstNamed, Names, NameTaken, NameFree;
    FindMeans(p.records, reference);
    if Find(p.records, reference).Ok? && ParseName(nfc, newName).Ok? {
      NameFreeExactly(p.records, Find(p.records, reference).value, ParseName(nfc, newName).value);
    }
  }

  lemma ReplaceExactly(nfc: Normalizer, p: Payload, reference: SecretRef, fields: seq<Field>, q: Payload)
    requires PayloadOk(nfc, p)
    ensures FieldsReplaced(nfc, p, reference, fields) == Ok(q) <==> EditsTo(nfc, p, ReplaceFields(reference, fields), q)
  {
    hide PayloadOk, ParseName, FieldsFit, FromParts, Find, FirstNamed, Names;
    FindMeans(p.records, reference);
    RecordsAreOk(nfc, p);
    if Find(p.records, reference).Ok? {
      var i := Find(p.records, reference).value;
      NameIsStable(nfc, p.records[i]);
      FromPartsExactly(nfc, p.records[i].id, p.records[i].name, fields);
    }
  }

  lemma DeleteExactly(nfc: Normalizer, p: Payload, reference: SecretRef, q: Payload)
    ensures Deleted(p, reference) == Ok(q) <==> EditsTo(nfc, p, Delete(reference), q)
  {
    hide Find, FirstNamed, Names;
    FindMeans(p.records, reference);
  }

  lemma ApplyExactly(nfc: Normalizer, p: Payload, prepared: Prepared, q: Payload)
    ensures Applied(p, prepared) == Ok(q) <==> EditsTo(nfc, p, Apply(prepared), q)
  {
    hide Find, FirstNamed, Names;
    FindMeans(p.records, Id(prepared.targetId));
  }

  /** An edit leads to `q` if and only if `EditsTo` says so. */
  lemma EditExactly(nfc: Normalizer, p: Payload, edit: Edit, q: Payload)
    requires PayloadOk(nfc, p)
    ensures Edited(nfc, p, edit) == Ok(q) <==> EditsTo(nfc, p, edit, q)
  {
    hide PayloadOk, EditsTo, Added, Session.Renamed, FieldsReplaced, Deleted, Applied;
    match edit
    case Add(id, name, fields) => AddExactly(nfc, p, id, name, fields, q);
    case Rename(reference, newName) => RenameExactly(nfc, p, reference, newName, q);
    case ReplaceFields(reference, fields) => ReplaceExactly(nfc, p, reference, fields, q);
    case Delete(reference) => DeleteExactly(nfc, p, reference, q);
    case Apply(prepared) => ApplyExactly(nfc, p, prepared, q);
  }

  /** What an edit names. */
  predicate NamesRecord(edit: Edit, r: Record) {
    match edit
    case Add(_, _, _) => true
    case Rename(reference, _) => Names(reference, r)
    case ReplaceFields(reference, _) => Names(reference, r)
    case Delete(reference) => Names(reference, r)
    case Apply(prepared) => r.id == prepared.targetId
  }

  /** The new name of an edit, and its new fields. */
  function NameOf(edit: Edit): Option<seq<Byte>> {
    if edit.Add? then Some(edit.name) else if edit.Rename? then Some(edit.newName) else None
  }

  function FieldsOf(edit: Edit): Option<seq<Field>> {
    if edit.Add? then Some(edit.fields) else if edit.ReplaceFields? then Some(edit.fields) else None
  }

  /** A refusal gives a reason that is true. */
  predicate Explains(nfc: Normalizer, p: Payload, edit: Edit, e: Error) {
    match e
    case SecretNotFound => !edit.Add? && forall i :: 0 <= i < |p.records| ==> !NamesRecord(edit, p.records[i])
    case DuplicateSecretName =>
      NameOf(edit).Some? && ParseName(nfc, NameOf(edit).value).Ok?
      && exists i :: 0 <= i < |p.records| && p.records[i].name == ParseName(nfc, NameOf(edit).value).value
    case RevisionOverflow => p.revision >= U64_MAX
    case InvalidRequest => edit.Apply? && p.revision != edit.prepared.expectedRevision
    case InvalidSecretRef => NameOf(edit).Some? && (ID_PREFIX <= NameOf(edit).value || ParseName(nfc, NameOf(edit).value).Err?)
    case EmptyRecord => FieldsOf(edit) == Some([])
    case TooManyFields => FieldsOf(edit).Some? && |FieldsOf(edit).value| > 64
    case DuplicateField => FieldsOf(edit).Some? && !DistinctFields(FieldsOf(edit).value)
    case _ => false
  }

  lemma RefusalExplains(nfc: Normalizer, p: Payload, edit: Edit)
    requires PayloadOk(nfc, p) && Edited(nfc, p, edit).Err?
    ensures Explains(nfc, p, edit, Edited(nfc, p, edit).error)
  {
    hide PayloadOk, DistinctFields, NormalNameOk;
    RecordsAreOk(nfc, p);
    if edit.ReplaceFields? && Find(p.records, edit.reference).Ok? {
      NameIsStable(nfc, p.records[Find(p.records, edit.reference).value]);
    }
  }

  /** Preparing an update and applying it at the same revision puts the new name and the new fields in
      place of those of the record that was named, and changes nothing else. */
  lemma UpdateMeans(nfc: Normalizer, p: Payload, reference: SecretRef, newName: seq<Byte>, fields: seq<Field>)
    requires IdealNormalizer(nfc) && PayloadOk(nfc, p) && WellFormed(newName) && FieldsOk(fields) && p.revision < U64_MAX
    requires Prepare(nfc, p, reference, newName, fields).Ok?
    ensures var q := Prepare(nfc, p, reference, newName, fields).value;
            && Applied(p, q).Ok? && DistinctRecords(p.records) && DistinctRecords(Applied(p, q).value.records)
            && Refers(ById(p.records), reference, q.targetId)
            && ParseName(nfc, newName).Ok?
            && ById(Applied(p, q).value.records)
               == ById(p.records)[q.targetId := Record(q.targetId, ParseName(nfc, newName).value, fields)]
  {
    hide IdealNormalizer, PayloadOk, ParseName, WellFormed, FieldsOk, DistinctRecords, ById, Find, FirstNamed, Names, FieldsFit, Prepare, Prepares, Applied;
    var q := Prepare(nfc, p, reference, newName, fields).value;
    PrepareExactly(nfc, p, reference, newName, fields, q);
    UpdateApplies(nfc, p, reference, newName, fields, q);
    assert PreparedFrom(nfc, p, q);
    EditMeans(nfc, p, Apply(q));
    PreparedCarries(nfc, p, reference, newName, fields, q);
  }

  lemma UpdateApplies(nfc: Normalizer, p: Payload, reference: SecretRef, newName: seq<Byte>, fields: seq<Field>, q: Prepared)
    requires PayloadOk(nfc, p) && p.revision < U64_MAX && Prepares(nfc, p, reference, newName, fields, q)
    ensures Applied(p, q).Ok?
  {
    hide ParseName, RecordOk, UnknownOk, FieldsFit;
  }

  lemma PreparedCarries(nfc: Normalizer, p: Payload, reference: SecretRef, newName: seq<Byte>, fields: seq<Field>, q: Prepared)
    requires PayloadOk(nfc, p) && Prepares(nfc, p, reference, newName, fields, q)
    ensures DistinctRecords(p.records) && Refers(ById(p.records), reference, q.targetId) && ParseName(nfc, newName).Ok?
    ensures q.replacement == Record(q.targetId, ParseName(nfc, newName).value, fields)
  {
    hide ParseName, PayloadOk, DistinctRecords, ById, FieldsFit;
    OkIsDistinct(nfc, p);
    var i: nat :| FirstNamed(p.records, reference, i) && q.targetId == p.records[i].id
             && q.replacement == Record(p.records[i].id, ParseName(nfc, newName).value, fields);
    RecordInMap(p.records, i);
  }
}
