/** The payload printer and parser are exact inverses of each other. */
module CodecProofs {
  import opened Bytes
  import opened Utf8
  import opened Cbor
  import opened Model
  import opened Codec

  // ----- regrouping concatenations -----

  lemma Cat(a: seq<Byte>, b: seq<Byte>, t: seq<Byte>)
    ensures a + b + t == a + (b + t)
  {}

  lemma Cat7(a: seq<Byte>, b: seq<Byte>, c: seq<Byte>, d: seq<Byte>, e: seq<Byte>, f: seq<Byte>, g: seq<Byte>, t: seq<Byte>)
    ensures a + b + c + d + e + f + g + t == a + (b + (c + (d + (e + (f + (g + t))))))
  {
    Cat(a, b, c + (d + (e + (f + (g + t)))));
    Cat(a + b, c, d + (e + (f + (g + t))));
    Cat(a + b + c, d, e + (f + (g + t)));
    Cat(a + b + c + d, e, f + (g + t));
    Cat(a + b + c + d + e, f, g + t);
    Cat(a + b + c + d + e + f, g, t);
  }

  // ----- what the parser must accept -----

  ghost predicate UnknownOk(unknown: seq<(nat, seq<Byte>)>) {
    && (forall i :: 0 <= i < |unknown| ==> 3 < unknown[i].0 <= U64_MAX && IsCanonical(unknown[i].1))
    && (forall i :: 0 < i < |unknown| ==> unknown[i - 1].0 < unknown[i].0)
  }

  /** A payload as a vault session can hold it. The number of records is not limited here. */
  ghost predicate PayloadOk(nfc: Normalizer, p: Payload) {
    && |p.vaultId| == 16 && p.revision <= U64_MAX && p.idleTimeoutSeconds <= U32_MAX
    && (forall i :: 0 <= i < |p.records| ==> RecordOk(nfc, p.records[i]))
    && DistinctRecords(p.records)
    && |p.records| <= U64_MAX
    && |p.unknown| <= MAX_RECORDS && UnknownOk(p.unknown)
  }

  lemma RecordOkPrints(nfc: Normalizer, r: Record)
    requires RecordOk(nfc, r)
    ensures RecordPrints(r)
  {
    hide AnyForbidden, Contains, WellFormed;
  }

  lemma PayloadOkPrints(nfc: Normalizer, p: Payload)
    requires PayloadOk(nfc, p)
    ensures Prints(p)
  {
    hide RecordOk, RecordPrints, IsCanonical;
    forall i | 0 <= i < |p.records| ensures RecordPrints(p.records[i]) {
      RecordOkPrints(nfc, p.records[i]);
    }
  }

  // ----- reading back what was printed -----

  lemma KeyReads(k: nat, t: seq<Byte>)
    requires k <= U64_MAX
    ensures ExpectKey(k, Key(k) + t) == Got(k, t)
  {
    hide ReadUint, EncodeHead;
    ReadUintOfEncode(k, t);
  }

  lemma FieldReads(f: Field, t: seq<Byte>)
    requires FieldOk(f)
    ensures FieldPrints(f) && DecodeField(FieldBytes(f) + t) == Got(f, t)
  {
    hide ReadLength, ExpectKey, ReadText, ReadBytes, ReadUint, EncodeHead, EncodeString, Key, FieldNameOk, WellFormed;
    FieldNameShort(f.name);
    FieldNameIsText(f.name);
    var hint := if f.hint.Binary? then 0 else 1;
    var g := EncodeHead(0, hint) + t;
    var e := EncodeString(2, f.value) + (Key(2) + g);
    var c := EncodeString(3, f.name) + (Key(1) + e);
    Cat7(EncodeHead(5, 3), Key(0), EncodeString(3, f.name), Key(1), EncodeString(2, f.value), Key(2), EncodeHead(0, hint), t);
    ReadLengthOfEncode(5, 3, Key(0) + c);
    KeyReads(0, c);
    ReadTextOfEncode(f.name, Key(1) + e);
    KeyReads(1, e);
    BytesRead(f.value, Key(2) + g);
    KeyReads(2, g);
    ReadUintOfEncode(hint, t);
  }

  lemma FieldNameShort(name: seq<Byte>)
    requires FieldNameOk(name)
    ensures |name| <= 64
  {}

  lemma BytesRead(b: seq<Byte>, t: seq<Byte>)
    requires |b| <= U64_MAX
    ensures ReadBytes(EncodeString(2, b) + t) == Got(b, t)
  {
    hide ReadString, EncodeString;
    ReadStringOfEncode(2, b, t);
  }

  lemma {:induction false} FieldsRead(fields: seq<Field>, t: seq<Byte>)
    requires forall i :: 0 <= i < |fields| ==> FieldOk(fields[i])
    ensures FieldsPrint(fields) && DecodeFields(FieldsBytes(fields) + t, |fields|) == Got(fields, t)
    decreases |fields|
  {
    hide FieldBytes, DecodeField, FieldNameOk;
    forall i | 0 <= i < |fields| ensures FieldPrints(fields[i]) { FieldReads(fields[i], t); }
    if fields == [] {
      assert [] + t == t;
    } else {
      var rest := FieldsBytes(fields[1..]) + t;
      Cat(FieldBytes(fields[0]), FieldsBytes(fields[1..]), t);
      FieldReads(fields[0], rest);
      FieldsRead(fields[1..], t);
      assert [fields[0]] + fields[1..] == fields;
    }
  }

  lemma FromPartsOfRecord(nfc: Normalizer, r: Record)
    requires RecordOk(nfc, r)
    ensures FromParts(nfc, r.id, r.name, r.fields) == Ok(r)
    ensures WellFormed(r.name) && |r.name| <= 128
  {
    hide WellFormed, AnyForbidden, Contains;
  }

  lemma IdReads(id: seq<Byte>, t: seq<Byte>)
    requires |id| == 16
    ensures DecodeId(EncodeString(2, id) + t) == Got(id, t)
  {
    hide ReadBytes, EncodeString;
    BytesRead(id, t);
  }

  lemma RecordReads(nfc: Normalizer, r: Record, t: seq<Byte>)
    requires RecordOk(nfc, r)
    ensures RecordPrints(r) && DecodeRecord(nfc, RecordBytes(r) + t) == Got(r, t)
  {
    hide ReadLength, ExpectKey, ReadText, DecodeId, DecodeFields, FromParts, EncodeHead, EncodeString, Key, FieldsBytes, WellFormed, NameOk, FieldOk, DistinctFields;
    RecordOkPrints(nfc, r);
    FromPartsOfRecord(nfc, r);
    var h := FieldsBytes(r.fields) + t;
    var g := EncodeHead(4, |r.fields|) + h;
    var e := EncodeString(3, r.name) + (Key(2) + g);
    var c := EncodeString(2, r.id) + (Key(1) + e);
    Cat(EncodeHead(5, 3) + Key(0) + EncodeString(2, r.id) + Key(1) + EncodeString(3, r.name) + Key(2) + EncodeHead(4, |r.fields|), FieldsBytes(r.fields), t);
    Cat7(EncodeHead(5, 3), Key(0), EncodeString(2, r.id), Key(1), EncodeString(3, r.name), Key(2), EncodeHead(4, |r.fields|), h);
    ReadLengthOfEncode(5, 3, Key(0) + c);
    KeyReads(0, c);
    IdReads(r.id, Key(1) + e);
    KeyReads(1, e);
    ReadTextOfEncode(r.name, Key(2) + g);
    KeyReads(2, g);
    ReadLengthOfEncode(4, |r.fields|, h);
    FieldsRead(r.fields, t);
  }

  lemma {:induction false} RecordsRead(nfc: Normalizer, records: seq<Record>, t: seq<Byte>)
    requires forall i :: 0 <= i < |records| ==> RecordOk(nfc, records[i])
    ensures RecordsPrint(records) && DecodeRecords(nfc, RecordsBytes(records) + t, |records|) == Got(records, t)
    decreases |records|
  {
    hide RecordBytes, DecodeRecord, RecordOk, RecordPrints;
    forall i | 0 <= i < |records| ensures RecordPrints(records[i]) { RecordOkPrints(nfc, records[i]); }
    if records == [] {
      assert [] + t == t;
    } else {
      var rest := RecordsBytes(records[1..]) + t;
      Cat(RecordBytes(records[0]), RecordsBytes(records[1..]), t);
      RecordReads(nfc, records[0], rest);
      RecordsRead(nfc, records[1..], t);
      assert [records[0]] + records[1..] == records;
    }
  }

  lemma SettingsRead(seconds: nat, t: seq<Byte>)
    requires seconds <= U32_MAX
    ensures DecodeSettings(EncodeHead(5, 1) + (Key(0) + (EncodeHead(0, seconds) + t))) == Got(seconds, t)
  {
    hide ReadLength, ExpectKey, ReadUint, EncodeHead, Key;
    ReadLengthOfEncode(5, 1, Key(0) + (EncodeHead(0, seconds) + t));
    KeyReads(0, EncodeHead(0, seconds) + t);
    ReadUintOfEncode(seconds, t);
  }

  // ----- the entry loop -----

  lemma EntryId(nfc: Normalizer, id: seq<Byte>, t: seq<Byte>)
    requires |id| == 16
    ensures DecodeEntry(nfc, Key(0) + (EncodeString(2, id) + t), EMPTY_DRAFT)
         == Got(Draft(Some(id), None, None, None, [], Some(0)), t)
  {
    hide ReadUint, DecodeId, EncodeHead, EncodeString;
    ReadUintOfEncode(0, EncodeString(2, id) + t);
    IdReads(id, t);
  }

  lemma EntryRevision(nfc: Normalizer, revision: nat, t: seq<Byte>, d: Draft)
    requires revision <= U64_MAX && DraftPrints(d) && d.revision.None? && d.previousKey == Some(0)
    ensures DecodeEntry(nfc, Key(1) + (EncodeHead(0, revision) + t), d)
         == Got(d.(revision := Some(revision), previousKey := Some(1)), t)
  {
    hide ReadUint, EncodeHead, DraftPrints;
    ReadUintOfEncode(1, EncodeHead(0, revision) + t);
    ReadUintOfEncode(revision, t);
  }

  lemma EntryRecords(nfc: Normalizer, records: seq<Record>, t: seq<Byte>, d: Draft)
    requires DraftPrints(d) && d.records.None? && d.previousKey == Some(1)
    requires |records| <= U64_MAX && forall i :: 0 <= i < |records| ==> RecordOk(nfc, records[i])
    ensures RecordsPrint(records)
    ensures DecodeEntry(nfc, Key(2) + (EncodeHead(4, |records|) + (RecordsBytes(records) + t)), d)
         == if |records| <= MAX_RECORDS then Got(d.(records := Some(records), previousKey := Some(2)), t) else Fail
  {
    hide ReadUint, ReadLength, DecodeRecords, EncodeHead, RecordsBytes, DraftPrints, RecordOk, RecordPrints;
    RecordsRead(nfc, records, t);
    var body := RecordsBytes(records) + t;
    ReadUintOfEncode(2, EncodeHead(4, |records|) + body);
    ReadLengthOfEncode(4, |records|, body);
  }

  lemma EntrySettings(nfc: Normalizer, seconds: nat, t: seq<Byte>, d: Draft)
    requires seconds <= U32_MAX && DraftPrints(d) && d.idleTimeoutSeconds.None? && d.previousKey == Some(2)
    ensures DecodeEntry(nfc, Key(3) + (EncodeHead(5, 1) + (Key(0) + (EncodeHead(0, seconds) + t))), d)
         == Got(d.(idleTimeoutSeconds := Some(seconds), previousKey := Some(3)), t)
  {
    hide ReadUint, DecodeSettings, EncodeHead, DraftPrints;
    ReadUintOfEncode(3, EncodeHead(5, 1) + (Key(0) + (EncodeHead(0, seconds) + t)));
    SettingsRead(seconds, t);
  }

  lemma EntryUnknown(nfc: Normalizer, key: nat, raw: seq<Byte>, t: seq<Byte>, d: Draft)
    requires DraftPrints(d) && d.previousKey.Some? && d.previousKey.value < key && 3 < key <= U64_MAX
    requires IsCanonical(raw)
    ensures DecodeEntry(nfc, Key(key) + (raw + t), d)
         == Got(d.(unknown := d.unknown + [(key, raw)], previousKey := Some(key)), t)
  {
    hide ReadUint, Skip, EncodeHead, DraftPrints, IsCanonical;
    ReadUintOfEncode(key, raw + t);
    SkipCanonical(raw, t);
    assert (raw + t)[..|raw|] == raw;
  }

  lemma {:induction false} UnknownRead(nfc: Normalizer, unknown: seq<(nat, seq<Byte>)>, d: Draft)
    requires DraftPrints(d) && UnknownOk(unknown)
    requires d.previousKey.Some? && (unknown != [] ==> d.previousKey.value < unknown[0].0)
    ensures var r := DecodeEntries(nfc, UnknownBytes(unknown), |unknown|, d);
            r.Got? && r.rest == [] && r.value.unknown == d.unknown + unknown
            && r.value.vaultId == d.vaultId && r.value.revision == d.revision && r.value.records == d.records
            && r.value.idleTimeoutSeconds == d.idleTimeoutSeconds
    decreases |unknown|
  {
    hide DecodeEntry, DraftPrints, IsCanonical, Key;
    if unknown == [] {
      assert d.unknown + unknown == d.unknown;
    } else {
      var (key, raw) := unknown[0];
      var rest := UnknownBytes(unknown[1..]);
      Cat(Key(key), raw, rest);
      EntryUnknown(nfc, key, raw, rest, d);
      var d' := DecodeEntry(nfc, UnknownBytes(unknown), d).value;
      UnknownRead(nfc, unknown[1..], d');
      assert d.unknown + [(key, raw)] + unknown[1..] == d.unknown + unknown;
    }
  }

  lemma EntriesUnfold(nfc: Normalizer, s: seq<Byte>, n: nat, d: Draft, d': Draft, s': seq<Byte>)
    requires DraftPrints(d) && n > 0 && DecodeEntry(nfc, s, d) == Got(d', s')
    ensures DraftPrints(d') && DecodeEntries(nfc, s, n, d) == DecodeEntries(nfc, s', n - 1, d')
  {
    hide DecodeEntry, DraftPrints;
  }

  /** The printed bytes, regrouped for reading from the front. */
  lemma PayloadLayout(p: Payload)
    requires Prints(p)
    ensures PayloadBytes(p) ==
            EncodeHead(5, 4 + |p.unknown|) + (Key(0) + (EncodeString(2, p.vaultId)
            + (Key(1) + (EncodeHead(0, p.revision)
            + (Key(2) + (EncodeHead(4, |p.records|) + (RecordsBytes(p.records)
            + (Key(3) + (EncodeHead(5, 1) + (Key(0) + (EncodeHead(0, p.idleTimeoutSeconds)
            + UnknownBytes(p.unknown))))))))))))
  {
    hide EncodeHead, EncodeString, Key, RecordsBytes, UnknownBytes;
    var a := EncodeHead(5, 4 + |p.unknown|) + Key(0) + EncodeString(2, p.vaultId) + Key(1) + EncodeHead(0, p.revision) + Key(2) + EncodeHead(4, |p.records|);
    var r, u := RecordsBytes(p.records), UnknownBytes(p.unknown);
    var k3, m, k0, i := Key(3), EncodeHead(5, 1), Key(0), EncodeHead(0, p.idleTimeoutSeconds);
    Cat(a + r + k3 + m + k0, i, u);
    Cat(a + r + k3 + m, k0, i + u);
    Cat(a + r + k3, m, k0 + (i + u));
    Cat(a + r, k3, m + (k0 + (i + u)));
    Cat(a, r, k3 + (m + (k0 + (i + u))));
    Cat7(EncodeHead(5, 4 + |p.unknown|), Key(0), EncodeString(2, p.vaultId), Key(1), EncodeHead(0, p.revision), Key(2), EncodeHead(4, |p.records|), r + (k3 + (m + (k0 + (i + u)))));
  }

  /** The entry loop rebuilds the payload, unless there are too many records. */
  lemma EntriesRead(nfc: Normalizer, p: Payload, s: seq<Byte>)
    requires PayloadOk(nfc, p) && Prints(p)
    requires s == Key(0) + (EncodeString(2, p.vaultId)
            + (Key(1) + (EncodeHead(0, p.revision)
            + (Key(2) + (EncodeHead(4, |p.records|) + (RecordsBytes(p.records)
            + (Key(3) + (EncodeHead(5, 1) + (Key(0) + (EncodeHead(0, p.idleTimeoutSeconds)
            + UnknownBytes(p.unknown)))))))))))
    ensures var r := DecodeEntries(nfc, s, 4 + |p.unknown|, EMPTY_DRAFT);
            if |p.records| <= MAX_RECORDS then
              && r.Got? && r.rest == []
              && r.value.vaultId == Some(p.vaultId) && r.value.revision == Some(p.revision)
              && r.value.records == Some(p.records) && r.value.idleTimeoutSeconds == Some(p.idleTimeoutSeconds)
              && r.value.unknown == p.unknown
            else r.Fail?
  {
    hide EncodeHead, EncodeString, Key, RecordsBytes, UnknownBytes, DecodeEntry, DecodeEntries, RecordOk, RecordPrints, DistinctRecords, IsCanonical;
    var n := 4 + |p.unknown|;
    var u := UnknownBytes(p.unknown);
    var s3 := Key(3) + (EncodeHead(5, 1) + (Key(0) + (EncodeHead(0, p.idleTimeoutSeconds) + u)));
    var s2 := Key(2) + (EncodeHead(4, |p.records|) + (RecordsBytes(p.records) + s3));
    var s1 := Key(1) + (EncodeHead(0, p.revision) + s2);
    var d1 := Draft(Some(p.vaultId), None, None, None, [], Some(0));
    EntryId(nfc, p.vaultId, s1);
    EntriesUnfold(nfc, s, n, EMPTY_DRAFT, d1, s1);
    var d2 := d1.(revision := Some(p.revision), previousKey := Some(1));
    EntryRevision(nfc, p.revision, s2, d1);
    EntriesUnfold(nfc, s1, n - 1, d1, d2, s2);
    EntryRecords(nfc, p.records, s3, d2);
    if |p.records| <= MAX_RECORDS {
      var d3 := d2.(records := Some(p.records), previousKey := Some(2));
      EntriesUnfold(nfc, s2, n - 2, d2, d3, s3);
      var d4 := d3.(idleTimeoutSeconds := Some(p.idleTimeoutSeconds), previousKey := Some(3));
      EntrySettings(nfc, p.idleTimeoutSeconds, u, d3);
      EntriesUnfold(nfc, s3, n - 3, d3, d4, u);
      UnknownRead(nfc, p.unknown, d4);
      assert [] + p.unknown == p.unknown;
    } else {
      EntriesFail(nfc, s2, n - 2, d2);
    }
  }

  lemma EntriesFail(nfc: Normalizer, s: seq<Byte>, n: nat, d: Draft)
    requires DraftPrints(d) && n > 0 && DecodeEntry(nfc, s, d).Fail?
    ensures DecodeEntries(nfc, s, n, d).Fail?
  {
    hide DecodeEntry, DraftPrints;
  }

  /** A payload that prints within the size limit is read back unchanged, unknown fields included,
      exactly when it has at most 10,000 records. (`VaultSession::add` does not check that bound.) */
  lemma RoundTripExactly(nfc: Normalizer, p: Payload)
    requires PayloadOk(nfc, p) && Prints(p) && EncodePayload(p).Ok?
    ensures |p.records| <= 10_000 ==> DecodePayload(nfc, EncodePayload(p).value) == Ok(p)
    ensures |p.records| > 10_000 ==> DecodePayload(nfc, EncodePayload(p).value).Err?
  {
    hide EncodeHead, EncodeString, Key, RecordsBytes, UnknownBytes, DecodeEntries, RecordOk, RecordPrints, DistinctRecords, ReadLength, PayloadBytes, UnknownOk, KnownBytes;
    PayloadLayout(p);
    var s := Key(0) + (EncodeString(2, p.vaultId)
            + (Key(1) + (EncodeHead(0, p.revision)
            + (Key(2) + (EncodeHead(4, |p.records|) + (RecordsBytes(p.records)
            + (Key(3) + (EncodeHead(5, 1) + (Key(0) + (EncodeHead(0, p.idleTimeoutSeconds)
            + UnknownBytes(p.unknown)))))))))));
    ReadLengthOfEncode(5, 4 + |p.unknown|, s);
    EntriesRead(nfc, p, s);
  }

  // ----- whatever the parser accepts is a payload -----

  lemma DecodedRecordIsOk(nfc: Normalizer, s: seq<Byte>)
    requires IdealNormalizer(nfc) && DecodeRecord(nfc, s).Got?
    ensures RecordOk(nfc, DecodeRecord(nfc, s).value)
  {
    hide ReadLength, ExpectKey, DecodeId, ReadString, DecodeFields, ParseName, WellFormed, NameOk, FieldOk, DistinctFields, IdealNormalizer;
    var id := DecodeId(ExpectKey(0, ReadLength(5, s).rest).rest);
    var name := ReadText(ExpectKey(1, id.rest).rest);
    assert WellFormed(name.value);
    ParsedNameIsOk(nfc, name.value);
  }

  lemma {:induction false} DecodedRecordsAreOk(nfc: Normalizer, s: seq<Byte>, n: nat)
    requires IdealNormalizer(nfc) && DecodeRecords(nfc, s, n).Got?
    ensures forall i :: 0 <= i < n ==> RecordOk(nfc, DecodeRecords(nfc, s, n).value[i])
    decreases n
  {
    hide DecodeRecord, RecordOk, IdealNormalizer, RecordPrints;
    if n > 0 {
      DecodedRecordIsOk(nfc, s);
      DecodedRecordsAreOk(nfc, DecodeRecord(nfc, s).rest, n - 1);
    }
  }

  ghost predicate RecordsOk(nfc: Normalizer, records: seq<Record>) {
    forall i :: 0 <= i < |records| ==> RecordOk(nfc, records[i])
  }

  function One<T>(o: Option<T>): nat { if o.Some? then 1 else 0 }

  function Collected(d: Draft): nat {
    One(d.vaultId) + One(d.revision) + One(d.records) + One(d.idleTimeoutSeconds) + |d.unknown|
  }

  /** What the entry loop keeps. */
  ghost predicate DraftOk(nfc: Normalizer, d: Draft) {
    && DraftPrints(d)
    && (d.records.Some? ==> RecordsOk(nfc, d.records.value))
    && UnknownOk(d.unknown)
    && (d.unknown != [] ==> d.previousKey.Some? && d.unknown[|d.unknown| - 1].0 <= d.previousKey.value)
  }

  lemma EntryKeeps(nfc: Normalizer, s: seq<Byte>, d: Draft)
    requires IdealNormalizer(nfc) && DraftOk(nfc, d) && DecodeEntry(nfc, s, d).Got?
    ensures DraftOk(nfc, DecodeEntry(nfc, s, d).value)
    ensures Collected(DecodeEntry(nfc, s, d).value) == Collected(d) + 1
  {
    hide ReadUint, ReadLength, DecodeId, DecodeSettings, DecodeRecords, Skip, IsCanonical, RecordPrints, IdealNormalizer, RecordsOk, UnknownOk, DistinctRecords;
    var d' := DecodeEntry(nfc, s, d).value;
    ReadUintBound(s);
    var key, s1 := ReadUint(s).value, ReadUint(s).rest;
    if key == 2 {
      var count := ReadLength(4, s1);
      RecordsReadAreOk(nfc, count.rest, count.value);
    } else if key > 3 {
      UnknownGrows(d.unknown, key, d'.unknown[|d.unknown|].1);
    }
  }

  lemma RecordsReadAreOk(nfc: Normalizer, s: seq<Byte>, n: nat)
    requires IdealNormalizer(nfc) && DecodeRecords(nfc, s, n).Got?
    ensures RecordsOk(nfc, DecodeRecords(nfc, s, n).value)
  {
    hide DecodeRecords, RecordOk, IdealNormalizer, RecordPrints;
    DecodedRecordsAreOk(nfc, s, n);
  }

  lemma UnknownGrows(unknown: seq<(nat, seq<Byte>)>, key: nat, raw: seq<Byte>)
    requires UnknownOk(unknown) && 3 < key <= U64_MAX && IsCanonical(raw)
    requires unknown != [] ==> unknown[|unknown| - 1].0 < key
    ensures UnknownOk(unknown + [(key, raw)])
  {
    hide IsCanonical;
  }

  lemma {:induction false} EntriesKeep(nfc: Normalizer, s: seq<Byte>, n: nat, d: Draft)
    requires IdealNormalizer(nfc) && DraftOk(nfc, d) && DecodeEntries(nfc, s, n, d).Got?
    ensures DraftOk(nfc, DecodeEntries(nfc, s, n, d).value)
    ensures Collected(DecodeEntries(nfc, s, n, d).value) == Collected(d) + n
    decreases n
  {
    hide DecodeEntry, IdealNormalizer, DraftPrints, UnknownOk, RecordsOk, Collected;
    if n > 0 {
      EntryKeeps(nfc, s, d);
      EntriesKeep(nfc, DecodeEntry(nfc, s, d).rest, n - 1, DecodeEntry(nfc, s, d).value);
    }
  }

  lemma DraftIsPayload(nfc: Normalizer, d: Draft, entries: nat)
    requires DraftOk(nfc, d) && Collected(d) == entries <= 4 + MAX_RECORDS && Assemble(d).Ok?
    ensures PayloadOk(nfc, Assemble(d).value) && |Assemble(d).value.records| <= MAX_RECORDS
  {
    hide RecordOk, RecordPrints, UnknownOk, DistinctRecords;
  }

  /** An input is accepted as `p` exactly when it is the encoding of `p`, and `p` is a well-formed
      payload of at most 10,000 records. */
  lemma DecodeExactly(nfc: Normalizer, input: seq<Byte>, p: Payload)
    requires IdealNormalizer(nfc)
    ensures DecodePayload(nfc, input) == Ok(p)
       <==> PayloadOk(nfc, p) && |p.records| <= MAX_RECORDS && Prints(p) && EncodePayload(p) == Ok(input)
  {
    hide DecodeEntries, ReadLength, IdealNormalizer, DraftOk, DraftPrints, Assemble, PayloadOk, PayloadBytes, Prints;
    if PayloadOk(nfc, p) && |p.records| <= MAX_RECORDS && Prints(p) && EncodePayload(p) == Ok(input) {
      RoundTripExactly(nfc, p);
    }
    if DecodePayload(nfc, input) == Ok(p) {
      var head := ReadLength(5, input);
      EmptyDraftIsOk(nfc);
      EntriesKeep(nfc, head.rest, head.value, EMPTY_DRAFT);
      DraftIsPayload(nfc, DecodeEntries(nfc, head.rest, head.value, EMPTY_DRAFT).value, head.value);
      PayloadOkPrints(nfc, p);
    }
  }

  lemma EmptyDraftIsOk(nfc: Normalizer)
    ensures DraftOk(nfc, EMPTY_DRAFT) && Collected(EMPTY_DRAFT) == 0
  {}
}
