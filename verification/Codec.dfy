/**
 The vault payload and its canonical byte form (codec.rs), as a printer and a parser.

 Unknown top-level fields are carried through: a value is kept raw when it is canonical.
*/
module Codec {
  import opened Bytes
  import opened Utf8
  import opened Cbor
  import opened Model

  const MAX_VAULT_PAYLOAD_BYTES: nat := 64 * 1024 * 1024
  const MAX_RECORDS: nat := 10_000

  datatype Payload = Payload(
    vaultId: seq<Byte>,
    revision: nat,
    records: seq<Record>,
    idleTimeoutSeconds: nat,
    unknown: seq<(nat, seq<Byte>)>)

  // ----- printing -----

  function Key(k: nat): seq<Byte>
    requires k <= U64_MAX
  {
    EncodeHead(0, k)
  }

  predicate FieldPrints(f: Field) { |f.name| <= U64_MAX && |f.value| <= U64_MAX }

  function FieldBytes(f: Field): seq<Byte>
    requires FieldPrints(f)
  {
    EncodeHead(5, 3)
    + Key(0) + EncodeString(3, f.name)
    + Key(1) + EncodeString(2, f.value)
    + Key(2) + EncodeHead(0, if f.hint.Binary? then 0 else 1)
  }

  predicate FieldsPrint(fields: seq<Field>) { forall i :: 0 <= i < |fields| ==> FieldPrints(fields[i]) }

  function FieldsBytes(fields: seq<Field>): seq<Byte>
    requires FieldsPrint(fields)
  {
    if fields == [] then [] else FieldBytes(fields[0]) + FieldsBytes(fields[1..])
  }

  predicate RecordPrints(r: Record) {
    |r.id| <= U64_MAX && |r.name| <= U64_MAX && |r.fields| <= U64_MAX && FieldsPrint(r.fields)
  }

  function RecordBytes(r: Record): seq<Byte>
    requires RecordPrints(r)
  {
    EncodeHead(5, 3)
    + Key(0) + EncodeString(2, r.id)
    + Key(1) + EncodeString(3, r.name)
    + Key(2) + EncodeHead(4, |r.fields|) + FieldsBytes(r.fields)
  }

  predicate RecordsPrint(records: seq<Record>) { forall i :: 0 <= i < |records| ==> RecordPrints(records[i]) }

  function RecordsBytes(records: seq<Record>): seq<Byte>
    requires RecordsPrint(records)
  {
    if records == [] then [] else RecordBytes(records[0]) + RecordsBytes(records[1..])
  }

  predicate UnknownPrints(unknown: seq<(nat, seq<Byte>)>) {
    forall i :: 0 <= i < |unknown| ==> unknown[i].0 <= U64_MAX
  }

  function UnknownBytes(unknown: seq<(nat, seq<Byte>)>): seq<Byte>
    requires UnknownPrints(unknown)
  {
    if unknown == [] then [] else Key(unknown[0].0) + unknown[0].1 + UnknownBytes(unknown[1..])
  }

  predicate Prints(p: Payload) {
    && |p.vaultId| <= U64_MAX && p.revision <= U64_MAX && p.idleTimeoutSeconds <= U32_MAX
    && |p.records| <= U64_MAX && RecordsPrint(p.records)
    && 4 + |p.unknown| <= U64_MAX && UnknownPrints(p.unknown)
  }

  /** The four known entries, the map head first. */
  function KnownBytes(p: Payload): seq<Byte>
    requires Prints(p)
  {
    EncodeHead(5, 4 + |p.unknown|)
    + Key(0) + EncodeString(2, p.vaultId)
    + Key(1) + EncodeHead(0, p.revision)
    + Key(2) + EncodeHead(4, |p.records|) + RecordsBytes(p.records)
    + Key(3) + EncodeHead(5, 1) + Key(0) + EncodeHead(0, p.idleTimeoutSeconds)
  }

  function PayloadBytes(p: Payload): seq<Byte>
    requires Prints(p)
  {
    KnownBytes(p) + UnknownBytes(p.unknown)
  }

  /** `encode_payload` */
  function EncodePayload(p: Payload): Result<seq<Byte>>
    requires Prints(p)
  {
    if |PayloadBytes(p)| > MAX_VAULT_PAYLOAD_BYTES then Err(VaultPayloadTooLarge) else Ok(PayloadBytes(p))
  }

  // ----- parsing -----

  /** `decoder.u8().ok() == Some(k)` */
  function ExpectKey(k: nat, s: seq<Byte>): (r: Parsed<nat>)
    ensures r.Got? ==> |r.rest| < |s|
  {
    match ReadUint(s)
    case Got(n, rest) => if n == k then Got(n, rest) else Fail
    case Fail => Fail
  }

  function DecodeId(s: seq<Byte>): (r: Parsed<seq<Byte>>)
    ensures r.Got? ==> |r.value| == 16 && |r.rest| < |s|
  {
    match ReadBytes(s)
    case Got(b, rest) => if |b| == 16 then Got(b, rest) else Fail
    case Fail => Fail
  }

  function DecodeField(s: seq<Byte>): (r: Parsed<Field>)
    ensures r.Got? ==> FieldOk(r.value) && |r.rest| < |s|
  {
    var (n, s1) :- ReadLength(5, s);
    if n != 3 then Fail else
    var (_, s2) :- ExpectKey(0, s1);
    var (name, s3) :- ReadText(s2);
    if !FieldNameOk(name) then Fail else
    var (_, s4) :- ExpectKey(1, s3);
    var (value, s5) :- ReadBytes(s4);
    var (_, s6) :- ExpectKey(2, s5);
    var (hint, s7) :- ReadUint(s6);
    if hint > 1 || |value| > MAX_FIELD_BYTES then Fail
    else Got(Field(name, value, if hint == 0 then Binary else TextHint.Text), s7)
  }

  function DecodeFields(s: seq<Byte>, n: nat): (r: Parsed<seq<Field>>)
    ensures r.Got? ==> |r.value| == n && |r.rest| <= |s| && forall i :: 0 <= i < n ==> FieldOk(r.value[i])
    decreases n
  {
    if n == 0 then Got([], s)
    else
      var (f, s1) :- DecodeField(s);
      var (fs, s2) :- DecodeFields(s1, n - 1);
      Got([f] + fs, s2)
  }

  function DecodeRecord(nfc: Normalizer, s: seq<Byte>): (r: Parsed<Record>)
    ensures r.Got? ==> |r.rest| < |s| && RecordPrints(r.value)
  {
    hide ReadLength, ExpectKey, DecodeId, ReadText, DecodeFields, AnyForbidden, Contains, WellFormed;
    var (n, s1) :- ReadLength(5, s);
    if n != 3 then Fail else
    var (_, s2) :- ExpectKey(0, s1);
    var (id, s3) :- DecodeId(s2);
    var (_, s4) :- ExpectKey(1, s3);
    var (name, s5) :- ReadText(s4);
    var (_, s6) :- ExpectKey(2, s5);
    var (count, s7) :- ReadLength(4, s6);
    if count > MAX_FIELDS_PER_RECORD || count == 0 then Fail else
    var (fields, s8) :- DecodeFields(s7, count);
    match FromParts(nfc, id, name, fields)
    case Ok(record) => Got(record, s8)
    case Err(_) => Fail
  }

  function DecodeRecords(nfc: Normalizer, s: seq<Byte>, n: nat): (r: Parsed<seq<Record>>)
    ensures r.Got? ==> |r.value| == n && |r.rest| <= |s| && RecordsPrint(r.value)
    decreases n
  {
    if n == 0 then Got([], s)
    else
      var (x, s1) :- DecodeRecord(nfc, s);
      var (xs, s2) :- DecodeRecords(nfc, s1, n - 1);
      Got([x] + xs, s2)
  }

  function DecodeSettings(s: seq<Byte>): (r: Parsed<nat>)
    ensures r.Got? ==> r.value <= U32_MAX && |r.rest| < |s|
  {
    var (n, s1) :- ReadLength(5, s);
    if n != 1 then Fail else
    var (_, s2) :- ExpectKey(0, s1);
    var (seconds, s3) :- ReadUint(s2);
    if seconds > U32_MAX then Fail else Got(seconds, s3)
  }

  /** What the entry loop has collected so far. */
  datatype Draft = Draft(
    vaultId: Option<seq<Byte>>,
    revision: Option<nat>,
    records: Option<seq<Record>>,
    idleTimeoutSeconds: Option<nat>,
    unknown: seq<(nat, seq<Byte>)>,
    previousKey: Option<nat>)

  /** Everything collected so far can be printed again. */
  predicate DraftPrints(d: Draft) {
    && (d.vaultId.Some? ==> |d.vaultId.value| == 16)
    && (d.revision.Some? ==> d.revision.value <= U64_MAX)
    && (d.records.Some? ==> |d.records.value| <= MAX_RECORDS && RecordsPrint(d.records.value))
    && (d.idleTimeoutSeconds.Some? ==> d.idleTimeoutSeconds.value <= U32_MAX)
    && UnknownPrints(d.unknown)
  }

  lemma ReadUintBound(s: seq<Byte>)
    requires ReadUint(s).Got?
    ensures ReadUint(s).value <= U64_MAX
  {
    ReadHeadBound(s);
  }

  /** One turn of the entry loop. */
  function DecodeEntry(nfc: Normalizer, s: seq<Byte>, d: Draft): (r: Parsed<Draft>)
    requires DraftPrints(d)
    ensures r.Got? ==> |r.rest| < |s| && DraftPrints(r.value) && |r.value.unknown| <= |d.unknown| + 1
  {
    hide ReadUint, ReadLength, DecodeId, DecodeSettings, DecodeRecords, Skip, IsCanonical, RecordPrints;
    var (key, s1) :- ReadUint(s);
    ReadUintBound(s);
    if d.previousKey.Some? && key <= d.previousKey.value then Fail
    else
      var d := d.(previousKey := Some(key));
      if key == 0 then
        if d.vaultId.Some? then Fail else
        var (id, s2) :- DecodeId(s1);
        Got(d.(vaultId := Some(id)), s2)
      else if key == 1 then
        if d.revision.Some? then Fail else
        var (revision, s2) :- ReadUint(s1);
        ReadUintBound(s1);
        Got(d.(revision := Some(revision)), s2)
      else if key == 2 then
        if d.records.Some? then Fail else
        var (count, s2) :- ReadLength(4, s1);
        if count > MAX_RECORDS then Fail else
        var (records, s3) :- DecodeRecords(nfc, s2, count);
        Got(d.(records := Some(records)), s3)
      else if key == 3 then
        if d.idleTimeoutSeconds.Some? then Fail else
        var (seconds, s2) :- DecodeSettings(s1);
        Got(d.(idleTimeoutSeconds := Some(seconds)), s2)
      else
        match Skip(s1, 1)
        case None => Fail
        case Some(s2) =>
          var raw := s1[..|s1| - |s2|];
          if IsCanonical(raw) then Got(d.(unknown := d.unknown + [(key, raw)]), s2) else Fail
  }

  function DecodeEntries(nfc: Normalizer, s: seq<Byte>, n: nat, d: Draft): (r: Parsed<Draft>)
    requires DraftPrints(d)
    ensures r.Got? ==> DraftPrints(r.value) && |r.value.unknown| <= |d.unknown| + n
    decreases n
  {
    hide DecodeEntry, DraftPrints;
    if n == 0 then Got(d, s)
    else
      var (d', s') :- DecodeEntry(nfc, s, d);
      DecodeEntries(nfc, s', n - 1, d')
  }

  const EMPTY_DRAFT: Draft := Draft(None, None, None, None, [], None)

  /** `VaultPayload::new` and the settings put into it. */
  function Assemble(d: Draft): (r: Result<Payload>)
    requires DraftPrints(d)
    ensures r.Ok? && |d.unknown| <= 4 + MAX_RECORDS ==> Prints(r.value)
  {
    if d.vaultId.None? || d.revision.None? || d.records.None? || d.idleTimeoutSeconds.None? then Err(InvalidVaultPayload)
    else if |d.records.value| > MAX_RECORDS || !DistinctRecords(d.records.value) then Err(InvalidVaultPayload)
    else Ok(Payload(d.vaultId.value, d.revision.value, d.records.value, d.idleTimeoutSeconds.value, d.unknown))
  }

  /** `decode_payload`, with its final comparison against the canonical form. */
  function DecodePayload(nfc: Normalizer, input: seq<Byte>): Result<Payload> {
    if |input| > MAX_VAULT_PAYLOAD_BYTES then Err(VaultPayloadTooLarge)
    else
      match ReadLength(5, input)
      case Fail => Err(InvalidVaultPayload)
      case Got(entries, rest) =>
        if entries > 4 + MAX_RECORDS then Err(InvalidVaultPayload)
        else
          match DecodeEntries(nfc, rest, entries, EMPTY_DRAFT)
          case Fail => Err(InvalidVaultPayload)
          case Got(d, rest') =>
            if rest' != [] then Err(InvalidVaultPayload)
            else
              var p :- Assemble(d);
              var again :- EncodePayload(p);
              if again != input then Err(InvalidVaultPayload) else Ok(p)
  }
}
