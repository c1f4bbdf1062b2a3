/** Secret records and the names in them (model.rs). Strings are their UTF-8 bytes. */
module Model {
  import opened Bytes
  import opened Utf8

  datatype Error =
    | InvalidSecretRef | InvalidFieldName | FieldTooLarge | EmptyRecord | TooManyFields | DuplicateField
    | DuplicateSecretName | SecretNotFound | RevisionOverflow | InvalidRequest | InvalidVaultPayload
    | VaultPayloadTooLarge | VaultUnavailable | VaultLocked | StorageFailure | VaultAuthenticationFailed
    | InvalidVaultFile | UnsupportedVaultVersion | CryptoUnavailable
    | Busy | ApprovalCancelled | ApprovalDenied | ApprovalTimeout | EndpointUnavailable | ProcessFailure

  datatype Result<+T> = Ok(value: T) | Err(error: Error) {
    predicate IsFailure() { Err? }

    function PropagateFailure<U>(): Result<U>
      requires Err?
    {
      Err(error)
    }

    function Extract(): T
      requires Ok?
    {
      value
    }
  }

  const MAX_FIELD_BYTES: nat := 1024 * 1024
  const MAX_FIELDS_PER_RECORD: nat := 64

  datatype TextHint = Binary | Text

  datatype Field = Field(name: seq<Byte>, value: seq<Byte>, hint: TextHint)

  datatype Record = Record(id: seq<Byte>, name: seq<Byte>, fields: seq<Field>)

  /** Unicode normalization form C, as a library function: idempotent, and text stays text. */
  type Normalizer = seq<Byte> -> seq<Byte>

  ghost predicate IdealNormalizer(nfc: Normalizer) {
    forall s: seq<Byte> :: WellFormed(s) ==> WellFormed(nfc(s)) && nfc(nfc(s)) == nfc(s)
  }

  /** Control characters and the bidirectional overrides U+061C, U+200E-F, U+202A-E, U+2066-9. */
  predicate ForbiddenChar(c: seq<Byte>) {
    || (|c| == 1 && (c[0] < 0x20 || c[0] == 0x7F))
    || c == [0xD8, 0x9C]
    || (|c| == 3 && c[0] == 0xE2 && c[1] == 0x80 && (c[2] == 0x8E || c[2] == 0x8F || 0xAA <= c[2] <= 0xAE))
    || (|c| == 3 && c[0] == 0xE2 && c[1] == 0x81 && 0xA6 <= c[2] <= 0xA9)
  }

  predicate AnyForbidden(s: seq<Byte>) {
    CharLen(s) > 0 && (ForbiddenChar(s[..CharLen(s)]) || AnyForbidden(s[CharLen(s)..]))
  }

  /** The code point a character encodes (section 3 of RFC 3629). */
  function CodePoint(c: seq<Byte>): int
    requires IsChar(c)
  {
    if |c| == 1 then c[0]
    else if |c| == 2 then 0x40 * (c[0] as int - 0xC0) + Low(c[1])
    else if |c| == 3 then 0x1000 * (c[0] as int - 0xE0) + 0x40 * Low(c[1]) + Low(c[2])
    else 0x4_0000 * (c[0] as int - 0xF0) + 0x1000 * Low(c[1]) + 0x40 * Low(c[2]) + Low(c[3])
  }

  /** The six bits of a continuation byte. */
  function Low(b: Byte): int { b as int - 0x80 }

  predicate ForbiddenPoint(p: int) {
    || p < 0x20 || p == 0x7F
    || p == 0x061C || 0x200E <= p <= 0x200F || 0x202A <= p <= 0x202E || 0x2066 <= p <= 0x2069
  }

  lemma ForbiddenExactly(c: seq<Byte>)
    requires IsChar(c)
    ensures ForbiddenChar(c) <==> ForbiddenPoint(CodePoint(c))
  {}

  /** The character at position `i` is forbidden. */
  predicate ForbiddenAt(s: seq<Byte>, i: nat) {
    && i < |s| && Boundary(s, i) && CharLen(s[i..]) > 0
    && var c := s[i..][..CharLen(s[i..])];
       IsChar(c) && ForbiddenPoint(CodePoint(c))
  }

  lemma ForbiddenShift(s: seq<Byte>, n: nat, i: nat)
    requires 0 < n <= |s| && CharLen(s) == n
    ensures n <= i < |s| && !Tail(s[i]) ==> (ForbiddenAt(s, i) <==> ForbiddenAt(s[n..], i - n))
    ensures 0 < i < n ==> !ForbiddenAt(s, i)
  {
    hide CharLen, CodePoint, ForbiddenPoint, Tail;
    if n <= i < |s| { assert s[n..][i - n..] == s[i..]; }
    if 0 < i < n && !Tail(s[i]) { CharHasNoInnerBoundary(s, i); }
  }

  lemma {:induction false} AnyForbiddenExactly(s: seq<Byte>)
    requires WellFormed(s)
    ensures AnyForbidden(s) <==> exists i: nat :: ForbiddenAt(s, i)
    decreases |s|
  {
    hide CharLen, ForbiddenChar, CodePoint, ForbiddenPoint;
    if s != [] {
      var n := CharLen(s);
      Peel(s);
      ForbiddenExactly(s[..n]);
      assert s[0..] == s;
      AnyForbiddenExactly(s[n..]);
      assert ForbiddenChar(s[..n]) <==> ForbiddenAt(s, 0);
      if i: nat :| ForbiddenAt(s[n..], i) {
        StartIsNoTail(s[n..], i);
        ForbiddenShift(s, n, i + n);
      }
      if i: nat :| ForbiddenAt(s, i) {
        StartIsNoTail(s, i);
        ForbiddenShift(s, n, i);
      }
    }
  }

  lemma StartIsNoTail(s: seq<Byte>, i: nat)
    requires ForbiddenAt(s, i)
    ensures !Tail(s[i])
  {
    hide CharLen, CodePoint, ForbiddenPoint, Tail;
    CharStarts(s[i..]);
  }

  const DOUBLE_COLON: seq<Byte> := [0x3A, 0x3A]
  const ID_PREFIX: seq<Byte> := [0x69, 0x64, 0x3A]

  predicate NormalNameOk(n: seq<Byte>) {
    0 < |n| <= 128 && !Contains(n, DOUBLE_COLON) && !(ID_PREFIX <= n) && !AnyForbidden(n)
  }

  /** `SecretName::parse` */
  function ParseName(nfc: Normalizer, input: seq<Byte>): Result<seq<Byte>> {
    var normalized := nfc(input);
    if NormalNameOk(normalized) then Ok(normalized) else Err(InvalidSecretRef)
  }

  predicate ColonsAt(s: seq<Byte>, i: nat) { i + 2 <= |s| && Spell(s[i..i + 2], "::") }

  lemma ColonsExactly(s: seq<Byte>)
    ensures Contains(s, DOUBLE_COLON) <==> exists i: nat :: ColonsAt(s, i)
  {
    if Contains(s, DOUBLE_COLON) {
      var i: nat :| i <= |s| && OccursAt(s, DOUBLE_COLON, i);
      assert ColonsAt(s, i);
    }
    if i: nat :| ColonsAt(s, i) {
      assert OccursAt(s, DOUBLE_COLON, i);
    }
  }

  /** A name is accepted as its normal form, exactly when that has 1 to 128 bytes, no "::", does not start
      with "id:" and has no forbidden character in it. */
  lemma ParseNameExactly(nfc: Normalizer, input: seq<Byte>, name: seq<Byte>)
    requires IdealNormalizer(nfc) && WellFormed(input)
    ensures ParseName(nfc, input) == Ok(name) <==>
              && name == nfc(input) && 1 <= |name| <= 128
              && !(exists i: nat :: ColonsAt(name, i))
              && !(|name| >= 3 && Spell(name[..3], "id:"))
              && !(exists i: nat :: ForbiddenAt(name, i))
  {
    hide WellFormed, ForbiddenAt, AnyForbidden, Contains, ColonsAt;
    var n := nfc(input);
    AnyForbiddenExactly(n);
    ColonsExactly(n);
    assert ID_PREFIX <= n <==> |n| >= 3 && Spell(n[..3], "id:");
  }

  /** A name that parsing leaves as it is. */
  ghost predicate NameOk(nfc: Normalizer, name: seq<Byte>) {
    WellFormed(name) && ParseName(nfc, name) == Ok(name)
  }

  lemma ParsedNameIsOk(nfc: Normalizer, input: seq<Byte>)
    requires IdealNormalizer(nfc) && WellFormed(input) && ParseName(nfc, input).Ok?
    ensures NameOk(nfc, ParseName(nfc, input).value)
  {
    hide NormalNameOk, WellFormed;
  }

  predicate Alpha(b: Byte) { 0x41 <= b <= 0x5A || 0x61 <= b <= 0x7A }

  predicate FieldByte(b: Byte) { Alpha(b) || 0x30 <= b <= 0x39 || b == 0x5F || b == 0x2D }

  /** `FieldName::parse` */
  predicate FieldNameOk(name: seq<Byte>) {
    && 0 < |name| <= 64 && Alpha(name[0])
    && forall i :: 1 <= i < |name| ==> FieldByte(name[i])
  }

  lemma FieldNameIsText(name: seq<Byte>)
    requires FieldNameOk(name)
    ensures WellFormed(name)
  {
    hide WellFormed;
    AsciiIsWellFormed(name);
  }

  predicate FieldOk(f: Field) {
    FieldNameOk(f.name) && |f.value| <= MAX_FIELD_BYTES
  }

  predicate DistinctFields(fields: seq<Field>) {
    forall i, j :: 0 <= i < j < |fields| ==> fields[i].name != fields[j].name
  }

  /** `SecretRecord::from_parts` */
  function FromParts(nfc: Normalizer, id: seq<Byte>, name: seq<Byte>, fields: seq<Field>): (r: Result<Record>)
    ensures r.Ok? ==> r.value.id == id && r.value.fields == fields && ParseName(nfc, name) == Ok(r.value.name)
  {
    if fields == [] then Err(EmptyRecord)
    else if |fields| > MAX_FIELDS_PER_RECORD then Err(TooManyFields)
    else if !DistinctFields(fields) then Err(DuplicateField)
    else
      var parsed :- ParseName(nfc, name);
      Ok(Record(id, parsed, fields))
  }

  ghost predicate RecordOk(nfc: Normalizer, r: Record) {
    && |r.id| == 16
    && NameOk(nfc, r.name)
    && 0 < |r.fields| <= MAX_FIELDS_PER_RECORD
    && DistinctFields(r.fields)
    && forall i :: 0 <= i < |r.fields| ==> FieldOk(r.fields[i])
  }

  /** Ids and names are both unique. */
  predicate DistinctRecords(records: seq<Record>) {
    forall i, j :: 0 <= i < j < |records| ==> records[i].id != records[j].id && records[i].name != records[j].name
  }
}
