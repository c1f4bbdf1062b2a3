/**
 A vault of exactly 10,000 records: an edit adds one more without complaint, the result is sealed and
 written, and the file does not open again.
*/
module FullVault {
  import opened Bytes
  import opened Utf8
  import opened Cbor
  import opened Model
  import opened Codec
  import opened CodecProofs
  import opened Crypto
  import opened Session
  import opened Store
  import Controller

  // ----- numbered records -----

  function Letters(n: nat): (r: seq<Byte>)
    ensures |r| == 4 && forall i :: 0 <= i < 4 ==> 0x61 <= r[i] <= 0x70
  {
    [0x61 + n / 4096 % 16, 0x61 + n / 256 % 16, 0x61 + n / 16 % 16, 0x61 + n % 16]
  }

  function Number(s: seq<Byte>): int
    requires |s| == 4
  {
    var a: int, b: int, c: int, d: int := s[0], s[1], s[2], s[3];
    4096 * (a - 0x61) + 256 * (b - 0x61) + 16 * (c - 0x61) + (d - 0x61)
  }

  lemma LettersDiffer(m: nat, n: nat)
    requires m < n < 0x1_0000
    ensures Letters(m) != Letters(n)
  {
    Digits(m);
    Digits(n);
    assert Number(Letters(m)) != Number(Letters(n));
  }

  lemma Digits(n: nat)
    requires n < 0x1_0000
    ensures Number(Letters(n)) == n
  {
    assert n / 256 == 16 * (n / 4096) + n / 256 % 16;
    assert n / 16 == 16 * (n / 256) + n / 16 % 16;
  }

  function Zeros(k: nat): (r: seq<Byte>)
    ensures |r| == k
  {
    seq(k, _ => 0)
  }

  function NumberedId(n: nat): seq<Byte> { Zeros(12) + Letters(n) }

  const ONE_FIELD: seq<Field> := [Field([0x61], [], Binary)]

  function Numbered(n: nat): Record { Record(NumberedId(n), Letters(n), ONE_FIELD) }

  function FirstRecords(n: nat): (r: seq<Record>)
    ensures |r| == n && forall i :: 0 <= i < n ==> r[i] == Numbered(i)
  {
    seq(n, i requires 0 <= i < n => Numbered(i))
  }

  function Holding(n: nat): Payload { Payload(Zeros(16), n, FirstRecords(n), 1800, []) }

  predicate AllLetters(s: seq<Byte>) { forall i :: 0 <= i < |s| ==> 0x61 <= s[i] <= 0x70 }

  lemma {:induction false} LettersAreAllowed(s: seq<Byte>)
    requires AllLetters(s)
    ensures !AnyForbidden(s)
    decreases |s|
  {
    if s != [] { LettersAreAllowed(s[1..]); }
  }

  lemma LettersAreName(n: nat)
    ensures WellFormed(Letters(n)) && ParseName(PLAIN.nfc, Letters(n)) == Ok(Letters(n))
  {
    hide WellFormed, AnyForbidden;
    var s := Letters(n);
    AsciiIsWellFormed(s);
    LettersAreAllowed(s);
    forall i: nat | i <= |s| ensures !OccursAt(s, DOUBLE_COLON, i) {
      if i + 2 <= |s| { assert s[i..i + 2][0] == s[i]; }
    }
    assert s[2] != ID_PREFIX[2];
  }

  lemma NumberedIsOk(n: nat)
    ensures RecordOk(PLAIN.nfc, Numbered(n))
  {
    hide WellFormed, ParseName;
    LettersAreName(n);
  }

  lemma NumberedDiffer(m: nat, n: nat)
    requires m < n < 0x1_0000
    ensures Numbered(m).id != Numbered(n).id && Numbered(m).name != Numbered(n).name
  {
    hide Letters;
    LettersDiffer(m, n);
    assert NumberedId(m)[12..] == Letters(m) && NumberedId(n)[12..] == Letters(n);
  }

  lemma HoldingIsOk(n: nat)
    requires n < 0x1_0000
    ensures PayloadOk(PLAIN.nfc, Holding(n)) && Prints(Holding(n))
  {
    hide RecordOk, RecordPrints, Numbered;
    var p := Holding(n);
    forall i | 0 <= i < n ensures RecordOk(PLAIN.nfc, p.records[i]) { NumberedIsOk(i); }
    forall i, j | 0 <= i < j < n ensures p.records[i].id != p.records[j].id && p.records[i].name != p.records[j].name {
      NumberedDiffer(i, j);
    }
    PayloadOkPrints(PLAIN.nfc, p);
  }

  // ----- their size -----

  lemma FieldIsSmall()
    ensures FieldsPrint(ONE_FIELD) && |FieldsBytes(ONE_FIELD)| <= 64
  {
    hide EncodeHead;
    assert ONE_FIELD[1..] == [];
  }

  lemma NumberedIsSmall(n: nat)
    ensures RecordPrints(Numbered(n)) && |RecordBytes(Numbered(n))| <= 200
  {
    hide EncodeHead, FieldsBytes, Letters;
    FieldIsSmall();
  }

  lemma {:induction false} RecordsAreSmall(records: seq<Record>)
    requires RecordsPrint(records) && forall i :: 0 <= i < |records| ==> |RecordBytes(records[i])| <= 200
    ensures |RecordsBytes(records)| <= 200 * |records|
    decreases |records|
  {
    hide RecordBytes, RecordPrints;
    if records != [] { RecordsAreSmall(records[1..]); }
  }

  ghost predicate IsNumbered(r: Record) { exists n: nat :: r == Numbered(n) }

  ghost predicate AllNumbered(records: seq<Record>) { forall i :: 0 <= i < |records| ==> IsNumbered(records[i]) }

  /** Up to 20,000 numbered records, in any choice and order, are encoded. */
  lemma NumberedFit(p: Payload)
    requires Prints(p) && |p.vaultId| == 16 && p.unknown == [] && |p.records| <= 20_000
    requires AllNumbered(p.records)
    ensures EncodePayload(p).Ok?
  {
    hide EncodeHead, RecordsBytes, RecordBytes, Numbered, RecordPrints;
    forall i | 0 <= i < |p.records| ensures |RecordBytes(p.records[i])| <= 200 {
      assert IsNumbered(p.records[i]);
      var n: nat :| p.records[i] == Numbered(n);
      NumberedIsSmall(n);
    }
    RecordsAreSmall(p.records);
  }

  lemma HoldingIsSmall(n: nat)
    requires n <= 20_000 && Prints(Holding(n))
    ensures EncodePayload(Holding(n)).Ok?
  {
    hide Numbered, Prints, PayloadBytes;
    forall i | 0 <= i < n ensures IsNumbered(Holding(n).records[i]) { assert Holding(n).records[i] == Numbered(i); }
    NumberedFit(Holding(n));
  }

  // ----- one record more -----

  const ONE_MORE: Edit := Edit.Add(NumberedId(MAX_RECORDS), Letters(MAX_RECORDS), ONE_FIELD)

  /** A session holding 10,000 records adds another, and the result is still encoded. */
  lemma FullVaultTakesOneMore()
    ensures PayloadOk(PLAIN.nfc, Holding(MAX_RECORDS)) && |Holding(MAX_RECORDS).records| == 10_000
    ensures EditOk(PLAIN.nfc, Holding(MAX_RECORDS), ONE_MORE)
    ensures Edited(PLAIN.nfc, Holding(MAX_RECORDS), ONE_MORE) == Ok(Holding(MAX_RECORDS + 1))
    ensures Prints(Holding(MAX_RECORDS + 1)) && EncodePayload(Holding(MAX_RECORDS + 1)).Ok?
  {
    hide PayloadOk, Prints, Letters, ParseName, WellFormed, PayloadBytes;
    var n := MAX_RECORDS;
    HoldingIsOk(n);
    HoldingIsOk(n + 1);
    HoldingIsSmall(n + 1);
    LettersAreName(n);
    forall i | 0 <= i < n ensures Numbered(i).id != NumberedId(n) && Numbered(i).name != Letters(n) { NumberedDiffer(i, n); }
    assert FromParts(PLAIN.nfc, NumberedId(n), Letters(n), ONE_FIELD) == Ok(Numbered(n));
    assert FirstRecords(n) + [Numbered(n)] == FirstRecords(n + 1);
  }

  const HEADER: KdfHeader := KdfHeader(64 * 1024, 3, 4, Zeros(16))
  const KEYS: KeyMaterial := KeyMaterial(Prefix(HEADER) + Zeros(NONCE_BYTES) + (ZERO_KEY + ZERO_TAG), ZERO_KEY)

  lemma KeysProtect()
    ensures Protects(PLAIN, [], KEYS)
  {
    hide Prefix, Ascii;
    assert Wraps(PLAIN, [], KEYS, HEADER, Zeros(NONCE_BYTES));
  }

  lemma PlainSeals(p: Payload)
    requires Prints(p) && EncodePayload(p).Ok?
    ensures Seal(PLAIN, p, KEYS, Zeros(NONCE_BYTES)).Ok?
  {
    hide PayloadBytes, Prefix, Prints, BigEndian;
  }

  /** The file of the full vault opens. The file written after one more edit does not, though every step
      that wrote it succeeded. */
  lemma OneMoreIsLost()
    ensures Ideal(PLAIN) && Protects(PLAIN, [], KEYS)
    ensures var p, q := Holding(MAX_RECORDS), Holding(MAX_RECORDS + 1);
            && Prints(p) && Prints(q) && Edited(PLAIN.nfc, p, ONE_MORE) == Ok(q)
            && (exists file :: Seal(PLAIN, p, KEYS, Zeros(NONCE_BYTES)) == Ok(file) && OpenCopy(PLAIN, [], Some(file)).Some?)
            && (exists file :: Seal(PLAIN, q, KEYS, Zeros(NONCE_BYTES)) == Ok(file) && OpenCopy(PLAIN, [], Some(file)).None?)
  {
    hide Ideal, Protects, PayloadOk, Prints, Seal, Edited, OpenCopy, PayloadBytes, RecordOk;
    IdealIsPossible();
    KeysProtect();
    FullVaultTakesOneMore();
    HoldingIsOk(MAX_RECORDS);
    HoldingIsOk(MAX_RECORDS + 1);
    HoldingIsSmall(MAX_RECORDS);
    var p, q, nonce := Holding(MAX_RECORDS), Holding(MAX_RECORDS + 1), Zeros(NONCE_BYTES);
    PlainSeals(p);
    PlainSeals(q);
    Controller.SealedOpens(PLAIN, [], UnlockedVault(p, KEYS), nonce, Seal(PLAIN, p, KEYS, nonce).value);
    Controller.SealedOpens(PLAIN, [], UnlockedVault(q, KEYS), nonce, Seal(PLAIN, q, KEYS, nonce).value);
  }

  /** The removal of any one record succeeds, and what is left is within the bound. */
  lemma RemovalFits(k: nat)
    requires k <= MAX_RECORDS
    ensures var edit, q := Edit.Delete(Id(NumberedId(k))), Holding(MAX_RECORDS + 1);
            && Edited(PLAIN.nfc, q, edit).Ok?
            && var back := Edited(PLAIN.nfc, q, edit).value;
               PayloadOk(PLAIN.nfc, back) && |back.records| == MAX_RECORDS && back.unknown == [] && AllNumbered(back.records)
  {
    hide Ideal, PayloadOk, RecordOk, Numbered, NumberedId;
    var q, edit := Holding(MAX_RECORDS + 1), Edit.Delete(Id(NumberedId(k)));
    IdealIsPossible();
    NormalizerOf(PLAIN);
    HoldingIsOk(MAX_RECORDS + 1);
    NumberedHasId(k);
    assert Names(Id(NumberedId(k)), q.records[k]);
    EditKeeps(PLAIN.nfc, q, edit);
    EditCounts(PLAIN.nfc, q, edit);
    var back := Edited(PLAIN.nfc, q, edit).value;
    var at := Find(q.records, Id(NumberedId(k))).value;
    forall i | 0 <= i < |back.records| ensures IsNumbered(back.records[i]) {
      assert back.records[i] == Numbered(if i < at then i else i + 1);
    }
  }

  lemma FittingOpens(p: Payload)
    requires PayloadOk(PLAIN.nfc, p) && |p.records| <= MAX_RECORDS && p.unknown == []
    requires AllNumbered(p.records)
    ensures Prints(p)
    ensures exists file :: Seal(PLAIN, p, KEYS, Zeros(NONCE_BYTES)) == Ok(file) && OpenCopy(PLAIN, [], Some(file)) == Some(UnlockedVault(p, KEYS))
  {
    hide Ideal, Protects, PayloadOk, Prints, Seal, OpenCopy, PayloadBytes, AllNumbered, KEYS, PLAIN;
    IdealIsPossible();
    KeysProtect();
    PayloadOkPrints(PLAIN.nfc, p);
    VaultIdLength(PLAIN.nfc, p);
    NumberedFit(p);
    PlainSeals(p);
    Controller.SealedOpens(PLAIN, [], UnlockedVault(p, KEYS), Zeros(NONCE_BYTES), Seal(PLAIN, p, KEYS, Zeros(NONCE_BYTES)).value);
  }

  /** And back: in the same session the removal of any one record, the new one or an old one, succeeds,
      and seals to a file that opens to what is left. */
  lemma OneLessIsBack(k: nat)
    requires k <= MAX_RECORDS
    ensures var edit, q := Edit.Delete(Id(NumberedId(k))), Holding(MAX_RECORDS + 1);
            && Edited(PLAIN.nfc, q, edit).Ok?
            && var back := Edited(PLAIN.nfc, q, edit).value;
               && |back.records| == MAX_RECORDS && Prints(back)
               && exists file :: Seal(PLAIN, back, KEYS, Zeros(NONCE_BYTES)) == Ok(file) && OpenCopy(PLAIN, [], Some(file)) == Some(UnlockedVault(back, KEYS))
  {
    hide PayloadOk, Prints, Seal, OpenCopy, AllNumbered, NumberedId, Edited;
    RemovalFits(k);
    FittingOpens(Edited(PLAIN.nfc, Holding(MAX_RECORDS + 1), Edit.Delete(Id(NumberedId(k)))).value);
  }

  lemma NumberedHasId(k: nat)
    ensures Numbered(k).id == NumberedId(k)
  {}

  lemma VaultIdLength(nfc: Normalizer, p: Payload)
    requires PayloadOk(nfc, p)
    ensures |p.vaultId| == 16
  {
    hide RecordOk, UnknownOk;
  }
}
