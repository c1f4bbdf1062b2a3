/**
 The bytes of the formats themselves, byte by byte: what the printers and parsers agree on is this format
 and no other. The empty vault below is the one in crates/ladon-core/tests/codec_roundtrip.rs, and its file
 has the layout of crates/ladon-core/tests/fixtures/v1-empty-vault.hex.
*/
module Layout {
  import opened Bytes
  import opened Utf8
  import opened Cbor
  import opened Model
  import opened Codec
  import opened CodecProofs
  import opened Crypto

  // ----- heads -----

  /** The major type in the first three bits, the argument in the other five or in the one, two, four or
      eight bytes after them, the most significant first. */
  lemma HeadLayout(major: nat, n: nat)
    requires major < 8 && n <= U64_MAX
    ensures EncodeHead(major, n) ==
            if n < 24 then [32 * major + n]
            else if n < 0x100 then [32 * major + 24, n]
            else if n < 0x1_0000 then [32 * major + 25, n / 0x100, n % 0x100]
            else if n < 0x1_0000_0000 then [32 * major + 26, n / 0x100_0000, n / 0x1_0000 % 0x100, n / 0x100 % 0x100, n % 0x100]
            else [32 * major + 27] + BigEndian(n / 0x1_0000_0000, 4)
                 + [n / 0x100_0000 % 0x100, n / 0x1_0000 % 0x100, n / 0x100 % 0x100, n % 0x100]
  {
    hide BigEndian;
    if n < 0x100 { OneByte(n); }
    if n < 0x1_0000 { TwoBytes(n); }
    if n < 0x1_0000_0000 { FourBytes(n); } else { EightBytes(n); }
  }

  lemma OneByte(n: nat)
    requires n < 0x100
    ensures BigEndian(n, 1) == [n]
  {
    assert BigEndian(n / 256, 0) == [];
  }

  lemma TwoBytes(n: nat)
    requires n < 0x1_0000
    ensures BigEndian(n, 2) == [n / 0x100, n % 0x100]
  {
    OneByte(n / 0x100);
  }

  lemma FourBytes(n: nat)
    requires n < 0x1_0000_0000
    ensures BigEndian(n, 4) == [n / 0x100_0000, n / 0x1_0000 % 0x100, n / 0x100 % 0x100, n % 0x100]
  {
    TwoBytes(n / 0x1_0000);
    assert n / 0x100 / 0x100 == n / 0x1_0000 && n / 0x1_0000 / 0x100 == n / 0x100_0000;
    assert BigEndian(n / 0x100, 3) == BigEndian(n / 0x1_0000, 2) + [n / 0x100 % 0x100];
  }

  lemma EightBytes(n: nat)
    ensures BigEndian(n, 8) == BigEndian(n / 0x1_0000_0000, 4) + [n / 0x100_0000 % 0x100, n / 0x1_0000 % 0x100, n / 0x100 % 0x100, n % 0x100]
  {
    assert BigEndian(n, 8) == BigEndian(n / 0x100, 7) + [n % 0x100];
    assert BigEndian(n / 0x100, 7) == BigEndian(n / 0x1_0000, 6) + [n / 0x100 % 0x100] by { assert n / 0x100 / 0x100 == n / 0x1_0000; }
    assert BigEndian(n / 0x1_0000, 6) == BigEndian(n / 0x100_0000, 5) + [n / 0x1_0000 % 0x100] by { assert n / 0x1_0000 / 0x100 == n / 0x100_0000; }
    assert BigEndian(n / 0x100_0000, 5) == BigEndian(n / 0x1_0000_0000, 4) + [n / 0x100_0000 % 0x100] by {
      assert n / 0x100_0000 / 0x100 == n / 0x1_0000_0000;
    }
  }

  lemma ShortHead(major: nat, n: nat)
    requires major < 8 && n < 24
    ensures EncodeHead(major, n) == [32 * major + n]
  {}

  // ----- the payload -----

  /** A vault without records: its id, its revision, no records, and the idle timeout of 30 minutes. */
  lemma EmptyVaultLayout(id: seq<Byte>, revision: nat)
    requires |id| == 16 && revision < 24
    ensures var p := Payload(id, revision, [], 1800, []);
            Prints(p) && PayloadBytes(p) == [0xA4, 0x00, 0x50] + id + [0x01, revision, 0x02, 0x80, 0x03, 0xA1, 0x00, 0x19, 0x07, 0x08]
  {
    hide PayloadBytes;
    EmptyVaultPieces(id, revision);
    EmptyVaultParts(id, [0xA4], [0x00], [0x50], [0x01], [revision], [0x02], [0x80], [0x03], [0xA1], [0x19, 0x07, 0x08]);
  }

  lemma EmptyVaultPieces(id: seq<Byte>, revision: nat)
    requires |id| == 16 && revision < 24
    ensures var p := Payload(id, revision, [], 1800, []);
            Prints(p) && PayloadBytes(p) == [0xA4] + [0x00] + ([0x50] + id) + [0x01] + [revision] + [0x02] + [0x80] + [] + [0x03] + [0xA1] + [0x00] + [0x19, 0x07, 0x08] + []
  {
    hide EncodeHead, BigEndian;
    ShortHead(5, 4); ShortHead(0, 0); ShortHead(2, 16); ShortHead(0, 1); ShortHead(0, revision);
    ShortHead(0, 2); ShortHead(4, 0); ShortHead(0, 3); ShortHead(5, 1); HeadLayout(0, 1800);
  }

  lemma EmptyVaultParts(id: seq<Byte>, a: seq<Byte>, zero: seq<Byte>, b: seq<Byte>, one: seq<Byte>, rev: seq<Byte>, two: seq<Byte>, none: seq<Byte>,
                        three: seq<Byte>, m: seq<Byte>, idle: seq<Byte>)
    ensures a + zero + (b + id) + one + rev + two + none + [] + three + m + zero + idle + []
         == a + zero + b + id + (one + rev + two + none + three + m + zero + idle)
  {}

  /** A field with a short name and value: its name as text, its value as bytes, and 1 for text. */
  lemma FieldLayout(f: Field)
    requires |f.name| < 24 && |f.value| < 24
    ensures FieldBytes(f) == [0xA3, 0x00, 0x60 + |f.name|] + f.name + [0x01, 0x40 + |f.value|] + f.value + [0x02, if f.hint.Text? then 1 else 0]
  {
    hide EncodeHead;
    ShortHead(5, 3); ShortHead(0, 0); ShortHead(3, |f.name|); ShortHead(0, 1); ShortHead(2, |f.value|); ShortHead(0, 2);
  }

  /** A record with a short name and few fields: its id as bytes, its name as text, and its fields. */
  lemma RecordLayout(r: Record)
    requires |r.id| == 16 && |r.name| < 24 && |r.fields| < 24 && FieldsPrint(r.fields)
    ensures RecordBytes(r) == [0xA3, 0x00, 0x50] + r.id + [0x01, 0x60 + |r.name|] + r.name + [0x02, 0x80 + |r.fields|] + FieldsBytes(r.fields)
  {
    hide EncodeHead;
    ShortHead(5, 3); ShortHead(0, 0); ShortHead(2, 16); ShortHead(0, 1); ShortHead(3, |r.name|); ShortHead(0, 2); ShortHead(4, |r.fields|);
  }

  /** Records, fields and unknown entries stand one after the other, in order. */
  lemma ListLayout(r: Record, rs: seq<Record>, f: Field, fs: seq<Field>, key: nat, raw: seq<Byte>, more: seq<(nat, seq<Byte>)>)
    requires RecordPrints(r) && RecordsPrint(rs) && FieldPrints(f) && FieldsPrint(fs) && key < 24 && UnknownPrints(more)
    ensures RecordsPrint([r] + rs) && RecordsBytes([r] + rs) == RecordBytes(r) + RecordsBytes(rs) && RecordsBytes([]) == []
    ensures FieldsPrint([f] + fs) && FieldsBytes([f] + fs) == FieldBytes(f) + FieldsBytes(fs) && FieldsBytes([]) == []
    ensures UnknownPrints([(key, raw)] + more) && UnknownBytes([(key, raw)] + more) == [key] + raw + UnknownBytes(more) && UnknownBytes([]) == []
  {
    hide EncodeHead, RecordBytes, FieldBytes, RecordPrints, FieldPrints;
    ShortHead(0, key);
    assert ([r] + rs)[1..] == rs && ([f] + fs)[1..] == fs && ([(key, raw)] + more)[1..] == more;
  }

  // ----- the vault file -----

  lemma LabelLayout(s: string)
    requires |s| < 16 && forall i :: 0 <= i < |s| ==> s[i] < 128 as char
    ensures Label(s) == [0x60 + |s|] + Ascii(s) && Spell(Ascii(s), s)
  {
    hide EncodeHead;
    ShortHead(3, |s|);
  }

  lemma LabelsLayout()
    ensures Label("kdf") == [0x63] + Ascii("kdf") && |Ascii("kdf")| == 3
    ensures Label("argon2id") == [0x68] + Ascii("argon2id") && |Ascii("argon2id")| == 8
    ensures Label("salt") == [0x64] + Ascii("salt") && |Ascii("salt")| == 4
    ensures Label("passes") == [0x66] + Ascii("passes") && |Ascii("passes")| == 6
    ensures Label("memory_kib") == [0x6A] + Ascii("memory_kib") && |Ascii("memory_kib")| == 10
    ensures Label("parallelism") == [0x6B] + Ascii("parallelism") && |Ascii("parallelism")| == 11
  {
    hide Label, Ascii, WellFormed, EncodeHead;
    LabelLayout("kdf");
    LabelLayout("argon2id");
    LabelLayout("salt");
    LabelLayout("passes");
    LabelLayout("memory_kib");
    LabelLayout("parallelism");
  }

  /** The header of a new vault: Argon2id over 64 MiB in three passes and four lanes. */
  lemma NewHeaderLayout(salt: seq<Byte>)
    requires |salt| == 16
    ensures HeaderBytes(KdfHeader(64 * 1024, 3, 4, salt))
         == [0xA5] + ([0x63] + Ascii("kdf") + ([0x68] + Ascii("argon2id")
            + ([0x64] + Ascii("salt") + ([0x50] + salt
            + ([0x66] + Ascii("passes") + ([0x03]
            + ([0x6A] + Ascii("memory_kib") + ([0x1A, 0x00, 0x01, 0x00, 0x00]
            + ([0x6B] + Ascii("parallelism") + [0x04])))))))))
    ensures |HeaderBytes(KdfHeader(64 * 1024, 3, 4, salt))| == 0x49
  {
    hide EncodeHead, Label, Ascii, BigEndian, WellFormed;
    ShortHead(5, 5); ShortHead(2, 16); ShortHead(0, 3); HeadLayout(0, 64 * 1024); ShortHead(0, 4);
    LabelsLayout();
  }

  /** The first 14 bytes: "LADONV1" and a zero, version 1, and the length of the header. */
  lemma PrefixLayout(salt: seq<Byte>)
    requires |salt| == 16
    ensures var h := KdfHeader(64 * 1024, 3, 4, salt);
            && Spell(MAGIC[..7], "LADONV1") && MAGIC[7..] == [0x00]
            && Prefix(h) == MAGIC + [0x00, 0x01] + [0x00, 0x00, 0x00, 0x49] + HeaderBytes(h)
  {
    hide HeaderBytes, BigEndian;
    NewHeaderLayout(salt);
    TwoBytes(1);
    FourBytes(0x49);
  }

  /** What stands before the encrypted payload of a new vault. */
  function NewVaultFront(salt: seq<Byte>): seq<Byte>
    requires |salt| == 16
  {
    MAGIC + [0x00, 0x01] + [0x00, 0x00, 0x00, 0x49] + HeaderBytes(KdfHeader(64 * 1024, 3, 4, salt))
  }

  /** The key of a new vault, encrypted under the passphrase and bound to the prefix before it. */
  lemma NewKeyLayout(lib: Library, passphrase: seq<Byte>, salt: seq<Byte>, key: seq<Byte>, wrapNonce: seq<Byte>, km: KeyMaterial)
    returns (kek: seq<Byte>, wrapped: seq<Byte>)
    requires Ideal(lib) && |salt| == 16 && |key| == KEY_BYTES
    requires WrappedKey(lib, passphrase, KdfHeader(64 * 1024, 3, 4, salt), key, wrapNonce) == Ok(km)
    ensures lib.kdf(passphrase, KdfHeader(64 * 1024, 3, 4, salt)) == Some(kek)
    ensures lib.encrypt(kek, wrapNonce, key, Ascii("ladon/dek/v1") + NewVaultFront(salt)) == Some(wrapped) && |wrapped| == 48
    ensures km == KeyMaterial(NewVaultFront(salt) + wrapNonce + wrapped, key)
  {
    hide HeaderBytes, Prefix, IdealNormalizer, Ascii, WellFormed;
    PrefixLayout(salt);
    var h := KdfHeader(64 * 1024, 3, 4, salt);
    kek := lib.kdf(passphrase, h).value;
    wrapped := lib.encrypt(kek, wrapNonce, key, DEK_DOMAIN + Prefix(h)).value;
  }

  /** The file of a new vault: its front, the wrapped key behind its nonce, the length of the payload, its
      nonce and the encrypted payload, which is bound to all that stands before it. */
  lemma NewVaultFile(lib: Library, passphrase: seq<Byte>, id: seq<Byte>, salt: seq<Byte>, key: seq<Byte>, wrapNonce: seq<Byte>, nonce: seq<Byte>,
                     km: KeyMaterial, file: seq<Byte>) returns (kek: seq<Byte>, wrapped: seq<Byte>, sealed: seq<Byte>)
    requires Ideal(lib) && |id| == 16 && |salt| == 16 && |key| == KEY_BYTES
    requires WrappedKey(lib, passphrase, KdfHeader(64 * 1024, 3, 4, salt), key, wrapNonce) == Ok(km)
    requires Prints(Payload(id, 0, [], 1800, [])) && Seal(lib, Payload(id, 0, [], 1800, []), km, nonce) == Ok(file)
    ensures lib.kdf(passphrase, KdfHeader(64 * 1024, 3, 4, salt)) == Some(kek)
    ensures lib.encrypt(kek, wrapNonce, key, Ascii("ladon/dek/v1") + NewVaultFront(salt)) == Some(wrapped) && |wrapped| == 48
    ensures var through := NewVaultFront(salt) + wrapNonce + wrapped + [0, 0, 0, 0, 0, 0, 0, 29];
            var plain := [0xA4, 0x00, 0x50] + id + [0x01, 0x00, 0x02, 0x80, 0x03, 0xA1, 0x00, 0x19, 0x07, 0x08];
            && lib.encrypt(key, nonce, plain, Ascii("ladon/payload/v1") + through) == Some(sealed) && |sealed| == 45
            && file == through + nonce + sealed
  {
    hide BigEndian, PayloadBytes, Prints, IdealNormalizer, Ascii, WellFormed, NewVaultFront, WrappedKey;
    kek, wrapped := NewKeyLayout(lib, passphrase, salt, key, wrapNonce, km);
    EmptyVaultLayout(id, 0);
    TwentyNine();
    var bytes := PayloadBytes(Payload(id, 0, [], 1800, []));
    assert |bytes| == 29;
    var through := km.prefixThroughDekTag + BigEndian(29, 8);
    sealed := lib.encrypt(key, nonce, bytes, PAYLOAD_DOMAIN + through).value;
  }

  lemma TwentyNine()
    ensures BigEndian(29, 8) == [0, 0, 0, 0, 0, 0, 0, 29]
  {
    EightBytes(29);
    FourBytes(0);
  }
}
