/**
 The encrypted vault file (crypto.rs): its layout, sealing and unlocking.

 Key derivation, the authenticated cipher and Unicode normalization are library functions, and what
 is assumed of them is written down in `Ideal`. Random bytes are parameters.
*/
module Crypto {
  import opened Bytes
  import opened Utf8
  import opened Cbor
  import opened Model
  import opened Codec
  import opened CodecProofs

  const MAGIC: seq<Byte> := [0x4C, 0x41, 0x44, 0x4F, 0x4E, 0x56, 0x31, 0x00]
  const VERSION: nat := 1
  const FIXED_PREFIX_BYTES: nat := 14
  const MAX_HEADER_BYTES: nat := 4 * 1024
  const NONCE_BYTES: nat := 24
  const KEY_BYTES: nat := 32
  const TAG_BYTES: nat := 16
  const WRAPPER_BYTES: nat := NONCE_BYTES + KEY_BYTES + TAG_BYTES
  const PAYLOAD_FIXED_BYTES: nat := 8 + NONCE_BYTES + TAG_BYTES
  const MAX_VAULT_FILE_BYTES: nat :=
    FIXED_PREFIX_BYTES + MAX_HEADER_BYTES + WRAPPER_BYTES + PAYLOAD_FIXED_BYTES + MAX_VAULT_PAYLOAD_BYTES

  /** ASCII text as bytes (anything else becomes a question mark). */
  function Ascii(s: string): (r: seq<Byte>)
    ensures |r| == |s| && WellFormed(r)
  {
    var r: seq<Byte> := seq(|s|, i requires 0 <= i < |s| => if s[i] as int < 128 then s[i] as int else 0x3F);
    AsciiIsWellFormed(r);
    r
  }

  const DEK_DOMAIN: seq<Byte> := Ascii("ladon/dek/v1")
  const PAYLOAD_DOMAIN: seq<Byte> := Ascii("ladon/payload/v1")

  datatype KdfHeader = KdfHeader(memoryKib: nat, passes: nat, parallelism: nat, salt: seq<Byte>)

  /** `kdf(passphrase, header)`, `encrypt(key, nonce, plaintext, associated)` and its inverse. */
  datatype Library = Library(
    nfc: Normalizer,
    kdf: (seq<Byte>, KdfHeader) -> Option<seq<Byte>>,
    encrypt: (seq<Byte>, seq<Byte>, seq<Byte>, seq<Byte>) -> Option<seq<Byte>>,
    decrypt: (seq<Byte>, seq<Byte>, seq<Byte>, seq<Byte>) -> Option<seq<Byte>>)

  /** The cipher adds a tag of 16 bytes, and decryption accepts exactly what encryption produces. */
  ghost predicate Ideal(lib: Library) {
    && IdealNormalizer(lib.nfc)
    && (forall p, h :: lib.kdf(p, h).Some? ==> |lib.kdf(p, h).value| == KEY_BYTES)
    && (forall k, n, p, a :: lib.encrypt(k, n, p, a).Some? ==>
          |lib.encrypt(k, n, p, a).value| == |p| + TAG_BYTES && lib.decrypt(k, n, lib.encrypt(k, n, p, a).value, a) == Some(p))
    && (forall k, n, c, a :: lib.decrypt(k, n, c, a).Some? ==> lib.encrypt(k, n, lib.decrypt(k, n, c, a).value, a) == Some(c))
  }

  const ZERO_TAG: seq<Byte> := seq(TAG_BYTES, _ => 0)
  const ZERO_KEY: seq<Byte> := seq(KEY_BYTES, _ => 0)

  /** A library that appends sixteen zeros for encryption. */
  const PLAIN: Library := Library(
    (s: seq<Byte>) => s,
    (p: seq<Byte>, h: KdfHeader) => Some(ZERO_KEY),
    (k: seq<Byte>, n: seq<Byte>, p: seq<Byte>, a: seq<Byte>) => Some(p + ZERO_TAG),
    (k: seq<Byte>, n: seq<Byte>, c: seq<Byte>, a: seq<Byte>) =>
      if |c| >= TAG_BYTES && c[|c| - TAG_BYTES..] == ZERO_TAG then Some(c[..|c| - TAG_BYTES]) else None)

  /** The assumptions can all be met at once. */
  lemma IdealIsPossible()
    ensures Ideal(PLAIN)
  {
    hide WellFormed;
    forall k, n, p: seq<Byte>, a ensures PLAIN.decrypt(k, n, PLAIN.encrypt(k, n, p, a).value, a) == Some(p) {
      assert (p + ZERO_TAG)[|p|..] == ZERO_TAG && (p + ZERO_TAG)[..|p|] == p;
    }
    forall k, n, c: seq<Byte>, a | PLAIN.decrypt(k, n, c, a).Some? ensures PLAIN.encrypt(k, n, PLAIN.decrypt(k, n, c, a).value, a) == Some(c) {
      assert c == c[..|c| - TAG_BYTES] + ZERO_TAG;
    }
  }

  // ----- the header -----

  predicate BoundsOk(h: KdfHeader) {
    && 32 * 1024 <= h.memoryKib <= 256 * 1024
    && 1 <= h.passes <= 10
    && 1 <= h.parallelism <= 16
    && 16 <= |h.salt| <= 64
  }

  predicate HeaderPrints(h: KdfHeader) {
    h.memoryKib <= U32_MAX && h.passes <= U32_MAX && h.parallelism <= U32_MAX && |h.salt| <= U32_MAX
  }

  function Label(s: string): seq<Byte>
    requires |s| <= 16
  {
    EncodeString(3, Ascii(s))
  }

  /** `encode_header`, before its length check. */
  function HeaderBytes(h: KdfHeader): seq<Byte>
    requires HeaderPrints(h)
  {
    EncodeHead(5, 5) + (Label("kdf") + (Label("argon2id")
    + (Label("salt") + (EncodeString(2, h.salt)
    + (Label("passes") + (EncodeHead(0, h.passes)
    + (Label("memory_kib") + (EncodeHead(0, h.memoryKib)
    + (Label("parallelism") + EncodeHead(0, h.parallelism))))))))))
  }

  /** `expect_key` */
  function ExpectLabel(word: string, s: seq<Byte>): (r: Parsed<string>)
    ensures r.Got? ==> |r.rest| < |s|
  {
    hide Ascii, WellFormed;
    match ReadText(s)
    case Got(t, rest) => if t == Ascii(word) then Got(word, rest) else Fail
    case Fail => Fail
  }

  function ReadU32(s: seq<Byte>): (r: Parsed<nat>)
    ensures r.Got? ==> r.value <= U32_MAX && |r.rest| < |s|
  {
    match ReadUint(s)
    case Got(n, rest) => if n <= U32_MAX then Got(n, rest) else Fail
    case Fail => Fail
  }

  function ReadHeader(s: seq<Byte>): (r: Parsed<KdfHeader>)
    ensures r.Got? ==> r.value.memoryKib <= U32_MAX && r.value.passes <= U32_MAX && r.value.parallelism <= U32_MAX
  {
    hide ReadLength, ExpectLabel, ReadBytes, ReadU32;
    var (n, s1) :- ReadLength(5, s);
    if n != 5 then Fail else
    var (_, s2) :- ExpectLabel("kdf", s1);
    var (_, s3) :- ExpectLabel("argon2id", s2);
    var (_, s4) :- ExpectLabel("salt", s3);
    var (salt, s5) :- ReadBytes(s4);
    var (_, s6) :- ExpectLabel("passes", s5);
    var (passes, s7) :- ReadU32(s6);
    var (_, s8) :- ExpectLabel("memory_kib", s7);
    var (memory, s9) :- ReadU32(s8);
    var (_, s10) :- ExpectLabel("parallelism", s9);
    var (parallelism, s11) :- ReadU32(s10);
    Got(KdfHeader(memory, passes, parallelism, salt), s11)
  }

  /** `decode_header` */
  function DecodeHeader(input: seq<Byte>): Result<KdfHeader> {
    if |input| > MAX_HEADER_BYTES then Err(InvalidVaultFile)
    else
      match ReadHeader(input)
      case Fail => Err(InvalidVaultFile)
      case Got(h, rest) =>
        if !BoundsOk(h) || rest != [] || HeaderBytes(h) != input then Err(InvalidVaultFile) else Ok(h)
  }

  lemma LabelReads(word: string, t: seq<Byte>)
    requires |word| <= 16
    ensures ExpectLabel(word, Label(word) + t) == Got(word, t)
  {
    hide ReadText, EncodeString, WellFormed;
    ReadTextOfEncode(Ascii(word), t);
  }

  lemma U32Reads(n: nat, t: seq<Byte>)
    requires n <= U32_MAX
    ensures ReadU32(EncodeHead(0, n) + t) == Got(n, t)
  {
    hide ReadUint, EncodeHead;
    ReadUintOfEncode(n, t);
  }

  lemma HeaderReads(h: KdfHeader)
    requires HeaderPrints(h)
    ensures ReadHeader(HeaderBytes(h)) == Got(h, [])
  {
    hide ReadLength, ExpectLabel, ReadBytes, ReadU32, EncodeHead, EncodeString, Label;
    var par := EncodeHead(0, h.parallelism);
    var t9 := Label("parallelism") + par;
    var t7 := Label("memory_kib") + (EncodeHead(0, h.memoryKib) + t9);
    var t5 := Label("passes") + (EncodeHead(0, h.passes) + t7);
    var t3 := Label("salt") + (EncodeString(2, h.salt) + t5);
    var t1 := Label("kdf") + (Label("argon2id") + t3);
    ReadLengthOfEncode(5, 5, t1);
    LabelReads("kdf", Label("argon2id") + t3);
    LabelReads("argon2id", t3);
    LabelReads("salt", EncodeString(2, h.salt) + t5);
    BytesRead(h.salt, t5);
    LabelReads("passes", EncodeHead(0, h.passes) + t7);
    U32Reads(h.passes, t7);
    LabelReads("memory_kib", EncodeHead(0, h.memoryKib) + t9);
    U32Reads(h.memoryKib, t9);
    LabelReads("parallelism", par);
    U32Reads(h.parallelism, []);
    assert par + [] == par;
  }

  lemma LabelLength(s: string)
    requires |s| <= 16
    ensures |Label(s)| <= 25
  {
    hide EncodeHead, Ascii;
  }

  lemma HeaderIsShort(h: KdfHeader)
    requires BoundsOk(h)
    ensures |HeaderBytes(h)| <= MAX_HEADER_BYTES
  {
    hide EncodeHead, Label;
    LabelLength("kdf"); LabelLength("argon2id"); LabelLength("salt");
    LabelLength("passes"); LabelLength("memory_kib"); LabelLength("parallelism");
  }

  /** Exactly the printed headers within the bounds are accepted, and they decode to what was printed. */
  lemma HeaderExactly(input: seq<Byte>, h: KdfHeader)
    ensures DecodeHeader(input) == Ok(h) <==>
              && 0x8000 <= h.memoryKib <= 0x4_0000 && 1 <= h.passes <= 10 && 1 <= h.parallelism <= 16 && 16 <= |h.salt| <= 64
              && HeaderBytes(h) == input
  {
    hide ReadHeader, HeaderBytes;
    if BoundsOk(h) {
      HeaderReads(h);
      HeaderIsShort(h);
    }
  }

  // ----- the file layout -----

  datatype ParsedFile = ParsedFile(
    header: KdfHeader,
    prefixBeforeDek: seq<Byte>,
    dekNonce: seq<Byte>,
    wrappedDek: seq<Byte>,
    prefixThroughDekTag: seq<Byte>,
    prefixThroughPayloadLen: seq<Byte>,
    payloadNonce: seq<Byte>,
    encryptedPayload: seq<Byte>)

  /** `parse_file` */
  function ParseFile(file: seq<Byte>): Result<ParsedFile> {
    if |file| < FIXED_PREFIX_BYTES + WRAPPER_BYTES + PAYLOAD_FIXED_BYTES then Err(InvalidVaultFile)
    else if file[..8] != MAGIC then Err(InvalidVaultFile)
    else if FromBigEndian(file[8..10]) != VERSION then Err(UnsupportedVaultVersion)
    else
      var headerLen := FromBigEndian(file[10..14]);
      var headerEnd := FIXED_PREFIX_BYTES + headerLen;
      var prefixEnd := headerEnd + WRAPPER_BYTES;
      var payloadLenEnd := prefixEnd + 8;
      if headerLen > MAX_HEADER_BYTES || payloadLenEnd > |file| then Err(InvalidVaultFile)
      else
        var header :- DecodeHeader(file[FIXED_PREFIX_BYTES..headerEnd]);
        var payloadLen := FromBigEndian(file[prefixEnd..payloadLenEnd]);
        if payloadLen > MAX_VAULT_PAYLOAD_BYTES then Err(InvalidVaultFile)
        else if payloadLenEnd + NONCE_BYTES + payloadLen + TAG_BYTES != |file| then Err(InvalidVaultFile)
        else Ok(ParsedFile(
                  header,
                  file[..headerEnd],
                  file[headerEnd..headerEnd + NONCE_BYTES],
                  file[headerEnd + NONCE_BYTES..prefixEnd],
                  file[..prefixEnd],
                  file[..payloadLenEnd],
                  file[payloadLenEnd..payloadLenEnd + NONCE_BYTES],
                  file[payloadLenEnd + NONCE_BYTES..]))
  }

  function Prefix(header: KdfHeader): seq<Byte>
    requires BoundsOk(header)
  {
    MAGIC + BigEndian(VERSION, 2) + BigEndian(|HeaderBytes(header)|, 4) + HeaderBytes(header)
  }

  /** The parts of `f`, laid out one after the other, are `file`. */
  predicate Laid(f: ParsedFile, file: seq<Byte>) {
    && BoundsOk(f.header)
    && |f.dekNonce| == NONCE_BYTES && |f.wrappedDek| == KEY_BYTES + TAG_BYTES && |f.payloadNonce| == NONCE_BYTES
    && TAG_BYTES <= |f.encryptedPayload| <= TAG_BYTES + MAX_VAULT_PAYLOAD_BYTES
    && f.prefixBeforeDek == Prefix(f.header)
    && f.prefixThroughDekTag == f.prefixBeforeDek + f.dekNonce + f.wrappedDek
    && f.prefixThroughPayloadLen == f.prefixThroughDekTag + BigEndian(|f.encryptedPayload| - TAG_BYTES, 8)
    && file == f.prefixThroughPayloadLen + f.payloadNonce + f.encryptedPayload
  }

  lemma {:induction false} BigEndianOfValue(s: seq<Byte>)
    ensures BigEndian(FromBigEndian(s), |s|) == s
  {
    if s != [] {
      var front := s[..|s| - 1];
      BigEndianOfValue(front);
      assert FromBigEndian(s) / 256 == FromBigEndian(front) && FromBigEndian(s) % 256 == s[|s| - 1];
      assert front + [s[|s| - 1]] == s;
    }
  }

  lemma FourParts(file: seq<Byte>, a: nat, b: nat, c: nat)
    requires a <= b <= c <= |file|
    ensures file == file[..a] + file[a..b] + file[b..c] + file[c..]
    ensures file[..c] == file[..a] + file[a..b] + file[b..c]
  {}

  /** The accepted files are laid out as `Laid` says. */
  lemma ParsedIsLaid(file: seq<Byte>)
    requires ParseFile(file).Ok?
    ensures Laid(ParseFile(file).value, file)
  {
    hide DecodeHeader, BigEndian, FromBigEndian, HeaderBytes;
    var f := ParseFile(file).value;
    var headerLen := FromBigEndian(file[10..14]);
    var headerEnd := FIXED_PREFIX_BYTES + headerLen;
    var prefixEnd := headerEnd + WRAPPER_BYTES;
    var payloadLenEnd := prefixEnd + 8;
    HeaderExactly(file[14..headerEnd], f.header);
    BigEndianOfValue(file[8..10]);
    BigEndianOfValue(file[10..14]);
    BigEndianOfValue(file[prefixEnd..payloadLenEnd]);
    FourParts(file[..headerEnd], 8, 10, 14);
    assert file[..headerEnd][8..10] == file[8..10] && file[..headerEnd][10..14] == file[10..14];
    assert file[..headerEnd][..8] == file[..8] && file[..headerEnd][14..] == file[14..headerEnd];
    assert |f.encryptedPayload| - TAG_BYTES == FromBigEndian(file[prefixEnd..payloadLenEnd]);
  }

  lemma PrefixSlices(header: KdfHeader)
    requires BoundsOk(header)
    ensures var p := Prefix(header);
            && |p| == FIXED_PREFIX_BYTES + |HeaderBytes(header)|
            && p[..8] == MAGIC && p[8..10] == BigEndian(VERSION, 2)
            && p[10..14] == BigEndian(|HeaderBytes(header)|, 4) && p[14..] == HeaderBytes(header)
  {
    hide BigEndian, HeaderBytes;
  }

  /** A file laid out from its parts is cut into exactly those parts. */
  lemma LaidIsParsed(f: ParsedFile, file: seq<Byte>)
    requires Laid(f, file)
    ensures ParseFile(file) == Ok(f)
  {
    hide DecodeHeader, BigEndian, FromBigEndian, HeaderBytes, Prefix, Pow256;
    var hb := HeaderBytes(f.header);
    var n := |f.encryptedPayload| - TAG_BYTES;
    HeaderIsShort(f.header);
    HeaderExactly(hb, f.header);
    PrefixSlices(f.header);
    Powers();
    BigEndianInverse(VERSION, 2);
    BigEndianInverse(|hb|, 4);
    BigEndianInverse(n, 8);
    Cuts(f.prefixBeforeDek, f.dekNonce, f.wrappedDek, BigEndian(n, 8), f.payloadNonce, f.encryptedPayload);
    var p := f.prefixBeforeDek;
    assert file[..|p|] == p;
    assert file[..8] == p[..8] && file[8..10] == p[8..10] && file[10..14] == p[10..14] && file[14..|p|] == p[14..];
  }

  /** `x` stands in `file` after `before`. */
  lemma Part(before: seq<Byte>, x: seq<Byte>, after: seq<Byte>, file: seq<Byte>)
    requires file == before + x + after
    ensures |before| + |x| <= |file|
    ensures file[..|before|] == before && file[|before|..|before| + |x|] == x && file[|before| + |x|..] == after
  {}

  lemma Cuts(p: seq<Byte>, a: seq<Byte>, w: seq<Byte>, l: seq<Byte>, n: seq<Byte>, e: seq<Byte>)
    ensures var file := p + a + w + l + n + e;
            var i := |p| + |a|;
            var j := i + |w|;
            var k := j + |l|;
            && file[..|p|] == p && file[|p|..i] == a && file[i..j] == w && file[j..k] == l
            && file[k..k + |n|] == n && file[k + |n|..] == e
            && file[..j] == p + a + w && file[..k] == p + a + w + l
  {
    var file := p + a + w + l + n + e;
    Cat(p + a + w + l, n, e);
    Cat(p + a + w, l, n + e);
    Cat(p + a, w, l + (n + e));
    Part(p, a, w + (l + (n + e)), file);
    Part(p + a, w, l + (n + e), file);
    Part(p + a + w, l, n + e, file);
    Part(p + a + w + l, n, e, file);
  }

  // ----- sealing and unlocking -----

  datatype KeyMaterial = KeyMaterial(prefixThroughDekTag: seq<Byte>, dek: seq<Byte>)

  datatype UnlockedVault = UnlockedVault(payload: Payload, keyMaterial: KeyMaterial)

  function Kek(lib: Library, passphrase: seq<Byte>, header: KdfHeader): Result<seq<Byte>> {
    match lib.kdf(passphrase, header)
    case Some(kek) => Ok(kek)
    case None => Err(InvalidVaultFile)
  }

  function Encrypt(lib: Library, key: seq<Byte>, nonce: seq<Byte>, plaintext: seq<Byte>, associated: seq<Byte>): Result<seq<Byte>> {
    match lib.encrypt(key, nonce, plaintext, associated)
    case Some(c) => Ok(c)
    case None => Err(InvalidVaultFile)
  }

  function Decrypt(lib: Library, key: seq<Byte>, nonce: seq<Byte>, ciphertext: seq<Byte>, associated: seq<Byte>): Result<seq<Byte>> {
    match lib.decrypt(key, nonce, ciphertext, associated)
    case Some(p) => Ok(p)
    case None => Err(VaultAuthenticationFailed)
  }

  /** `unlock_vault` */
  function Unlock(lib: Library, file: seq<Byte>, passphrase: seq<Byte>): Result<UnlockedVault> {
    var f :- ParseFile(file);
    var kek :- Kek(lib, passphrase, f.header);
    var dek :- Decrypt(lib, kek, f.dekNonce, f.wrappedDek, DEK_DOMAIN + f.prefixBeforeDek);
    if |dek| != KEY_BYTES then Err(VaultAuthenticationFailed)
    else
      var plaintext :- Decrypt(lib, dek, f.payloadNonce, f.encryptedPayload, PAYLOAD_DOMAIN + f.prefixThroughPayloadLen);
      match DecodePayload(lib.nfc, plaintext)
      case Err(_) => Err(VaultAuthenticationFailed)
      case Ok(payload) => Ok(UnlockedVault(payload, KeyMaterial(f.prefixThroughDekTag, dek)))
  }

  /** The bytes sealing `payload` under `km` with `nonce` produces. */
  function Seal(lib: Library, payload: Payload, km: KeyMaterial, nonce: seq<Byte>): Result<seq<Byte>>
    requires Prints(payload)
  {
    var plaintext :- EncodePayload(payload);
    var prefix := km.prefixThroughDekTag + BigEndian(|plaintext|, 8);
    var encrypted :- Encrypt(lib, km.dek, nonce, plaintext, PAYLOAD_DOMAIN + prefix);
    Ok(prefix + nonce + encrypted)
  }

  /** `km` wraps its own key under `passphrase`, as `new_key_material` makes it. */
  ghost predicate Wraps(lib: Library, passphrase: seq<Byte>, km: KeyMaterial, header: KdfHeader, nonce: seq<Byte>) {
    && BoundsOk(header) && |nonce| == NONCE_BYTES && |km.dek| == KEY_BYTES
    && Kek(lib, passphrase, header).Ok?
    && var wrapped := Encrypt(lib, Kek(lib, passphrase, header).value, nonce, km.dek, DEK_DOMAIN + Prefix(header));
       wrapped.Ok? && km.prefixThroughDekTag == Prefix(header) + nonce + wrapped.value
  }

  ghost predicate Protects(lib: Library, passphrase: seq<Byte>, km: KeyMaterial) {
    exists header, nonce :: Wraps(lib, passphrase, km, header, nonce)
  }

  function Take(source: Option<seq<Byte>>): Result<seq<Byte>> {
    match source
    case Some(bytes) => Ok(bytes)
    case None => Err(CryptoUnavailable)
  }

  /** The key, wrapped under the passphrase. */
  function WrappedKey(lib: Library, passphrase: seq<Byte>, header: KdfHeader, key: seq<Byte>, nonce: seq<Byte>): Result<KeyMaterial>
    requires BoundsOk(header)
  {
    var kek :- Kek(lib, passphrase, header);
    var wrapped :- Encrypt(lib, kek, nonce, key, DEK_DOMAIN + Prefix(header));
    Ok(KeyMaterial(Prefix(header) + nonce + wrapped, key))
  }

  /** `new_key_material`. The parameters are the three draws of random bytes; a draw can fail. */
  method NewKeyMaterial(lib: Library, passphrase: seq<Byte>, salt: Option<seq<Byte>>, key: Option<seq<Byte>>, nonce: Option<seq<Byte>>)
    returns (r: Result<KeyMaterial>)
    requires salt.Some? ==> |salt.value| == 16
    requires key.Some? ==> |key.value| == KEY_BYTES
    requires nonce.Some? ==> |nonce.value| == NONCE_BYTES
    ensures r.Ok? ==> && salt.Some? && key.Some? && nonce.Some? && r.value.dek == key.value
                      && Wraps(lib, passphrase, r.value, KdfHeader(64 * 1024, 3, 4, salt.value), nonce.value)
    ensures if salt.Some? && key.Some? && nonce.Some?
            then r == WrappedKey(lib, passphrase, KdfHeader(64 * 1024, 3, 4, salt.value), key.value, nonce.value)
            else r.Err?
  {
    hide HeaderBytes, BigEndian, Ascii;
    var saltBytes :- Take(salt);
    var header := KdfHeader(64 * 1024, 3, 4, saltBytes);
    var encodedHeader := HeaderBytes(header);
    HeaderIsShort(header);
    var prefix := MAGIC;
    prefix := prefix + BigEndian(VERSION, 2);
    prefix := prefix + BigEndian(|encodedHeader|, 4);
    prefix := prefix + encodedHeader;
    var dek :- Take(key);
    var kek :- Kek(lib, passphrase, header);
    var nonceBytes :- Take(nonce);
    var wrapped :- Encrypt(lib, kek, nonceBytes, dek, DEK_DOMAIN + prefix);
    prefix := prefix + nonceBytes;
    prefix := prefix + wrapped;
    return Ok(KeyMaterial(prefix, dek));
  }

  /** `seal_payload` */
  method SealPayload(lib: Library, payload: Payload, km: KeyMaterial, nonce: Option<seq<Byte>>) returns (r: Result<seq<Byte>>)
    requires Prints(payload)
    ensures nonce.Some? ==> r == Seal(lib, payload, km, nonce.value)
    ensures nonce.None? ==> r.Err?
  {
    hide PayloadBytes, BigEndian, Prints, Ascii;
    var plaintext :- EncodePayload(payload);
    var output := km.prefixThroughDekTag;
    output := output + BigEndian(|plaintext|, 8);
    var nonceBytes :- Take(nonce);
    var encrypted :- Encrypt(lib, km.dek, nonceBytes, plaintext, PAYLOAD_DOMAIN + output);
    output := output + nonceBytes;
    output := output + encrypted;
    return Ok(output);
  }

  lemma CipherInverts(lib: Library, key: seq<Byte>, nonce: seq<Byte>, plaintext: seq<Byte>, ciphertext: seq<Byte>, associated: seq<Byte>)
    requires Ideal(lib)
    ensures Decrypt(lib, key, nonce, ciphertext, associated) == Ok(plaintext) <==> Encrypt(lib, key, nonce, plaintext, associated) == Ok(ciphertext)
    ensures Decrypt(lib, key, nonce, ciphertext, associated) == Ok(plaintext) ==> |ciphertext| == |plaintext| + TAG_BYTES
  {
    hide IdealNormalizer;
  }

  /** Sealing succeeds exactly when the encoded payload is within its bound and the cipher takes it. */
  lemma SealSucceeds(lib: Library, payload: Payload, km: KeyMaterial, nonce: seq<Byte>)
    requires Prints(payload)
    ensures var n := |PayloadBytes(payload)|;
            Seal(lib, payload, km, nonce).Ok? <==>
              && n <= 64 * 1024 * 1024
              && lib.encrypt(km.dek, nonce, PayloadBytes(payload), PAYLOAD_DOMAIN + (km.prefixThroughDekTag + BigEndian(n, 8))).Some?
  {
    hide PayloadBytes, BigEndian, Prints;
  }

  /** The parts of a sealed file. */
  ghost function SealedParts(header: KdfHeader, dekNonce: seq<Byte>, wrapped: seq<Byte>, nonce: seq<Byte>, encrypted: seq<Byte>): ParsedFile
    requires BoundsOk(header) && |encrypted| >= TAG_BYTES
  {
    var through := Prefix(header) + dekNonce + wrapped;
    ParsedFile(header, Prefix(header), dekNonce, wrapped, through, through + BigEndian(|encrypted| - TAG_BYTES, 8), nonce, encrypted)
  }

  /** What was sealed under a passphrase opens with that passphrase, with the same payload and keys, unless
      it holds more records than the decoder accepts: then it never opens again. */
  lemma UnlockOfSeal(lib: Library, passphrase: seq<Byte>, v: UnlockedVault, nonce: seq<Byte>, file: seq<Byte>)
    requires Ideal(lib) && Protects(lib, passphrase, v.keyMaterial) && |nonce| == NONCE_BYTES
    requires PayloadOk(lib.nfc, v.payload)
    requires Prints(v.payload) && Seal(lib, v.payload, v.keyMaterial, nonce) == Ok(file)
    ensures Unlock(lib, file, passphrase) == if |v.payload.records| <= 10_000 then Ok(v) else Err(VaultAuthenticationFailed)
  {
    hide Ideal, ParseFile, Laid, DecodePayload, EncodePayload, PayloadOk, Encrypt, Decrypt, Prefix, BigEndian, BoundsOk, Kek, Ascii, Prints, Wraps;
    var km := v.keyMaterial;
    var header, dekNonce :| Wraps(lib, passphrase, km, header, dekNonce);
    var f := SealedFile(lib, passphrase, v, header, dekNonce, nonce, file);
    var plaintext := EncodePayload(v.payload).value;
    LaidIsParsed(f, file);
    RoundTripExactly(lib.nfc, v.payload);
  }

  /** A sealed file is laid out from its parts, and the parts decrypt to the keys and the payload. */
  lemma SealedFile(lib: Library, passphrase: seq<Byte>, v: UnlockedVault, header: KdfHeader, dekNonce: seq<Byte>, nonce: seq<Byte>, file: seq<Byte>) returns (f: ParsedFile)
    requires Ideal(lib) && Wraps(lib, passphrase, v.keyMaterial, header, dekNonce) && |nonce| == NONCE_BYTES
    requires Prints(v.payload) && Seal(lib, v.payload, v.keyMaterial, nonce) == Ok(file)
    ensures EncodePayload(v.payload).Ok? && Laid(f, file)
    ensures Kek(lib, passphrase, f.header).Ok?
    ensures Decrypt(lib, Kek(lib, passphrase, f.header).value, f.dekNonce, f.wrappedDek, DEK_DOMAIN + f.prefixBeforeDek) == Ok(v.keyMaterial.dek)
    ensures Decrypt(lib, v.keyMaterial.dek, f.payloadNonce, f.encryptedPayload, PAYLOAD_DOMAIN + f.prefixThroughPayloadLen) == Ok(EncodePayload(v.payload).value)
    ensures f.prefixThroughDekTag == v.keyMaterial.prefixThroughDekTag && |v.keyMaterial.dek| == KEY_BYTES
  {
    hide Ideal, EncodePayload, Encrypt, Decrypt, Prefix, BigEndian, BoundsOk, Kek, Ascii, Prints, Laid;
    var km := v.keyMaterial;
    var kek := Kek(lib, passphrase, header).value;
    var wrapped := Encrypt(lib, kek, dekNonce, km.dek, DEK_DOMAIN + Prefix(header)).value;
    var plaintext := EncodePayload(v.payload).value;
    var prefix := km.prefixThroughDekTag + BigEndian(|plaintext|, 8);
    var encrypted := Encrypt(lib, km.dek, nonce, plaintext, PAYLOAD_DOMAIN + prefix).value;
    CipherInverts(lib, kek, dekNonce, km.dek, wrapped, DEK_DOMAIN + Prefix(header));
    CipherInverts(lib, km.dek, nonce, plaintext, encrypted, PAYLOAD_DOMAIN + prefix);
    EncodedFits(v.payload);
    SealedIsLaid(header, dekNonce, wrapped, nonce, encrypted);
    f := SealedParts(header, dekNonce, wrapped, nonce, encrypted);
  }

  lemma EncodedFits(p: Payload)
    requires Prints(p) && EncodePayload(p).Ok?
    ensures |EncodePayload(p).value| <= MAX_VAULT_PAYLOAD_BYTES
  {
    hide PayloadBytes, Prints;
  }

  lemma SealedIsLaid(header: KdfHeader, dekNonce: seq<Byte>, wrapped: seq<Byte>, nonce: seq<Byte>, encrypted: seq<Byte>)
    requires BoundsOk(header) && |dekNonce| == NONCE_BYTES && |wrapped| == KEY_BYTES + TAG_BYTES && |nonce| == NONCE_BYTES
    requires TAG_BYTES <= |encrypted| <= TAG_BYTES + MAX_VAULT_PAYLOAD_BYTES
    ensures var f := SealedParts(header, dekNonce, wrapped, nonce, encrypted); Laid(f, f.prefixThroughPayloadLen + nonce + encrypted)
  {
    hide Prefix, BigEndian, BoundsOk;
  }

  lemma NormalizerOf(lib: Library)
    requires Ideal(lib)
    ensures IdealNormalizer(lib.nfc)
  {}

  /** Whatever opens with a passphrase is the sealing of what it opens to, under that passphrase. */
  lemma SealOfUnlock(lib: Library, passphrase: seq<Byte>, file: seq<Byte>)
    requires Ideal(lib) && Unlock(lib, file, passphrase).Ok?
    ensures var v := Unlock(lib, file, passphrase).value;
            && Protects(lib, passphrase, v.keyMaterial)
            && PayloadOk(lib.nfc, v.payload) && |v.payload.records| <= MAX_RECORDS && Prints(v.payload)
            && exists nonce :: |nonce| == NONCE_BYTES && Seal(lib, v.payload, v.keyMaterial, nonce) == Ok(file)
  {
    hide Ideal, ParseFile, DecodePayload, PayloadBytes, PayloadOk, Encrypt, Decrypt, Prefix, BigEndian, BoundsOk, Kek, Ascii, Prints;
    var f := ParseFile(file).value;
    var v := Unlock(lib, file, passphrase).value;
    ParsedIsLaid(file);
    var kek := Kek(lib, passphrase, f.header).value;
    var dek := v.keyMaterial.dek;
    CipherInverts(lib, kek, f.dekNonce, dek, f.wrappedDek, DEK_DOMAIN + f.prefixBeforeDek);
    assert Wraps(lib, passphrase, v.keyMaterial, f.header, f.dekNonce);
    var associated := PAYLOAD_DOMAIN + f.prefixThroughPayloadLen;
    var plaintext := Decrypt(lib, dek, f.payloadNonce, f.encryptedPayload, associated).value;
    CipherInverts(lib, dek, f.payloadNonce, plaintext, f.encryptedPayload, associated);
    NormalizerOf(lib);
    DecodeExactly(lib.nfc, plaintext, v.payload);
    assert Seal(lib, v.payload, v.keyMaterial, f.payloadNonce) == Ok(file);
  }

  /** A sealed file is never too large for `open_copy` to read. */
  lemma SealedFileFits(lib: Library, passphrase: seq<Byte>, v: UnlockedVault, nonce: seq<Byte>)
    requires Ideal(lib) && Protects(lib, passphrase, v.keyMaterial) && |nonce| == NONCE_BYTES
    requires Prints(v.payload) && Seal(lib, v.payload, v.keyMaterial, nonce).Ok?
    ensures |Seal(lib, v.payload, v.keyMaterial, nonce).value| <= MAX_VAULT_FILE_BYTES
  {
    hide Ideal, PayloadBytes, Encrypt, Decrypt, Prefix, BigEndian, BoundsOk, Kek, Ascii, Prints;
    var km := v.keyMaterial;
    var header, dekNonce :| Wraps(lib, passphrase, km, header, dekNonce);
    var kek := Kek(lib, passphrase, header).value;
    var wrapped := Encrypt(lib, kek, dekNonce, km.dek, DEK_DOMAIN + Prefix(header)).value;
    var plaintext := EncodePayload(v.payload).value;
    var prefix := km.prefixThroughDekTag + BigEndian(|plaintext|, 8);
    var encrypted := Encrypt(lib, km.dek, nonce, plaintext, PAYLOAD_DOMAIN + prefix).value;
    CipherInverts(lib, kek, dekNonce, km.dek, wrapped, DEK_DOMAIN + Prefix(header));
    CipherInverts(lib, km.dek, nonce, plaintext, encrypted, PAYLOAD_DOMAIN + prefix);
    PrefixSlices(header);
    HeaderIsShort(header);
  }
}
