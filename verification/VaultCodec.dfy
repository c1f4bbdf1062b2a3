/**
 codec.rs in its own form: an encoder written to entry by entry, a decoder read entry by entry.
 Every method is tied to the printer and parser of `Codec` and `Cbor`.
*/
module VaultCodec {
  import opened Bytes
  import opened Utf8
  import opened Cbor
  import opened Cursor
  import opened Model
  import opened Codec
  import CodecProofs

  // ----- encoding -----

  /** Appending the first of `parts` and then the others is appending all of them. */
  lemma AppendNext(before: seq<Byte>, all: seq<Byte>, output: seq<Byte>, first: seq<Byte>, others: seq<Byte>)
    requires output + (first + others) == before + all
    ensures output + first + others == before + all
  {
    CodecProofs.Cat(output, first, others);
  }

  method EncodeFieldTo(encoder: Encoder, f: Field)
    requires FieldPrints(f)
    modifies encoder
    ensures encoder.output == old(encoder.output) + FieldBytes(f)
  {
    hide EncodeHead, EncodeString, Key;
    ghost var before := encoder.output;
    encoder.PutHead(5, 3);
    encoder.PutHead(0, 0);
    encoder.PutString(3, f.name);
    encoder.PutHead(0, 1);
    encoder.PutString(2, f.value);
    encoder.PutHead(0, 2);
    encoder.PutHead(0, if f.hint.Binary? then 0 else 1);
    KeyIsHead();
    assert before + EncodeHead(5, 3) + Key(0) + EncodeString(3, f.name) + Key(1) + EncodeString(2, f.value) + Key(2) + EncodeHead(0, if f.hint.Binary? then 0 else 1)
        == before + FieldBytes(f);
  }

  lemma KeyIsHead()
    ensures forall k :: 0 <= k <= U64_MAX ==> Key(k) == EncodeHead(0, k)
  {
    hide EncodeHead;
  }

  /** `encode_record` */
  method EncodeRecordTo(encoder: Encoder, r: Record)
    requires RecordPrints(r)
    modifies encoder
    ensures encoder.output == old(encoder.output) + RecordBytes(r)
  {
    hide EncodeHead, EncodeString, Key, FieldBytes, FieldPrints;
    ghost var before := encoder.output;
    encoder.PutHead(5, 3);
    encoder.PutHead(0, 0);
    encoder.PutString(2, r.id);
    encoder.PutHead(0, 1);
    encoder.PutString(3, r.name);
    encoder.PutHead(0, 2);
    encoder.PutHead(4, |r.fields|);
    KeyIsHead();
    ghost var head := EncodeHead(5, 3) + Key(0) + EncodeString(2, r.id) + Key(1) + EncodeString(3, r.name) + Key(2) + EncodeHead(4, |r.fields|);
    assert encoder.output == before + head;
    var i := 0;
    while i < |r.fields|
      invariant i <= |r.fields|
      invariant encoder.output + FieldsBytes(r.fields[i..]) == before + head + FieldsBytes(r.fields)
    {
      hide *;
      FieldsUnfold(r.fields, i);
      AppendNext(before + head, FieldsBytes(r.fields), encoder.output, FieldBytes(r.fields[i]), FieldsBytes(r.fields[i + 1..]));
      EncodeFieldTo(encoder, r.fields[i]);
      i := i + 1;
    }
    CodecProofs.Cat(before, head, FieldsBytes(r.fields));
    assert r.fields[i..] == [];
  }

  lemma FieldsUnfold(fields: seq<Field>, i: nat)
    requires i < |fields| && FieldsPrint(fields)
    ensures FieldPrints(fields[i]) && FieldsPrint(fields[i..]) && FieldsPrint(fields[i + 1..])
    ensures FieldsBytes(fields[i..]) == FieldBytes(fields[i]) + FieldsBytes(fields[i + 1..])
  {
    hide FieldBytes, FieldPrints;
    assert fields[i..][1..] == fields[i + 1..];
  }

  lemma RecordsUnfold(records: seq<Record>, i: nat)
    requires i < |records| && RecordsPrint(records)
    ensures RecordPrints(records[i]) && RecordsPrint(records[i..]) && RecordsPrint(records[i + 1..])
    ensures RecordsBytes(records[i..]) == RecordBytes(records[i]) + RecordsBytes(records[i + 1..])
  {
    hide RecordBytes, RecordPrints;
    assert records[i..][1..] == records[i + 1..];
  }

  lemma UnknownUnfold(unknown: seq<(nat, seq<Byte>)>, i: nat)
    requires i < |unknown| && UnknownPrints(unknown)
    ensures unknown[i].0 <= U64_MAX && UnknownPrints(unknown[i..]) && UnknownPrints(unknown[i + 1..])
    ensures UnknownBytes(unknown[i..]) == Key(unknown[i].0) + unknown[i].1 + UnknownBytes(unknown[i + 1..])
  {
    hide Key;
    assert unknown[i..][1..] == unknown[i + 1..];
  }

  method EncodeRecordsTo(encoder: Encoder, records: seq<Record>)
    requires RecordsPrint(records)
    modifies encoder
    ensures encoder.output == old(encoder.output) + RecordsBytes(records)
  {
    hide RecordBytes, RecordPrints;
    ghost var before := encoder.output;
    var i := 0;
    while i < |records|
      invariant i <= |records|
      invariant encoder.output + RecordsBytes(records[i..]) == before + RecordsBytes(records)
    {
      hide *;
      RecordsUnfold(records, i);
      AppendNext(before, RecordsBytes(records), encoder.output, RecordBytes(records[i]), RecordsBytes(records[i + 1..]));
      EncodeRecordTo(encoder, records[i]);
      i := i + 1;
    }
  }

  method EncodeUnknownTo(encoder: Encoder, unknown: seq<(nat, seq<Byte>)>)
    requires UnknownPrints(unknown)
    modifies encoder
    ensures encoder.output == old(encoder.output) + UnknownBytes(unknown)
  {
    hide Key, EncodeHead;
    KeyIsHead();
    ghost var before := encoder.output;
    var i := 0;
    while i < |unknown|
      invariant i <= |unknown|
      invariant encoder.output + UnknownBytes(unknown[i..]) == before + UnknownBytes(unknown)
    {
      hide *;
      UnknownUnfold(unknown, i);
      var (key, raw) := unknown[i];
      AppendNext(before, UnknownBytes(unknown), encoder.output, Key(key) + raw, UnknownBytes(unknown[i + 1..]));
      CodecProofs.Cat(encoder.output, Key(key), raw);
      encoder.PutHead(0, key);
      encoder.PutRaw(raw);
      i := i + 1;
    }
  }

  /** Everything before the records, as `KnownBytes` lays it out. */
  function FrontBytes(p: Payload): seq<Byte>
    requires Prints(p)
  {
    EncodeHead(5, 4 + |p.unknown|)
    + Key(0) + EncodeString(2, p.vaultId)
    + Key(1) + EncodeHead(0, p.revision)
    + Key(2) + EncodeHead(4, |p.records|)
  }

  lemma KnownIsFront(p: Payload)
    requires Prints(p)
    ensures KnownBytes(p) == FrontBytes(p) + RecordsBytes(p.records) + Key(3) + EncodeHead(5, 1) + Key(0) + EncodeHead(0, p.idleTimeoutSeconds)
  {
    hide EncodeHead, EncodeString, Key, RecordsBytes, RecordPrints;
  }

  method EncodeFrontTo(encoder: Encoder, p: Payload)
    requires Prints(p) && encoder.output == []
    modifies encoder
    ensures encoder.output == FrontBytes(p)
  {
    hide EncodeHead, EncodeString, Key, RecordsPrint, UnknownPrints;
    KeyIsHead();
    encoder.PutHead(5, 4 + |p.unknown|);
    encoder.PutHead(0, 0);
    encoder.PutString(2, p.vaultId);
    encoder.PutHead(0, 1);
    encoder.PutHead(0, p.revision);
    encoder.PutHead(0, 2);
    encoder.PutHead(4, |p.records|);
  }

  /** `encode_payload` */
  method Encode(p: Payload) returns (r: Result<seq<Byte>>)
    requires Prints(p)
    ensures r == EncodePayload(p)
  {
    hide EncodeHead, EncodeString, Key, RecordsBytes, RecordsPrint, UnknownBytes, UnknownPrints, KnownBytes, FrontBytes;
    KeyIsHead();
    KnownIsFront(p);
    var encoder := new Encoder();
    EncodeFrontTo(encoder, p);
    EncodeRecordsTo(encoder, p.records);
    encoder.PutHead(0, 3);
    encoder.PutHead(5, 1);
    encoder.PutHead(0, 0);
    encoder.PutHead(0, p.idleTimeoutSeconds);
    EncodeUnknownTo(encoder, p.unknown);
    if |encoder.output| > MAX_VAULT_PAYLOAD_BYTES { return Err(VaultPayloadTooLarge); }
    return Ok(encoder.output);
  }

  // ----- canonical form of an unknown value -----

  /** The outcome of rewriting one item in canonical form at the end of `before`. */
  ghost predicate Rewritten(ok: bool, rest: seq<Byte>, output: seq<Byte>, before: seq<Byte>, p: Parsed<Item>) {
    && ok == p.Got?
    && (p.Got? ==> Fits(p.value) && rest == p.rest && output == before + Cbor.Encode(p.value))
  }

  ghost predicate ItemsRewritten(ok: bool, rest: seq<Byte>, output: seq<Byte>, before: seq<Byte>, p: Parsed<Items>) {
    && ok == p.Got?
    && (p.Got? ==> AllFit(p.value) && rest == p.rest && output == before + EncodeItems(p.value))
  }

  ghost predicate EntriesRewritten(ok: bool, rest: seq<Byte>, output: seq<Byte>, before: seq<Byte>, p: Parsed<Entries>) {
    && ok == p.Got?
    && (p.Got? ==> AllEntriesFit(p.value) && rest == p.rest && output == before + EncodeEntries(p.value))
  }

  /** What is left to rewrite, `now`, completes `output` to the whole. */
  ghost predicate ItemsPending(all: Parsed<Items>, before: seq<Byte>, now: Parsed<Items>, output: seq<Byte>) {
    && all.Got? == now.Got?
    && (now.Got? ==> AllFit(all.value) && AllFit(now.value) && now.rest == all.rest
                     && output + EncodeItems(now.value) == before + EncodeItems(all.value))
  }

  ghost predicate EntriesPending(all: Parsed<Entries>, before: seq<Byte>, now: Parsed<Entries>, output: seq<Byte>) {
    && all.Got? == now.Got?
    && (now.Got? ==> AllEntriesFit(all.value) && AllEntriesFit(now.value) && now.rest == all.rest
                     && output + EncodeEntries(now.value) == before + EncodeEntries(all.value))
  }

  lemma ItemsStep(all: Parsed<Items>, before: seq<Byte>, s: seq<Byte>, n: nat, depth: nat, output: seq<Byte>)
    requires n > 0 && ItemsPending(all, before, ParseItems(s, n, depth), output)
    ensures var head := ParseItem(s, depth);
            head.Got? ==> Fits(head.value) && ItemsPending(all, before, ParseItems(head.rest, n - 1, depth), output + Cbor.Encode(head.value))
    ensures ParseItem(s, depth).Fail? ==> all.Fail?
  {
    hide ParseItem, Cbor.Encode, Fits;
    var head := ParseItem(s, depth);
    if head.Got? {
      AcceptableItemFits(head.value, depth);
      var tail := ParseItems(head.rest, n - 1, depth);
      if tail.Got? {
        AppendNext(before, EncodeItems(all.value), output, Cbor.Encode(head.value), EncodeItems(tail.value));
      }
    }
  }

  lemma AcceptableItemFits(item: Item, depth: nat)
    requires Acceptable(item, depth)
    ensures Fits(item)
  {
    hide Fits;
  }

  /** One turn of the map loop, on values: what must hold for it to go on, and the output after it. */
  ghost predicate EntryReads(s: seq<Byte>, previous: Option<seq<Byte>>, depth: nat) {
    var key := ParseItem(s, depth);
    && key.Got? && Fits(key.value)
    && (previous.Some? ==> KeyLess(previous.value, Cbor.Encode(key.value)))
    && ParseItem(key.rest, depth).Got? && Fits(ParseItem(key.rest, depth).value)
  }

  lemma EntriesStep(all: Parsed<Entries>, before: seq<Byte>, s: seq<Byte>, n: nat, previous: Option<seq<Byte>>, depth: nat, output: seq<Byte>)
    requires n > 0 && EntriesPending(all, before, ParseEntries(s, n, previous, depth), output)
    ensures var key := ParseItem(s, depth); key.Got? ==> Fits(key.value)
    ensures !EntryReads(s, previous, depth) ==> all.Fail?
    ensures EntryReads(s, previous, depth) ==>
              var key := ParseItem(s, depth);
              var value := ParseItem(key.rest, depth);
              EntriesPending(all, before, ParseEntries(value.rest, n - 1, Some(Cbor.Encode(key.value)), depth),
                             output + Cbor.Encode(key.value) + Cbor.Encode(value.value))
  {
    hide ParseItem, Cbor.Encode, Fits, KeyLess;
    var key := ParseItem(s, depth);
    if key.Got? {
      AcceptableItemFits(key.value, depth);
      var bytes := Cbor.Encode(key.value);
      var value := ParseItem(key.rest, depth);
      if !(previous.Some? && !KeyLess(previous.value, bytes)) && value.Got? {
        AcceptableItemFits(value.value, depth);
        var tail := ParseEntries(value.rest, n - 1, Some(bytes), depth);
        if tail.Got? {
          AppendNext(before, EncodeEntries(all.value), output, bytes + Cbor.Encode(value.value), EncodeEntries(tail.value));
          CodecProofs.Cat(output, bytes, Cbor.Encode(value.value));
        }
      }
    }
  }

  lemma ItemsStart(before: seq<Byte>, s: seq<Byte>, n: nat, depth: nat)
    ensures ItemsPending(ParseItems(s, n, depth), before, ParseItems(s, n, depth), before)
  {
    hide ParseItem, Fits, Cbor.Encode;
  }

  lemma ItemsEnd(all: Parsed<Items>, before: seq<Byte>, s: seq<Byte>, depth: nat, output: seq<Byte>)
    requires ItemsPending(all, before, ParseItems(s, 0, depth), output)
    ensures ItemsRewritten(true, s, output, before, all)
  {}

  lemma EntriesStart(before: seq<Byte>, s: seq<Byte>, n: nat, depth: nat)
    ensures EntriesPending(ParseEntries(s, n, None, depth), before, ParseEntries(s, n, None, depth), before)
  {
    hide ParseItem, Fits, Cbor.Encode;
  }

  lemma EntriesEnd(all: Parsed<Entries>, before: seq<Byte>, s: seq<Byte>, previous: Option<seq<Byte>>, depth: nat, output: seq<Byte>)
    requires EntriesPending(all, before, ParseEntries(s, 0, previous, depth), output)
    ensures EntriesRewritten(true, s, output, before, all)
  {}

  /** The array loop of `canonicalize_item`. */
  method CanonicalizeItems(decoder: Decoder, encoder: Encoder, n: nat, depth: nat) returns (ok: bool)
    requires decoder.Valid()
    modifies decoder, encoder
    ensures decoder.Valid()
    ensures ItemsRewritten(ok, decoder.Rest(), encoder.output, old(encoder.output), ParseItems(old(decoder.Rest()), n, depth))
    decreases Room(depth), 4
  {
    hide *;
    ghost var before, all := encoder.output, ParseItems(decoder.Rest(), n, depth);
    ItemsStart(before, decoder.Rest(), n, depth);
    var i := 0;
    while i < n
      invariant i <= n && decoder.Valid()
      invariant ItemsPending(all, before, ParseItems(decoder.Rest(), n - i, depth), encoder.output)
      decreases n - i
    {
      ItemsStep(all, before, decoder.Rest(), n - i, depth, encoder.output);
      ghost var head, output := ParseItem(decoder.Rest(), depth), encoder.output;
      var one := CanonicalizeItem(decoder, encoder, depth);
      RewrittenMeans(one, decoder.Rest(), encoder.output, output, head);
      if !one {
        FailedItems(decoder.Rest(), encoder.output, before, all);
        return false;
      }
      i := i + 1;
    }
    ItemsEnd(all, before, decoder.Rest(), depth, encoder.output);
    return true;
  }

  lemma RewrittenMeans(ok: bool, rest: seq<Byte>, output: seq<Byte>, before: seq<Byte>, p: Parsed<Item>)
    requires Rewritten(ok, rest, output, before, p)
    ensures ok == p.Got?
    ensures ok ==> Fits(p.value) && rest == p.rest && output == before + Cbor.Encode(p.value)
  {}

  lemma FailedItems(rest: seq<Byte>, output: seq<Byte>, before: seq<Byte>, all: Parsed<Items>)
    requires all.Fail?
    ensures ItemsRewritten(false, rest, output, before, all)
  {}

  lemma FailedEntries(rest: seq<Byte>, output: seq<Byte>, before: seq<Byte>, all: Parsed<Entries>)
    requires all.Fail?
    ensures EntriesRewritten(false, rest, output, before, all)
  {}

  /** The map loop of `canonicalize_item`. */
  method CanonicalizeEntries(decoder: Decoder, encoder: Encoder, n: nat, depth: nat) returns (ok: bool)
    requires decoder.Valid()
    modifies decoder, encoder
    ensures decoder.Valid()
    ensures EntriesRewritten(ok, decoder.Rest(), encoder.output, old(encoder.output), ParseEntries(old(decoder.Rest()), n, None, depth))
    decreases Room(depth), 4
  {
    hide ParseItem, ParseEntries, EntriesPending, EntriesRewritten, Rewritten, Cbor.Encode, Fits, KeyLess, Room, Acceptable;
    ghost var before, all := encoder.output, ParseEntries(decoder.Rest(), n, None, depth);
    EntriesStart(before, decoder.Rest(), n, depth);
    var previous: Option<seq<Byte>> := None;
    var i := 0;
    while i < n
      invariant i <= n && decoder.Valid()
      invariant EntriesPending(all, before, ParseEntries(decoder.Rest(), n - i, previous, depth), encoder.output)
      decreases n - i
    {
      EntriesStep(all, before, decoder.Rest(), n - i, previous, depth, encoder.output);
      ghost var key, output := ParseItem(decoder.Rest(), depth), encoder.output;
      var keyStart := |encoder.output|;
      var one := CanonicalizeItem(decoder, encoder, depth);
      RewrittenMeans(one, decoder.Rest(), encoder.output, output, key);
      if !one {
        FailedEntries(decoder.Rest(), encoder.output, before, all);
        return false;
      }
      var current := encoder.output[keyStart..];
      if previous.Some? && !KeyLess(previous.value, current) {
        FailedEntries(decoder.Rest(), encoder.output, before, all);
        return false;
      }
      previous := Some(current);
      ghost var value, output' := ParseItem(decoder.Rest(), depth), encoder.output;
      one := CanonicalizeItem(decoder, encoder, depth);
      RewrittenMeans(one, decoder.Rest(), encoder.output, output', value);
      if !one {
        FailedEntries(decoder.Rest(), encoder.output, before, all);
        return false;
      }
      i := i + 1;
    }
    EntriesEnd(all, before, decoder.Rest(), previous, depth, encoder.output);
    return true;
  }

  /** A value with no items inside, from its head and what follows the head. */
  function Leaf(h: Head, rest: seq<Byte>): Parsed<Item> {
    if h.major == 0 then Got(Uint(h.arg), rest)
    else if h.major == 1 then Got(Nint(h.arg), rest)
    else if h.major == 2 && h.arg <= |rest| then Got(Item.Bytes(rest[..h.arg]), rest[h.arg..])
    else if h.major == 3 && h.arg <= |rest| && WellFormed(rest[..h.arg]) then Got(Item.Text(rest[..h.arg]), rest[h.arg..])
    else if h.major == 7 && (h.info < 24 || (h.info == 24 && SimpleOk(h.arg))) then Got(Simple(h.arg), rest)
    else Fail
  }

  function AsArray(p: Parsed<Items>): Parsed<Item> {
    match p
    case Got(items, rest) => Got(Array(items), rest)
    case Fail => Fail
  }

  function AsMap(p: Parsed<Entries>): Parsed<Item> {
    match p
    case Got(entries, rest) => Got(Map(entries), rest)
    case Fail => Fail
  }

  function AsTag(n: nat, p: Parsed<Item>): Parsed<Item> {
    match p
    case Got(item, rest) => Got(Tag(n, item), rest)
    case Fail => Fail
  }

  /** The cases of the parser, by head. */
  lemma ItemCases(s: seq<Byte>, depth: nat, h: Head, rest: seq<Byte>)
    requires depth < MAX_DEPTH && ReadHead(s) == Got(h, rest)
    ensures h.major !in {4, 5, 6} ==> ParseItem(s, depth) == Leaf(h, rest)
    ensures h.major == 4 && h.arg > |rest| ==> ParseItem(s, depth).Fail?
    ensures h.major == 4 && h.arg <= |rest| ==> ParseItem(s, depth) == AsArray(ParseItems(rest, h.arg, depth + 1))
    ensures h.major == 5 && h.arg > |rest| / 2 ==> ParseItem(s, depth).Fail?
    ensures h.major == 5 && h.arg <= |rest| / 2 ==> ParseItem(s, depth) == AsMap(ParseEntries(rest, h.arg, None, depth + 1))
    ensures h.major == 6 ==> ParseItem(s, depth) == AsTag(h.arg, ParseItem(rest, depth + 1))
  {
    hide ReadHead, ParseItems, ParseEntries, WellFormed, Acceptable, Fits;
  }

  lemma LeafEncodes(h: Head, rest: seq<Byte>, s: seq<Byte>)
    requires ReadHead(s) == Got(h, rest)
    ensures h.arg <= U64_MAX
    ensures var p := Leaf(h, rest);
            p.Got? && h.major in {2, 3} ==> Fits(p.value) && h.arg <= |rest| && Cbor.Encode(p.value) == EncodeString(h.major, rest[..h.arg])
    ensures var p := Leaf(h, rest);
            p.Got? && h.major !in {2, 3} ==> h.major < 8 && Fits(p.value) && Cbor.Encode(p.value) == EncodeHead(h.major, h.arg)
  {
    hide ReadHead, EncodeHead, EncodeString, WellFormed;
    ReadHeadBound(s);
    if h.info < 24 { SimpleHeads(s); }
  }

  lemma SimpleHeads(s: seq<Byte>)
    requires ReadHead(s).Got? && ReadHead(s).value.info < 24
    ensures ReadHead(s).value.arg < 24
  {}

  /** `canonicalize_item`: an integer, string or simple value. */
  method CanonicalizeLeaf(h: Head, decoder: Decoder, encoder: Encoder) returns (ok: bool)
    requires decoder.Valid() && h.arg <= U64_MAX && h.major < 8 && h.major !in {4, 5, 6}
    modifies decoder, encoder
    ensures decoder.Valid()
    ensures var p := Leaf(h, old(decoder.Rest()));
            && ok == p.Got?
            && (ok ==> decoder.Rest() == p.rest)
            && (ok ==> h.major in {2, 3} ==> h.arg <= |old(decoder.Rest())| && encoder.output == old(encoder.output) + EncodeString(h.major, old(decoder.Rest())[..h.arg]))
            && (ok ==> h.major !in {2, 3} ==> encoder.output == old(encoder.output) + EncodeHead(h.major, h.arg))
  {
    hide EncodeHead, EncodeString, WellFormed;
    if h.major == 2 || h.major == 3 {
      if h.arg > |decoder.input| - decoder.position { return false; }
      var b :- assert decoder.Raw(h.arg);
      if h.major == 3 && !WellFormed(b) { return false; }
      encoder.PutString(h.major, b);
    } else {
      if h.major == 7 && h.info >= 24 && !(h.info == 24 && SimpleOk(h.arg)) { return false; }
      encoder.PutHead(h.major, h.arg);
    }
    return true;
  }

  /** `canonicalize_item` */
  method CanonicalizeItem(decoder: Decoder, encoder: Encoder, depth: nat) returns (ok: bool)
    requires decoder.Valid()
    modifies decoder, encoder
    ensures decoder.Valid()
    ensures Rewritten(ok, decoder.Rest(), encoder.output, old(encoder.output), ParseItem(old(decoder.Rest()), depth))
    decreases Room(depth), 3
  {
    hide ReadHead, EncodeHead, EncodeString, ParseItem, ParseItems, ParseEntries, WellFormed, Acceptable, Fits, Leaf, Cbor.Encode, Agrees;
    ghost var s, before := decoder.Rest(), encoder.output;
    ghost var p := ParseItem(s, depth);
    if depth >= MAX_DEPTH {
      TooDeep(s, depth);
      return false;
    }
    var head := decoder.ReadHeadHere();
    AgreesMeans(head, decoder.Rest(), ReadHead(s));
    if head.Err? {
      NoHead(s, depth);
      return false;
    }
    var h := head.value;
    ghost var rest := decoder.Rest();
    ItemCases(s, depth, h, rest);
    LeafEncodes(h, rest, s);
    if h.major == 4 {
      if h.arg > |decoder.input| - decoder.position { return false; }
      encoder.PutHead(4, h.arg);
      ok := CanonicalizeItems(decoder, encoder, h.arg, depth + 1);
      ArrayRewritten(ok, decoder.Rest(), encoder.output, before, ParseItems(rest, h.arg, depth + 1), h.arg);
    } else if h.major == 5 {
      if h.arg > (|decoder.input| - decoder.position) / 2 { return false; }
      encoder.PutHead(5, h.arg);
      ok := CanonicalizeEntries(decoder, encoder, h.arg, depth + 1);
      MapRewritten(ok, decoder.Rest(), encoder.output, before, ParseEntries(rest, h.arg, None, depth + 1), h.arg);
    } else if h.major == 6 {
      encoder.PutHead(6, h.arg);
      ok := CanonicalizeItem(decoder, encoder, depth + 1);
      TagRewritten(ok, decoder.Rest(), encoder.output, before, ParseItem(rest, depth + 1), h.arg);
    } else {
      ok := CanonicalizeLeaf(h, decoder, encoder);
    }
  }

  lemma TooDeep(s: seq<Byte>, depth: nat)
    requires depth >= MAX_DEPTH
    ensures ParseItem(s, depth).Fail?
  {}

  lemma NoHead(s: seq<Byte>, depth: nat)
    requires ReadHead(s).Fail?
    ensures ParseItem(s, depth).Fail?
  {
    hide ReadHead;
  }

  lemma AgreesMeans<T(!new)>(r: Result<T>, rest: seq<Byte>, p: Parsed<T>)
    requires Agrees(r, rest, p)
    ensures p.Got? ==> r == Ok(p.value) && rest == p.rest
    ensures p.Fail? ==> r == Err(InvalidVaultPayload)
  {}

  lemma ArrayRewritten(ok: bool, rest: seq<Byte>, output: seq<Byte>, before: seq<Byte>, p: Parsed<Items>, n: nat)
    requires n <= U64_MAX && (p.Got? ==> ItemCount(p.value) == n)
    requires ItemsRewritten(ok, rest, output, before + EncodeHead(4, n), p)
    ensures Rewritten(ok, rest, output, before, AsArray(p))
  {
    hide EncodeHead, EncodeItems;
    if p.Got? { CodecProofs.Cat(before, EncodeHead(4, n), EncodeItems(p.value)); }
  }

  lemma MapRewritten(ok: bool, rest: seq<Byte>, output: seq<Byte>, before: seq<Byte>, p: Parsed<Entries>, n: nat)
    requires n <= U64_MAX && (p.Got? ==> EntryCount(p.value) == n)
    requires EntriesRewritten(ok, rest, output, before + EncodeHead(5, n), p)
    ensures Rewritten(ok, rest, output, before, AsMap(p))
  {
    hide EncodeHead, EncodeEntries;
    if p.Got? { CodecProofs.Cat(before, EncodeHead(5, n), EncodeEntries(p.value)); }
  }

  lemma TagRewritten(ok: bool, rest: seq<Byte>, output: seq<Byte>, before: seq<Byte>, p: Parsed<Item>, n: nat)
    requires n <= U64_MAX
    requires Rewritten(ok, rest, output, before + EncodeHead(6, n), p)
    ensures Rewritten(ok, rest, output, before, AsTag(n, p))
  {
    hide EncodeHead;
    if p.Got? { CodecProofs.Cat(before, EncodeHead(6, n), Cbor.Encode(p.value)); }
  }

  /** `is_canonical_unknown_value` */
  method IsCanonicalUnknownValue(input: seq<Byte>) returns (r: bool)
    ensures r == IsCanonical(input)
  {
    hide ParseItem, Cbor.Encode, Fits;
    var decoder := new Decoder(input);
    var canonical := new Encoder();
    assert decoder.Rest() == input;
    var ok := CanonicalizeItem(decoder, canonical, 0);
    return ok && decoder.position == |input| && canonical.output == input;
  }

  // ----- decoding -----

  method DecodeIdAt(decoder: Decoder) returns (r: Result<seq<Byte>>)
    requires decoder.Valid()
    modifies decoder
    ensures decoder.Valid() && Agrees(r, decoder.Rest(), DecodeId(old(decoder.Rest())))
  {
    hide ReadBytes;
    var b :- decoder.ByteString();
    if |b| != 16 { return Err(InvalidVaultPayload); }
    return Ok(b);
  }

  /** `decoder.u8().ok() == Some(k)` */
  method Expect(decoder: Decoder, k: nat) returns (ok: bool)
    requires decoder.Valid()
    modifies decoder
    ensures decoder.Valid()
    ensures var p := ExpectKey(k, old(decoder.Rest())); ok == p.Got? && (ok ==> decoder.Rest() == p.rest)
  {
    hide ReadUint;
    var n := decoder.U64();
    return n == Ok(k);
  }

  method DecodeSettingsAt(decoder: Decoder) returns (r: Result<nat>)
    requires decoder.Valid()
    modifies decoder
    ensures decoder.Valid() && Agrees(r, decoder.Rest(), DecodeSettings(old(decoder.Rest())))
  {
    hide ReadUint, ReadLength, ExpectKey;
    var n :- decoder.Length(5);
    if n != 1 { return Err(InvalidVaultPayload); }
    var ok := Expect(decoder, 0);
    if !ok { return Err(InvalidVaultPayload); }
    var seconds :- decoder.U64();
    if seconds > U32_MAX { return Err(InvalidVaultPayload); }
    return Ok(seconds);
  }

  method DecodeFieldAt(decoder: Decoder) returns (r: Result<Field>)
    requires decoder.Valid()
    modifies decoder
    ensures decoder.Valid() && Agrees(r, decoder.Rest(), DecodeField(old(decoder.Rest())))
  {
    hide ReadUint, ReadLength, ReadText, ReadBytes, ExpectKey, FieldNameOk;
    var n :- decoder.Length(5);
    if n != 3 { return Err(InvalidVaultPayload); }
    var ok := Expect(decoder, 0);
    if !ok { return Err(InvalidVaultPayload); }
    var name :- decoder.Str();
    if !FieldNameOk(name) { return Err(InvalidVaultPayload); }
    ok := Expect(decoder, 1);
    if !ok { return Err(InvalidVaultPayload); }
    var value :- decoder.ByteString();
    ok := Expect(decoder, 2);
    if !ok { return Err(InvalidVaultPayload); }
    var hint :- decoder.U64();
    if hint > 1 || |value| > MAX_FIELD_BYTES { return Err(InvalidVaultPayload); }
    return Ok(Field(name, value, if hint == 0 then Binary else TextHint.Text));
  }

  /** Parsing all of a list succeeds exactly as parsing what is left after `done` does. */
  ghost predicate Continues<T(!new)>(all: Parsed<seq<T>>, done: seq<T>, now: Parsed<seq<T>>) {
    && all.Got? == now.Got?
    && (all.Got? ==> all.value == done + now.value && all.rest == now.rest)
  }

  lemma FieldsStep(all: Parsed<seq<Field>>, done: seq<Field>, s: seq<Byte>, n: nat)
    requires n > 0 && Continues(all, done, DecodeFields(s, n))
    ensures var p := DecodeField(s);
            p.Got? ==> Continues(all, done + [p.value], DecodeFields(p.rest, n - 1))
    ensures DecodeField(s).Fail? ==> all.Fail?
  {
    hide DecodeField, FieldOk;
  }

  method DecodeFieldsAt(decoder: Decoder, n: nat) returns (r: Result<seq<Field>>)
    requires decoder.Valid()
    modifies decoder
    ensures decoder.Valid() && Agrees(r, decoder.Rest(), DecodeFields(old(decoder.Rest()), n))
  {
    hide DecodeField, FieldOk, Agrees, DecodeFields, Continues;
    ghost var all := DecodeFields(decoder.Rest(), n);
    var fields: seq<Field> := [];
    ContinuesStart(all);
    var i := 0;
    while i < n
      invariant i <= n && decoder.Valid()
      invariant Continues(all, fields, DecodeFields(decoder.Rest(), n - i))
    {
      FieldsStep(all, fields, decoder.Rest(), n - i);
      ghost var p := DecodeField(decoder.Rest());
      var f := DecodeFieldAt(decoder);
      AgreesMeans(f, decoder.Rest(), p);
      if f.Err? {
        FailAgrees(decoder.Rest(), all);
        return Err(InvalidVaultPayload);
      }
      fields := fields + [f.value];
      i := i + 1;
    }
    NoFields(decoder.Rest());
    ContinuesEnd(all, fields, decoder.Rest());
    return Ok(fields);
  }

  lemma NoFields(s: seq<Byte>)
    ensures DecodeFields(s, 0) == Got([], s)
  {}

  lemma NoRecords(nfc: Normalizer, s: seq<Byte>)
    ensures DecodeRecords(nfc, s, 0) == Got([], s)
  {}

  lemma ContinuesStart<T(!new)>(all: Parsed<seq<T>>)
    ensures Continues(all, [], all)
  {
    if all.Got? { assert [] + all.value == all.value; }
  }

  lemma ContinuesEnd<T(!new)>(all: Parsed<seq<T>>, done: seq<T>, s: seq<Byte>)
    requires Continues(all, done, Got([], s))
    ensures Agrees(Ok(done), s, all)
  {
    assert done + [] == done;
  }

  lemma FailAgrees<T(!new)>(rest: seq<Byte>, all: Parsed<T>)
    requires all.Fail?
    ensures Agrees(Err(InvalidVaultPayload), rest, all)
  {}

  /** `decode_record` */
  method DecodeRecordAt(nfc: Normalizer, decoder: Decoder) returns (r: Result<Record>)
    requires decoder.Valid()
    modifies decoder
    ensures decoder.Valid() && Agrees(r, decoder.Rest(), DecodeRecord(nfc, old(decoder.Rest())))
  {
    hide ReadLength, ReadText, DecodeId, ExpectKey, DecodeFields, FromParts;
    var n :- decoder.Length(5);
    if n != 3 { return Err(InvalidVaultPayload); }
    var ok := Expect(decoder, 0);
    if !ok { return Err(InvalidVaultPayload); }
    var id :- DecodeIdAt(decoder);
    ok := Expect(decoder, 1);
    if !ok { return Err(InvalidVaultPayload); }
    var name :- decoder.Str();
    ok := Expect(decoder, 2);
    if !ok { return Err(InvalidVaultPayload); }
    var count :- decoder.Length(4);
    if count > MAX_FIELDS_PER_RECORD || count == 0 { return Err(InvalidVaultPayload); }
    var fields :- DecodeFieldsAt(decoder, count);
    var record := FromParts(nfc, id, name, fields);
    if record.Err? { return Err(InvalidVaultPayload); }
    return record;
  }

  lemma RecordsStep(nfc: Normalizer, all: Parsed<seq<Record>>, done: seq<Record>, s: seq<Byte>, n: nat)
    requires n > 0 && Continues(all, done, DecodeRecords(nfc, s, n))
    ensures var p := DecodeRecord(nfc, s);
            p.Got? ==> Continues(all, done + [p.value], DecodeRecords(nfc, p.rest, n - 1))
    ensures DecodeRecord(nfc, s).Fail? ==> all.Fail?
  {
    hide DecodeRecord, RecordPrints;
  }

  /** `decode_records`, after its length. */
  method DecodeRecordsAt(nfc: Normalizer, decoder: Decoder, n: nat) returns (r: Result<seq<Record>>)
    requires decoder.Valid()
    modifies decoder
    ensures decoder.Valid() && Agrees(r, decoder.Rest(), DecodeRecords(nfc, old(decoder.Rest()), n))
  {
    hide DecodeRecord, Agrees, DecodeRecords, Continues, RecordPrints;
    ghost var all := DecodeRecords(nfc, decoder.Rest(), n);
    var records: seq<Record> := [];
    ContinuesStart(all);
    var i := 0;
    while i < n
      invariant i <= n && decoder.Valid()
      invariant Continues(all, records, DecodeRecords(nfc, decoder.Rest(), n - i))
    {
      RecordsStep(nfc, all, records, decoder.Rest(), n - i);
      ghost var p := DecodeRecord(nfc, decoder.Rest());
      var x := DecodeRecordAt(nfc, decoder);
      AgreesMeans(x, decoder.Rest(), p);
      if x.Err? {
        FailAgrees(decoder.Rest(), all);
        return Err(InvalidVaultPayload);
      }
      records := records + [x.value];
      i := i + 1;
    }
    NoRecords(nfc, decoder.Rest());
    ContinuesEnd(all, records, decoder.Rest());
    return Ok(records);
  }

  /** One turn of the entry loop of `decode_payload`. */
  method DecodeEntryAt(nfc: Normalizer, decoder: Decoder, d: Draft) returns (r: Result<Draft>)
    requires decoder.Valid() && DraftPrints(d)
    modifies decoder
    ensures decoder.Valid() && Agrees(r, decoder.Rest(), DecodeEntry(nfc, old(decoder.Rest()), d))
  {
    hide ReadUint, ReadLength, DecodeId, DecodeSettings, DecodeRecords, Skip, IsCanonical, DraftPrints;
    var key :- decoder.U64();
    if d.previousKey.Some? && key <= d.previousKey.value { return Err(InvalidVaultPayload); }
    var d' := d.(previousKey := Some(key));
    match key {
      case 0 =>
        if d'.vaultId.Some? { return Err(InvalidVaultPayload); }
        var id :- DecodeIdAt(decoder);
        return Ok(d'.(vaultId := Some(id)));
      case 1 =>
        if d'.revision.Some? { return Err(InvalidVaultPayload); }
        var revision :- decoder.U64();
        return Ok(d'.(revision := Some(revision)));
      case 2 =>
        if d'.records.Some? { return Err(InvalidVaultPayload); }
        var count :- decoder.Length(4);
        if count > MAX_RECORDS { return Err(InvalidVaultPayload); }
        var records :- DecodeRecordsAt(nfc, decoder, count);
        return Ok(d'.(records := Some(records)));
      case 3 =>
        if d'.idleTimeoutSeconds.Some? { return Err(InvalidVaultPayload); }
        var seconds :- DecodeSettingsAt(decoder);
        return Ok(d'.(idleTimeoutSeconds := Some(seconds)));
      case _ =>
        var raw :- decoder.SkipItem();
        var canonical := IsCanonicalUnknownValue(raw);
        if !canonical { return Err(InvalidVaultPayload); }
        return Ok(d'.(unknown := d'.unknown + [(key, raw)]));
    }
  }

  /** The entry loop of `decode_payload`. */
  method DecodeEntriesAt(nfc: Normalizer, decoder: Decoder, n: nat) returns (r: Result<Draft>)
    requires decoder.Valid()
    modifies decoder
    ensures decoder.Valid() && DraftPrints(EMPTY_DRAFT)
    ensures Agrees(r, decoder.Rest(), DecodeEntries(nfc, old(decoder.Rest()), n, EMPTY_DRAFT))
  {
    hide Agrees, DecodeEntry, DecodeEntries, DraftPrints;
    EmptyDraftPrints();
    ghost var all := DecodeEntries(nfc, decoder.Rest(), n, EMPTY_DRAFT);
    var d := EMPTY_DRAFT;
    var i := 0;
    while i < n
      invariant i <= n && decoder.Valid() && DraftPrints(d)
      invariant DecodeEntries(nfc, decoder.Rest(), n - i, d) == all
    {
      ghost var s, p := decoder.Rest(), DecodeEntry(nfc, decoder.Rest(), d);
      var e := DecodeEntryAt(nfc, decoder, d);
      AgreesMeans(e, decoder.Rest(), p);
      if e.Err? {
        CodecProofs.EntriesFail(nfc, s, n - i, d);
        FailAgrees(decoder.Rest(), all);
        return Err(InvalidVaultPayload);
      }
      CodecProofs.EntriesUnfold(nfc, s, n - i, d, e.value, decoder.Rest());
      d := e.value;
      i := i + 1;
    }
    NoEntriesLeft(nfc, decoder.Rest(), d);
    GotAgrees(d, decoder.Rest(), all);
    return Ok(d);
  }

  lemma EmptyDraftPrints()
    ensures DraftPrints(EMPTY_DRAFT)
  {}

  lemma NoEntriesLeft(nfc: Normalizer, s: seq<Byte>, d: Draft)
    requires DraftPrints(d)
    ensures DecodeEntries(nfc, s, 0, d) == Got(d, s)
  {
    hide DraftPrints;
  }

  lemma GotAgrees<T(!new)>(v: T, rest: seq<Byte>, all: Parsed<T>)
    requires all == Got(v, rest)
    ensures Agrees(Ok(v), rest, all)
  {}

  /** `decode_payload` */
  method Decode(nfc: Normalizer, input: seq<Byte>) returns (r: Result<Payload>)
    ensures r == DecodePayload(nfc, input)
  {
    hide ReadLength, DecodeEntries, DraftPrints, Assemble, PayloadBytes, Prints;
    if |input| > MAX_VAULT_PAYLOAD_BYTES { return Err(VaultPayloadTooLarge); }
    var decoder := new Decoder(input);
    assert decoder.Rest() == input;
    var entries :- decoder.Length(5);
    if entries > 4 + MAX_RECORDS { return Err(InvalidVaultPayload); }
    ghost var rest := decoder.Rest();
    var d := DecodeEntriesAt(nfc, decoder, entries);
    AgreesMeans(d, decoder.Rest(), DecodeEntries(nfc, rest, entries, EMPTY_DRAFT));
    if d.Err? { return Err(InvalidVaultPayload); }
    if decoder.position != |input| { return Err(InvalidVaultPayload); }
    var p :- Assemble(d.value);
    var again :- Encode(p);
    if again != input { return Err(InvalidVaultPayload); }
    return Ok(p);
  }
}
