/**
 The subset of CBOR (section 3 of RFC 8949) the vault uses: shortest heads, definite lengths
 (section 4.2.1) and length-first key order (section 4.2.3).
*/
module Cbor {
  import opened Bytes
  import opened Utf8

  // ----- big-endian integers -----

  function BigEndian(n: nat, width: nat): (r: seq<Byte>)
    ensures |r| == width
  {
    if width == 0 then [] else BigEndian(n / 256, width - 1) + [n % 256]
  }

  function FromBigEndian(s: seq<Byte>): nat {
    if s == [] then 0 else FromBigEndian(s[..|s| - 1]) * 256 + s[|s| - 1]
  }

  function Pow256(width: nat): (r: nat)
    ensures r > 0
  {
    if width == 0 then 1 else 256 * Pow256(width - 1)
  }

  lemma {:induction false} BigEndianInverse(n: nat, width: nat)
    requires n < Pow256(width)
    ensures FromBigEndian(BigEndian(n, width)) == n
  {
    if width > 0 {
      var r := BigEndian(n, width);
      assert r[..|r| - 1] == BigEndian(n / 256, width - 1);
      QuotientFits(n, Pow256(width - 1));
      BigEndianInverse(n / 256, width - 1);
    }
  }

  lemma QuotientFits(n: nat, q: nat)
    requires n < 256 * q
    ensures n / 256 < q
  {}

  lemma {:induction false} FromBigEndianBound(s: seq<Byte>)
    ensures FromBigEndian(s) < Pow256(|s|)
  {
    if s != [] { FromBigEndianBound(s[..|s| - 1]); }
  }

  lemma Powers()
    ensures Pow256(1) == 0x100 && Pow256(2) == 0x1_0000 && Pow256(4) == 0x1_0000_0000
    ensures Pow256(8) == U64_MAX + 1
  {
    assert Pow256(3) == 0x100_0000;
    assert Pow256(5) == 0x100_0000_0000;
    assert Pow256(6) == 0x1_0000_0000_0000;
    assert Pow256(7) == 0x100_0000_0000_0000;
  }

  // ----- heads -----

  /** The shortest head for `major` and `n`. */
  function EncodeHead(major: nat, n: nat): (r: seq<Byte>)
    requires major < 8 && n <= U64_MAX
    ensures 1 <= |r| <= 9
  {
    if n < 24 then [32 * major + n]
    else if n < 0x100 then [32 * major + 24] + BigEndian(n, 1)
    else if n < 0x1_0000 then [32 * major + 25] + BigEndian(n, 2)
    else if n < 0x1_0000_0000 then [32 * major + 26] + BigEndian(n, 4)
    else [32 * major + 27] + BigEndian(n, 8)
  }

  /** A read either fails or yields a value and the input that follows it. */
  datatype Parsed<+T> = Fail | Got(value: T, rest: seq<Byte>) {
    predicate IsFailure() { Fail? }

    function PropagateFailure<U>(): Parsed<U>
      requires Fail?
    {
      Fail
    }

    function Extract(): (T, seq<Byte>)
      requires Got?
    {
      (value, rest)
    }
  }

  datatype Head = Head(major: nat, info: nat, arg: nat)

  /** Number of argument bytes that follow an initial byte; `None` for reserved and indefinite forms. */
  function ArgWidth(info: nat): Option<nat> {
    if info < 24 then Some(0)
    else if info == 24 then Some(1)
    else if info == 25 then Some(2)
    else if info == 26 then Some(4)
    else if info == 27 then Some(8)
    else None
  }

  /** Reads a definite head, shortest or not. */
  function ReadHead(s: seq<Byte>): (r: Parsed<Head>)
    ensures r.Got? ==> |r.rest| < |s| && r.value.major < 8 && r.value.info < 28
  {
    if s == [] then Fail
    else
      var major, info := s[0] / 32, s[0] % 32;
      match ArgWidth(info)
      case None => Fail
      case Some(w) =>
        if |s| < 1 + w then Fail
        else Got(Head(major, info, if w == 0 then info else FromBigEndian(s[1..1 + w])), s[1 + w..])
  }

  lemma ReadHeadBound(s: seq<Byte>)
    requires ReadHead(s).Got?
    ensures ReadHead(s).value.arg <= U64_MAX
  {
    Powers();
    var w := ArgWidth(s[0] % 32).value;
    if w > 0 { FromBigEndianBound(s[1..1 + w]); }
  }

  /** The `info` bits a shortest head uses. */
  function ShortestInfo(n: nat): nat {
    if n < 24 then n else if n < 0x100 then 24 else if n < 0x1_0000 then 25 else if n < 0x1_0000_0000 then 26 else 27
  }

  lemma ReadWide(first: Byte, n: nat, w: nat, t: seq<Byte>)
    requires n < Pow256(w) && w > 0 && ArgWidth(first % 32) == Some(w)
    ensures ReadHead([first] + BigEndian(n, w) + t) == Got(Head(first / 32, first % 32, n), t)
  {
    hide BigEndian, FromBigEndian, Pow256;
    var be := BigEndian(n, w);
    var s := [first] + be + t;
    BigEndianInverse(n, w);
    assert s[1..1 + w] == be && s[1 + w..] == t;
  }

  lemma ReadHeadOfEncode(major: nat, n: nat, t: seq<Byte>)
    requires major < 8 && n <= U64_MAX
    ensures ReadHead(EncodeHead(major, n) + t) == Got(Head(major, ShortestInfo(n), n), t)
  {
    hide BigEndian, FromBigEndian, Pow256, ReadHead;
    Powers();
    if n < 24 {
      ReadShort(32 * major + n, t);
    } else if n < 0x100 {
      ReadWide(32 * major + 24, n, 1, t);
    } else if n < 0x1_0000 {
      ReadWide(32 * major + 25, n, 2, t);
    } else if n < 0x1_0000_0000 {
      ReadWide(32 * major + 26, n, 4, t);
    } else {
      ReadWide(32 * major + 27, n, 8, t);
    }
  }

  lemma ReadShort(first: Byte, t: seq<Byte>)
    requires first % 32 < 24
    ensures ReadHead([first] + t) == Got(Head(first / 32, first % 32, first % 32), t)
  {}

  // ----- the reads of the decoder -----

  function ReadUint(s: seq<Byte>): (r: Parsed<nat>)
    ensures r.Got? ==> |r.rest| < |s|
  {
    match ReadHead(s)
    case Got(h, rest) => if h.major == 0 then Got(h.arg, rest) else Fail
    case Fail => Fail
  }

  /** A definite length of the given kind. */
  function ReadLength(major: nat, s: seq<Byte>): (r: Parsed<nat>)
    ensures r.Got? ==> |r.rest| < |s|
  {
    match ReadHead(s)
    case Got(h, rest) => if h.major == major then Got(h.arg, rest) else Fail
    case Fail => Fail
  }

  function ReadString(major: nat, s: seq<Byte>): (r: Parsed<seq<Byte>>)
    ensures r.Got? ==> |r.rest| < |s| && |r.value| <= |s|
  {
    match ReadLength(major, s)
    case Got(n, rest) => if n <= |rest| then Got(rest[..n], rest[n..]) else Fail
    case Fail => Fail
  }

  function ReadBytes(s: seq<Byte>): (r: Parsed<seq<Byte>>) { ReadString(2, s) }

  function ReadText(s: seq<Byte>): (r: Parsed<seq<Byte>>) {
    match ReadString(3, s)
    case Got(t, rest) => if WellFormed(t) then Got(t, rest) else Fail
    case Fail => Fail
  }

  function EncodeString(major: nat, b: seq<Byte>): seq<Byte>
    requires major < 8 && |b| <= U64_MAX
  {
    EncodeHead(major, |b|) + b
  }

  lemma ReadUintOfEncode(n: nat, t: seq<Byte>)
    requires n <= U64_MAX
    ensures ReadUint(EncodeHead(0, n) + t) == Got(n, t)
  {
    hide EncodeHead, ReadHead;
    ReadHeadOfEncode(0, n, t);
  }

  lemma ReadLengthOfEncode(major: nat, n: nat, t: seq<Byte>)
    requires major < 8 && n <= U64_MAX
    ensures ReadLength(major, EncodeHead(major, n) + t) == Got(n, t)
  {
    hide EncodeHead, ReadHead;
    ReadHeadOfEncode(major, n, t);
  }

  lemma ReadStringOfEncode(major: nat, b: seq<Byte>, t: seq<Byte>)
    requires major < 8 && |b| <= U64_MAX
    ensures ReadString(major, EncodeString(major, b) + t) == Got(b, t)
  {
    hide EncodeHead, ReadHead, ReadLength;
    ReadLengthOfEncode(major, |b|, b + t);
    assert EncodeString(major, b) + t == EncodeHead(major, |b|) + (b + t);
    assert (b + t)[..|b|] == b && (b + t)[|b|..] == t;
  }

  lemma ReadTextOfEncode(b: seq<Byte>, t: seq<Byte>)
    requires |b| <= U64_MAX && WellFormed(b)
    ensures ReadText(EncodeString(3, b) + t) == Got(b, t)
  {
    hide ReadString, WellFormed, EncodeString;
    ReadStringOfEncode(3, b, t);
  }

  // ----- data items -----

  datatype Item =
    | Uint(n: nat)
    | Nint(n: nat)               // the integer -1 - n
    | Bytes(b: seq<Byte>)
    | Text(t: seq<Byte>)
    | Array(items: Items)
    | Map(entries: Entries)
    | Tag(n: nat, item: Item)
    | Simple(n: nat)             // false, true, null and undefined are 20 to 23

  datatype Items = NoItems | MoreItems(head: Item, tail: Items)

  datatype Entries = NoEntries | MoreEntries(key: Item, value: Item, tail: Entries)

  function ItemCount(items: Items): nat {
    match items
    case NoItems => 0
    case MoreItems(_, tail) => 1 + ItemCount(tail)
  }

  function EntryCount(entries: Entries): nat {
    match entries
    case NoEntries => 0
    case MoreEntries(_, _, tail) => 1 + EntryCount(tail)
  }

  /** Simple values as one byte below 24, as two bytes from 32 (section 3.3 of RFC 8949). */
  predicate SimpleOk(n: nat) { n < 24 || 32 <= n < 256 }

  /** Every number and length fits its head, and text is UTF-8. */
  predicate Fits(item: Item) {
    match item
    case Uint(n) => n <= U64_MAX
    case Nint(n) => n <= U64_MAX
    case Bytes(b) => |b| <= U64_MAX
    case Text(t) => |t| <= U64_MAX && WellFormed(t)
    case Array(items) => ItemCount(items) <= U64_MAX && AllFit(items)
    case Map(entries) => EntryCount(entries) <= U64_MAX && AllEntriesFit(entries)
    case Tag(n, inner) => n <= U64_MAX && Fits(inner)
    case Simple(n) => SimpleOk(n)
  }

  predicate AllFit(items: Items) {
    match items
    case NoItems => true
    case MoreItems(head, tail) => Fits(head) && AllFit(tail)
  }

  predicate AllEntriesFit(entries: Entries) {
    match entries
    case NoEntries => true
    case MoreEntries(key, value, tail) => Fits(key) && Fits(value) && AllEntriesFit(tail)
  }

  /** The canonical encoding: shortest heads, definite lengths. */
  function Encode(item: Item): (r: seq<Byte>)
    requires Fits(item)
    ensures |r| >= 1
  {
    match item
    case Uint(n) => EncodeHead(0, n)
    case Nint(n) => EncodeHead(1, n)
    case Bytes(b) => EncodeString(2, b)
    case Text(t) => EncodeString(3, t)
    case Array(items) => EncodeHead(4, ItemCount(items)) + EncodeItems(items)
    case Map(entries) => EncodeHead(5, EntryCount(entries)) + EncodeEntries(entries)
    case Tag(n, inner) => EncodeHead(6, n) + Encode(inner)
    case Simple(n) => EncodeHead(7, n)
  }

  function EncodeItems(items: Items): (r: seq<Byte>)
    requires AllFit(items)
    ensures |r| >= ItemCount(items)
  {
    match items
    case NoItems => []
    case MoreItems(head, tail) => Encode(head) + EncodeItems(tail)
  }

  function EncodeEntries(entries: Entries): (r: seq<Byte>)
    requires AllEntriesFit(entries)
    ensures |r| >= 2 * EntryCount(entries)
  {
    match entries
    case NoEntries => []
    case MoreEntries(key, value, tail) => Encode(key) + Encode(value) + EncodeEntries(tail)
  }

  // ----- length-first key order -----

  /** Lexicographic order on strings of equal length. */
  predicate LexLess(a: seq<Byte>, b: seq<Byte>) {
    a != [] && b != [] && (a[0] < b[0] || (a[0] == b[0] && LexLess(a[1..], b[1..])))
  }

  /** `canonical_key_order(a, b) == Less` */
  predicate KeyLess(a: seq<Byte>, b: seq<Byte>) {
    |a| < |b| || (|a| == |b| && LexLess(a, b))
  }

  lemma {:induction false} LexLessIsStrictOrder(a: seq<Byte>, b: seq<Byte>, c: seq<Byte>)
    requires |a| == |b| == |c|
    ensures !LexLess(a, a)
    ensures LexLess(a, b) && LexLess(b, c) ==> LexLess(a, c)
    ensures a == b || LexLess(a, b) || LexLess(b, a)
  {
    if a != [] {
      LexLessIsStrictOrder(a[1..], b[1..], c[1..]);
      assert a == [a[0]] + a[1..] && b == [b[0]] + b[1..];
    }
  }

  /** The key order is a strict total order, so a strictly ordered map has no repeated key. */
  lemma KeyOrderIsTotal(a: seq<Byte>, b: seq<Byte>, c: seq<Byte>)
    ensures !KeyLess(a, a)
    ensures KeyLess(a, b) && KeyLess(b, c) ==> KeyLess(a, c)
    ensures a == b || KeyLess(a, b) || KeyLess(b, a)
  {
    LexLessIsStrictOrder(a, a, a);
    if |a| == |b| {
      LexLessIsStrictOrder(a, b, b);
      if |b| == |c| { LexLessIsStrictOrder(a, b, c); }
    }
  }

  /** Keys strictly increase, starting above `previous`. */
  predicate Ordered(entries: Entries, previous: Option<seq<Byte>>)
    requires AllEntriesFit(entries)
  {
    match entries
    case NoEntries => true
    case MoreEntries(key, _, tail) =>
      (previous.Some? ==> KeyLess(previous.value, Encode(key))) && Ordered(tail, Some(Encode(key)))
  }

  const MAX_DEPTH: nat := 16

  /** What may be carried through: it fits, every map is ordered, and nesting stays below depth 16. */
  predicate Acceptable(item: Item, depth: nat) {
    && depth < MAX_DEPTH && Fits(item)
    && match item
       case Array(items) => AllAcceptable(items, depth + 1)
       case Map(entries) => AllEntriesAcceptable(entries, depth + 1) && Ordered(entries, None)
       case Tag(_, inner) => Acceptable(inner, depth + 1)
       case _ => true
  }

  predicate AllAcceptable(items: Items, depth: nat) {
    match items
    case NoItems => true
    case MoreItems(head, tail) => Acceptable(head, depth) && AllAcceptable(tail, depth)
  }

  predicate AllEntriesAcceptable(entries: Entries, depth: nat) {
    match entries
    case NoEntries => true
    case MoreEntries(key, value, tail) => Acceptable(key, depth) && Acceptable(value, depth) && AllEntriesAcceptable(tail, depth)
  }

  lemma {:induction false} AcceptableFits(items: Items, depth: nat)
    requires AllAcceptable(items, depth)
    ensures AllFit(items)
  {
    if items.MoreItems? { AcceptableFits(items.tail, depth); }
  }

  lemma {:induction false} AcceptableEntriesFit(entries: Entries, depth: nat)
    requires AllEntriesAcceptable(entries, depth)
    ensures AllEntriesFit(entries)
  {
    if entries.MoreEntries? { AcceptableEntriesFit(entries.tail, depth); }
  }

  // ----- reading one item back -----

  function Room(depth: nat): nat {
    if depth < MAX_DEPTH then MAX_DEPTH - depth else 0
  }

  /** `canonicalize_item` as a parser: heads need not be shortest here, but key order is checked on
      the canonical form of each key. */
  function ParseItem(s: seq<Byte>, depth: nat): (r: Parsed<Item>)
    ensures r.Got? ==> Acceptable(r.value, depth) && |r.rest| < |s|
    decreases Room(depth), 0, 0
  {
    if depth >= MAX_DEPTH then Fail
    else
      match ReadHead(s)
      case Fail => Fail
      case Got(h, rest) =>
        ReadHeadBound(s);
        if h.major == 0 then Got(Uint(h.arg), rest)
        else if h.major == 1 then Got(Nint(h.arg), rest)
        else if h.major == 2 then
          if h.arg <= |rest| then Got(Bytes(rest[..h.arg]), rest[h.arg..]) else Fail
        else if h.major == 3 then
          if h.arg <= |rest| && WellFormed(rest[..h.arg]) then Got(Text(rest[..h.arg]), rest[h.arg..]) else Fail
        else if h.major == 4 then
          if h.arg > |rest| then Fail
          else
            match ParseItems(rest, h.arg, depth + 1)
            case Got(items, rest') => Got(Array(items), rest')
            case Fail => Fail
        else if h.major == 5 then
          if h.arg > |rest| / 2 then Fail
          else
            match ParseEntries(rest, h.arg, None, depth + 1)
            case Got(entries, rest') => Got(Map(entries), rest')
            case Fail => Fail
        else if h.major == 6 then
          match ParseItem(rest, depth + 1)
          case Got(item, rest') => Got(Tag(h.arg, item), rest')
          case Fail => Fail
        else if h.info < 24 || (h.info == 24 && SimpleOk(h.arg)) then Got(Simple(h.arg), rest)
        else Fail
  }

  function ParseItems(s: seq<Byte>, n: nat, depth: nat): (r: Parsed<Items>)
    ensures r.Got? ==> AllAcceptable(r.value, depth) && AllFit(r.value) && ItemCount(r.value) == n && |r.rest| <= |s|
    decreases Room(depth), 1, n
  {
    if n == 0 then Got(NoItems, s)
    else
      match ParseItem(s, depth)
      case Fail => Fail
      case Got(head, rest) =>
        match ParseItems(rest, n - 1, depth)
        case Fail => Fail
        case Got(tail, rest') => Got(MoreItems(head, tail), rest')
  }

  function ParseEntries(s: seq<Byte>, n: nat, previous: Option<seq<Byte>>, depth: nat): (r: Parsed<Entries>)
    ensures r.Got? ==>
              && AllEntriesAcceptable(r.value, depth) && AllEntriesFit(r.value)
              && EntryCount(r.value) == n && Ordered(r.value, previous) && |r.rest| <= |s|
    decreases Room(depth), 1, n
  {
    if n == 0 then Got(NoEntries, s)
    else
      match ParseItem(s, depth)
      case Fail => Fail
      case Got(key, rest) =>
        if previous.Some? && !KeyLess(previous.value, Encode(key)) then Fail
        else
          match ParseItem(rest, depth)
          case Fail => Fail
          case Got(value, rest') =>
            match ParseEntries(rest', n - 1, Some(Encode(key)), depth)
            case Fail => Fail
            case Got(tail, rest'') => Got(MoreEntries(key, value, tail), rest'')
  }

  // ----- every acceptable item is read back from its encoding -----

  lemma ParseByHead(s: seq<Byte>, depth: nat, h: Head, rest: seq<Byte>)
    requires depth < MAX_DEPTH && ReadHead(s) == Got(h, rest)
    ensures h.major == 0 ==> ParseItem(s, depth) == Got(Uint(h.arg), rest)
    ensures h.major == 1 ==> ParseItem(s, depth) == Got(Nint(h.arg), rest)
    ensures h.major == 4 && h.arg <= |rest| && ParseItems(rest, h.arg, depth + 1).Got? ==>
              ParseItem(s, depth) == Got(Array(ParseItems(rest, h.arg, depth + 1).value), ParseItems(rest, h.arg, depth + 1).rest)
    ensures h.major == 5 && h.arg <= |rest| / 2 && ParseEntries(rest, h.arg, None, depth + 1).Got? ==>
              ParseItem(s, depth) == Got(Map(ParseEntries(rest, h.arg, None, depth + 1).value), ParseEntries(rest, h.arg, None, depth + 1).rest)
    ensures h.major == 6 && ParseItem(rest, depth + 1).Got? ==>
              ParseItem(s, depth) == Got(Tag(h.arg, ParseItem(rest, depth + 1).value), ParseItem(rest, depth + 1).rest)
    ensures h.major == 7 && (h.info < 24 || (h.info == 24 && SimpleOk(h.arg))) ==> ParseItem(s, depth) == Got(Simple(h.arg), rest)
  {
    hide ReadHead, ParseItems, ParseEntries, WellFormed, Acceptable;
  }

  lemma ParseStringByHead(s: seq<Byte>, depth: nat, h: Head, b: seq<Byte>, t: seq<Byte>)
    requires depth < MAX_DEPTH && ReadHead(s) == Got(h, b + t) && h.arg == |b|
    ensures h.major == 2 ==> ParseItem(s, depth) == Got(Bytes(b), t)
    ensures h.major == 3 && WellFormed(b) ==> ParseItem(s, depth) == Got(Text(b), t)
  {
    hide ReadHead, ParseItems, ParseEntries, WellFormed, Acceptable;
    assert (b + t)[..|b|] == b && (b + t)[|b|..] == t;
  }

  lemma {:induction false} ParseEncoded(item: Item, depth: nat, t: seq<Byte>)
    requires Acceptable(item, depth)
    ensures ParseItem(Encode(item) + t, depth) == Got(item, t)
    decreases item
  {
    hide ReadHead, EncodeHead, WellFormed, KeyLess, ParseItem, ParseItems, ParseEntries;
    var s := Encode(item) + t;
    match item
    case Uint(n) =>
      ReadHeadOfEncode(0, n, t);
      ParseByHead(s, depth, Head(0, ShortestInfo(n), n), t);
    case Nint(n) =>
      ReadHeadOfEncode(1, n, t);
      ParseByHead(s, depth, Head(1, ShortestInfo(n), n), t);
    case Bytes(b) =>
      assert s == EncodeHead(2, |b|) + (b + t);
      ReadHeadOfEncode(2, |b|, b + t);
      ParseStringByHead(s, depth, Head(2, ShortestInfo(|b|), |b|), b, t);
    case Text(b) =>
      assert s == EncodeHead(3, |b|) + (b + t);
      ReadHeadOfEncode(3, |b|, b + t);
      ParseStringByHead(s, depth, Head(3, ShortestInfo(|b|), |b|), b, t);
    case Array(items) =>
      var n, body := ItemCount(items), EncodeItems(items) + t;
      assert s == EncodeHead(4, n) + body;
      ReadHeadOfEncode(4, n, body);
      ParseEncodedItems(items, depth + 1, t);
      ParseByHead(s, depth, Head(4, ShortestInfo(n), n), body);
    case Map(entries) =>
      var n, body := EntryCount(entries), EncodeEntries(entries) + t;
      assert s == EncodeHead(5, n) + body;
      ReadHeadOfEncode(5, n, body);
      ParseEncodedEntries(entries, None, depth + 1, t);
      ParseByHead(s, depth, Head(5, ShortestInfo(n), n), body);
    case Tag(n, inner) =>
      var body := Encode(inner) + t;
      assert s == EncodeHead(6, n) + body;
      ReadHeadOfEncode(6, n, body);
      ParseEncoded(inner, depth + 1, t);
      ParseByHead(s, depth, Head(6, ShortestInfo(n), n), body);
    case Simple(n) =>
      ReadHeadOfEncode(7, n, t);
      ParseByHead(s, depth, Head(7, ShortestInfo(n), n), t);
  }

  lemma {:induction false} ParseEncodedItems(items: Items, depth: nat, t: seq<Byte>)
    requires AllAcceptable(items, depth) && AllFit(items)
    ensures ParseItems(EncodeItems(items) + t, ItemCount(items), depth) == Got(items, t)
    decreases items
  {
    hide Encode, ParseItem, Acceptable;
    match items
    case NoItems => assert [] + t == t;
    case MoreItems(head, tail) =>
      var rest := EncodeItems(tail) + t;
      assert EncodeItems(items) + t == Encode(head) + rest;
      ParseEncoded(head, depth, rest);
      ParseEncodedItems(tail, depth, t);
  }

  lemma {:induction false} ParseEncodedEntries(entries: Entries, previous: Option<seq<Byte>>, depth: nat, t: seq<Byte>)
    requires AllEntriesAcceptable(entries, depth) && AllEntriesFit(entries) && Ordered(entries, previous)
    ensures ParseEntries(EncodeEntries(entries) + t, EntryCount(entries), previous, depth) == Got(entries, t)
    decreases entries
  {
    hide Encode, ParseItem, Acceptable, KeyLess;
    match entries
    case NoEntries => assert [] + t == t;
    case MoreEntries(key, value, tail) =>
      var rest := EncodeEntries(tail) + t;
      assert EncodeEntries(entries) + t == Encode(key) + (Encode(value) + rest);
      ParseEncoded(key, depth, Encode(value) + rest);
      ParseEncoded(value, depth, rest);
      ParseEncodedEntries(tail, Some(Encode(key)), depth, t);
  }

  // ----- which raw values may be carried through -----

  /** `is_canonical_unknown_value` */
  predicate IsCanonical(raw: seq<Byte>) {
    var r := ParseItem(raw, 0);
    r.Got? && r.rest == [] && Encode(r.value) == raw
  }

  /** A raw value is accepted exactly when it is the canonical encoding of some item whose maps are
      strictly ordered and whose nesting stays below depth 16. */
  lemma CanonicalExactly(raw: seq<Byte>)
    ensures IsCanonical(raw) <==> exists item :: Acceptable(item, 0) && Encode(item) == raw
  {
    if item :| Acceptable(item, 0) && Encode(item) == raw {
      ParseEncoded(item, 0, []);
      assert raw + [] == raw;
    }
  }

  // ----- skipping -----

  /** After one head, with `n` items still to skip: where to go on, and how many items are left. */
  function SkipNext(h: Head, rest: seq<Byte>, n: nat): (r: Option<(seq<Byte>, nat)>)
    requires n > 0
    ensures r.Some? ==> |r.value.0| <= |rest|
  {
    if h.major == 2 || h.major == 3 then
      if h.arg > |rest| then None else Some((rest[h.arg..], n - 1))
    else Some((rest, if h.major == 4 then n - 1 + h.arg
                     else if h.major == 5 then n - 1 + 2 * h.arg
                     else if h.major == 6 then n
                     else n - 1))
  }

  /** `Decoder::skip`: steps over `n` definite items. (Indefinite items are skipped by the library
      but can never be canonical, so refusing them here refuses the same inputs.) */
  function Skip(s: seq<Byte>, n: nat): (r: Option<seq<Byte>>)
    ensures r.Some? ==> |r.value| <= |s|
    decreases |s|
  {
    hide EncodeHead;
    if n == 0 then Some(s)
    else
      match ReadHead(s)
      case Fail => None
      case Got(h, rest) =>
        match SkipNext(h, rest, n)
        case None => None
        case Some((next, m)) => Skip(next, m)
  }

  ghost predicate IsSuffix(rest: seq<Byte>, s: seq<Byte>) {
    |rest| <= |s| && rest == s[|s| - |rest|..]
  }

  lemma SuffixTrans(a: seq<Byte>, b: seq<Byte>, c: seq<Byte>)
    requires IsSuffix(a, b) && IsSuffix(b, c)
    ensures IsSuffix(a, c)
  {}

  lemma ReadHeadSuffix(s: seq<Byte>)
    requires ReadHead(s).Got?
    ensures IsSuffix(ReadHead(s).rest, s)
  {}

  lemma SkipNextSuffix(h: Head, rest: seq<Byte>, n: nat)
    requires n > 0 && SkipNext(h, rest, n).Some?
    ensures IsSuffix(SkipNext(h, rest, n).value.0, rest)
  {}

  lemma {:induction false} SkipSuffix(s: seq<Byte>, n: nat)
    requires Skip(s, n).Some?
    ensures IsSuffix(Skip(s, n).value, s)
    decreases |s|
  {
    hide ReadHead, SkipNext, IsSuffix;
    if n == 0 {
      SuffixRefl(s);
    } else {
      ReadHeadSuffix(s);
      var h, rest := ReadHead(s).value, ReadHead(s).rest;
      var (next, m) := SkipNext(h, rest, n).value;
      SkipNextSuffix(h, rest, n);
      SkipSuffix(next, m);
      SuffixTrans(next, rest, s);
      SuffixTrans(Skip(next, m).value, next, s);
    }
  }

  lemma SuffixRefl(s: seq<Byte>)
    ensures IsSuffix(s, s)
  {}

  lemma SkipHead(major: nat, arg: nat, body: seq<Byte>, n: nat)
    requires major < 8 && arg <= U64_MAX && n > 0
    ensures major in {0, 1, 7} ==> Skip(EncodeHead(major, arg) + body, n) == Skip(body, n - 1)
    ensures major == 4 ==> Skip(EncodeHead(major, arg) + body, n) == Skip(body, n - 1 + arg)
    ensures major == 5 ==> Skip(EncodeHead(major, arg) + body, n) == Skip(body, n - 1 + 2 * arg)
    ensures major == 6 ==> Skip(EncodeHead(major, arg) + body, n) == Skip(body, n)
    ensures major in {2, 3} && arg <= |body| ==> Skip(EncodeHead(major, arg) + body, n) == Skip(body[arg..], n - 1)
  {
    hide ReadHead, EncodeHead;
    ReadHeadOfEncode(major, arg, body);
  }

  lemma SkipString(major: nat, b: seq<Byte>, t: seq<Byte>, n: nat)
    requires major in {2, 3} && |b| <= U64_MAX && n > 0
    ensures Skip(EncodeString(major, b) + t, n) == Skip(t, n - 1)
  {
    hide Skip, EncodeHead;
    assert EncodeString(major, b) + t == EncodeHead(major, |b|) + (b + t);
    SkipHead(major, |b|, b + t, n);
    assert (b + t)[|b|..] == t;
  }

  lemma SkipNested(major: nat, arg: nat, body: seq<Byte>, t: seq<Byte>, n: nat)
    requires major in {4, 5, 6} && arg <= U64_MAX && n > 0
    ensures Skip(EncodeHead(major, arg) + body + t, n)
         == Skip(body + t, if major == 4 then n - 1 + arg else if major == 5 then n - 1 + 2 * arg else n)
  {
    hide Skip, EncodeHead;
    assert EncodeHead(major, arg) + body + t == EncodeHead(major, arg) + (body + t);
    SkipHead(major, arg, body + t, n);
  }

  lemma {:induction false} SkipEncoded(item: Item, t: seq<Byte>, n: nat)
    requires Fits(item) && n > 0
    ensures Skip(Encode(item) + t, n) == Skip(t, n - 1)
    decreases item
  {
    hide Skip, EncodeHead, EncodeString, WellFormed, EncodeItems, EncodeEntries;
    match item
    case Uint(a) => SkipHead(0, a, t, n);
    case Nint(a) => SkipHead(1, a, t, n);
    case Bytes(b) => SkipString(2, b, t, n);
    case Text(b) => SkipString(3, b, t, n);
    case Array(items) =>
      SkipNested(4, ItemCount(items), EncodeItems(items), t, n);
      SkipEncodedItems(items, t, n - 1);
    case Map(entries) =>
      SkipNested(5, EntryCount(entries), EncodeEntries(entries), t, n);
      SkipEncodedEntries(entries, t, n - 1);
    case Tag(a, inner) =>
      SkipNested(6, a, Encode(inner), t, n);
      SkipEncoded(inner, t, n);
    case Simple(a) => SkipHead(7, a, t, n);
  }

  lemma {:induction false} SkipEncodedItems(items: Items, t: seq<Byte>, n: nat)
    requires AllFit(items)
    ensures Skip(EncodeItems(items) + t, n + ItemCount(items)) == Skip(t, n)
    decreases items
  {
    hide Skip, Encode, Fits;
    match items
    case NoItems => assert [] + t == t;
    case MoreItems(head, tail) =>
      assert EncodeItems(items) + t == Encode(head) + (EncodeItems(tail) + t);
      SkipEncoded(head, EncodeItems(tail) + t, n + ItemCount(items));
      SkipEncodedItems(tail, t, n);
  }

  lemma {:induction false} SkipEncodedEntries(entries: Entries, t: seq<Byte>, n: nat)
    requires AllEntriesFit(entries)
    ensures Skip(EncodeEntries(entries) + t, n + 2 * EntryCount(entries)) == Skip(t, n)
    decreases entries
  {
    hide Skip, Encode, Fits;
    match entries
    case NoEntries => assert [] + t == t;
    case MoreEntries(key, value, tail) =>
      var rest := EncodeEntries(tail) + t;
      assert EncodeEntries(entries) + t == Encode(key) + (Encode(value) + rest);
      SkipEncoded(key, Encode(value) + rest, n + 2 * EntryCount(entries));
      SkipEncoded(value, rest, n + 2 * EntryCount(entries) - 1);
      SkipEncodedEntries(tail, t, n);
  }

  /** Skipping an unknown value consumes exactly that value. */
  lemma SkipCanonical(raw: seq<Byte>, t: seq<Byte>)
    requires IsCanonical(raw)
    ensures Skip(raw + t, 1) == Some(t)
  {
    hide Encode, ParseItem;
    var item := ParseItem(raw, 0).value;
    SkipEncoded(item, t, 1);
  }
}
