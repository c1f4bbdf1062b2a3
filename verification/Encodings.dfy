/**
 The forms in which the redactor looks for a secret (redact.rs). Every encoding comes with a reader of
 its own, written from the other side, and the two are proved to be inverse to each other.

 Base64 is that of sections 4 and 5 of RFC 4648, percent-encoding that of section 2 of RFC 3986, and JSON
 escapes are those of section 7 of RFC 8259 in the choice serde_json makes.
*/
module Encodings {
  import opened Bytes
  import opened Hex
  import opened Utf8

  /** `first` in front of what `rest` was read as. */
  function Before(first: seq<Byte>, rest: Option<seq<Byte>>): Option<seq<Byte>> {
    match rest
    case Some(more) => Some(first + more)
    case None => None
  }

  // ----- hexadecimal -----

  function HexOf(value: seq<Byte>, upper: bool): seq<Byte> {
    if value == [] then [] else [Digit(value[0] / 16, upper), Digit(value[0] % 16, upper)] + HexOf(value[1..], upper)
  }

  function ReadHex(t: seq<Byte>, upper: bool): Option<seq<Byte>> {
    if t == [] then Some([])
    else if |t| < 2 then None
    else
      match ReadPair(t[0], t[1], upper)
      case Some(b) => Before([b], ReadHex(t[2..], upper))
      case None => None
  }

  lemma {:induction false} HexExactly(t: seq<Byte>, value: seq<Byte>, upper: bool)
    ensures ReadHex(t, upper) == Some(value) <==> t == HexOf(value, upper)
    decreases |t| + |value|
  {
    hide Digit, ReadPair;
    if value != [] && |t| >= 2 {
      PairExactly(t[0], t[1], value[0], upper);
      HexExactly(t[2..], value[1..], upper);
      assert t == [t[0], t[1]] + t[2..] && value == [value[0]] + value[1..];
    }
  }

  lemma HexStep(value: seq<Byte>, i: nat, upper: bool)
    requires i <= |value|
    ensures HexOf(value[i..], upper) ==
            if i == |value| then [] else [Digit(value[i] / 16, upper), Digit(value[i] % 16, upper)] + HexOf(value[i + 1..], upper)
  {
    hide Digit;
    if i < |value| { assert value[i..][1..] == value[i + 1..]; }
  }

  /** `encode_hex` */
  method EncodeHex(value: seq<Byte>, upper: bool) returns (output: seq<Byte>)
    ensures ReadHex(output, upper) == Some(value)
    ensures output == HexOf(value, upper)
  {
    hide Digit, HexOf, ReadHex;
    output := [];
    for i := 0 to |value|
      invariant HexOf(value, upper) == output + HexOf(value[i..], upper)
    {
      ghost var before := output;
      HexStep(value, i, upper);
      output := output + [Digit(value[i] / 16, upper)];
      output := output + [Digit(value[i] % 16, upper)];
      assert output == before + [Digit(value[i] / 16, upper), Digit(value[i] % 16, upper)];
    }
    HexStep(value, |value|, upper);
    HexExactly(output, value, upper);
  }

  // ----- percent-encoding -----

  predicate Unreserved(b: Byte) {
    0x30 <= b <= 0x39 || 0x41 <= b <= 0x5A || 0x61 <= b <= 0x7A || b == 0x2D || b == 0x2E || b == 0x5F || b == 0x7E
  }

  function PercentByte(b: Byte, lower: bool): seq<Byte> {
    if Unreserved(b) then [b] else [0x25, Digit(b / 16, !lower), Digit(b % 16, !lower)]
  }

  function PercentOf(value: seq<Byte>, lower: bool): seq<Byte> {
    if value == [] then [] else PercentByte(value[0], lower) + PercentOf(value[1..], lower)
  }

  /** ASCII letters and digits, `-`, `.`, `_` and `~`. */
  predicate StandsForItself(b: Byte) {
    var c := b as char;
    'A' <= c <= 'Z' || 'a' <= c <= 'z' || '0' <= c <= '9' || c in "-._~"
  }

  /** A byte that may stand for itself does, every other one is `%` and two digits. */
  function ReadPercent(t: seq<Byte>, lower: bool): Option<seq<Byte>> {
    if t == [] then Some([])
    else if StandsForItself(t[0]) then Before([t[0]], ReadPercent(t[1..], lower))
    else if t[0] as char != '%' || |t| < 3 then None
    else
      match ReadPair(t[1], t[2], !lower)
      case Some(b) => if StandsForItself(b) then None else Before([b], ReadPercent(t[3..], lower))
      case None => None
  }

  lemma UnreservedStandsForItself(b: Byte)
    ensures Unreserved(b) <==> StandsForItself(b)
    ensures !Unreserved(0x25)
  {}

  lemma {:induction false} PercentExactly(t: seq<Byte>, value: seq<Byte>, lower: bool)
    ensures ReadPercent(t, lower) == Some(value) <==> t == PercentOf(value, lower)
    decreases |t| + |value|
  {
    hide Digit, ReadPair, Unreserved, StandsForItself;
    if value != [] && t != [] {
      UnreservedStandsForItself(t[0]);
      UnreservedStandsForItself(value[0]);
      assert value == [value[0]] + value[1..];
      if Unreserved(t[0]) {
        PercentExactly(t[1..], value[1..], lower);
        assert t == [t[0]] + t[1..];
      } else if |t| >= 3 {
        PairExactly(t[1], t[2], value[0], !lower);
        PercentExactly(t[3..], value[1..], lower);
        assert t == [t[0], t[1], t[2]] + t[3..];
      }
    }
  }

  lemma PercentEnd(lower: bool)
    ensures PercentOf([], lower) == []
  {}

  lemma PercentStep(value: seq<Byte>, i: nat, lower: bool)
    requires i < |value|
    ensures PercentOf(value[i..], lower) == PercentByte(value[i], lower) + PercentOf(value[i + 1..], lower)
  {
    hide PercentByte;
    assert value[i..][1..] == value[i + 1..];
  }

  /** `percent_encode` */
  method PercentEncode(value: seq<Byte>, lower: bool) returns (output: seq<Byte>)
    ensures ReadPercent(output, lower) == Some(value)
    ensures output == PercentOf(value, lower)
  {
    hide Digit, Unreserved, PercentOf;
    output := [];
    PercentEnd(lower);
    for i := 0 to |value|
      invariant PercentOf(value, lower) == output + PercentOf(value[i..], lower)
    {
      ghost var before := output;
      PercentStep(value, i, lower);
      if Unreserved(value[i]) {
        output := output + [value[i]];
      } else {
        output := output + [0x25];
        output := output + [Digit(value[i] / 16, !lower)];
        output := output + [Digit(value[i] % 16, !lower)];
      }
      assert output == before + PercentByte(value[i], lower);
    }
    assert value[|value|..] == [];
    PercentExactly(output, value, lower);
  }

  // ----- base64 -----

  const PAD: Byte := 0x3D

  /** The character for six bits, in the standard alphabet or the one for URLs. */
  function Sextet(n: nat, url: bool): Byte
    requires n < 64
  {
    if n < 26 then 0x41 + n
    else if n < 52 then 0x61 + n - 26
    else if n < 62 then 0x30 + n - 52
    else if n == 62 then (if url then 0x2D else 0x2B)
    else (if url then 0x5F else 0x2F)
  }

  function SextetValue(b: Byte, url: bool): (r: Option<nat>)
    ensures r.Some? ==> r.value < 64
  {
    var c := b as char;
    if 'A' <= c <= 'Z' then Some((c - 'A') as nat)
    else if 'a' <= c <= 'z' then Some((c - 'a') as nat + 26)
    else if '0' <= c <= '9' then Some((c - '0') as nat + 52)
    else if c == if url then '-' else '+' then Some(62)
    else if c == if url then '_' else '/' then Some(63)
    else None
  }

  lemma SextetExactly(b: Byte, n: nat, url: bool)
    requires n < 64
    ensures SextetValue(b, url) == Some(n) <==> b == Sextet(n, url)
  {}

  function Base64Of(value: seq<Byte>, url: bool, pad: bool): seq<Byte> {
    if value == [] then []
    else if |value| == 1 then [Sextet(value[0] / 4, url), Sextet(value[0] % 4 * 16, url)] + (if pad then [PAD, PAD] else [])
    else if |value| == 2 then
      [Sextet(value[0] / 4, url), Sextet(value[0] % 4 * 16 + value[1] / 16, url), Sextet(value[1] % 16 * 4, url)] + (if pad then [PAD] else [])
    else
      [Sextet(value[0] / 4, url), Sextet(value[0] % 4 * 16 + value[1] / 16, url),
       Sextet(value[1] % 16 * 4 + value[2] / 64, url), Sextet(value[2] % 64, url)]
      + Base64Of(value[3..], url, pad)
  }

  function First(a: nat, b: nat): Byte
    requires a < 64 && b < 64
  {
    4 * a + b / 16
  }

  function Second(b: nat, c: nat): Byte
    requires b < 64 && c < 64
  {
    16 * (b % 16) + c / 4
  }

  function Third(c: nat, d: nat): Byte
    requires c < 64 && d < 64
  {
    64 * (c % 4) + d
  }

  /** Two characters at the end, for one byte; the four bits left over are not set. */
  function ReadTwo(s: Byte, t: Byte, url: bool): Option<seq<Byte>> {
    match (SextetValue(s, url), SextetValue(t, url))
    case (Some(a), Some(b)) => if b % 16 == 0 then Some([First(a, b)]) else None
    case _ => None
  }

  /** Three characters at the end, for two bytes; the two bits left over are not set. */
  function ReadThree(s: Byte, t: Byte, u: Byte, url: bool): Option<seq<Byte>> {
    match (SextetValue(s, url), SextetValue(t, url), SextetValue(u, url))
    case (Some(a), Some(b), Some(c)) => if c % 4 == 0 then Some([First(a, b), Second(b, c)]) else None
    case _ => None
  }

  function ReadFour(s: Byte, t: Byte, u: Byte, v: Byte, url: bool): Option<seq<Byte>> {
    match (SextetValue(s, url), SextetValue(t, url), SextetValue(u, url), SextetValue(v, url))
    case (Some(a), Some(b), Some(c), Some(d)) => Some([First(a, b), Second(b, c), Third(c, d)])
    case _ => None
  }

  function ReadBase64(t: seq<Byte>, url: bool, pad: bool): Option<seq<Byte>> {
    if t == [] then Some([])
    else if pad && |t| == 4 && t[3] == PAD then
      if t[2] == PAD then ReadTwo(t[0], t[1], url) else ReadThree(t[0], t[1], t[2], url)
    else if !pad && |t| == 2 then ReadTwo(t[0], t[1], url)
    else if !pad && |t| == 3 then ReadThree(t[0], t[1], t[2], url)
    else if |t| < 4 then None
    else
      match ReadFour(t[0], t[1], t[2], t[3], url)
      case Some(bytes) => Before(bytes, ReadBase64(t[4..], url, pad))
      case None => None
  }

  /** Joining two pieces of bits and cutting the result apart undo each other. */
  lemma Join(high: nat, low: nat, n: nat)
    ensures low < 4 ==> (4 * high + low == n <==> high == n / 4 && low == n % 4)
    ensures low < 16 ==> (16 * high + low == n <==> high == n / 16 && low == n % 16)
    ensures low < 64 ==> (64 * high + low == n <==> high == n / 64 && low == n % 64)
  {}

  lemma TwoExactly(s: Byte, t: Byte, v: Byte, url: bool)
    ensures ReadTwo(s, t, url) == Some([v]) <==> s == Sextet(v / 4, url) && t == Sextet(v % 4 * 16, url)
  {
    hide Sextet, SextetValue;
    SextetExactly(s, v / 4, url);
    SextetExactly(t, v % 4 * 16, url);
  }

  lemma ThreeExactly(s: Byte, t: Byte, u: Byte, v: Byte, w: Byte, url: bool)
    ensures ReadThree(s, t, u, url) == Some([v, w])
       <==> s == Sextet(v / 4, url) && t == Sextet(v % 4 * 16 + w / 16, url) && u == Sextet(w % 16 * 4, url)
  {
    hide Sextet, SextetValue, First, Second, Third;
    SextetExactly(s, v / 4, url);
    SextetExactly(t, v % 4 * 16 + w / 16, url);
    SextetExactly(u, w % 16 * 4, url);
    match (SextetValue(s, url), SextetValue(t, url), SextetValue(u, url))
    case (Some(a), Some(b), Some(c)) => ThreePieces(a, b, c, v, w);
    case _ =>
  }

  lemma ThreePieces(a: nat, b: nat, c: nat, v: Byte, w: Byte)
    requires a < 64 && b < 64 && c < 64
    ensures c % 4 == 0 && First(a, b) == v && Second(b, c) == w
       <==> a == v / 4 && b == v % 4 * 16 + w / 16 && c == w % 16 * 4
  {
    Join(a, b / 16, v);
    Join(b % 16, c / 4, w);
    Join(v % 4, w / 16, b);
    Join(w % 16, 0, c);
  }

  lemma FourExactly(s: Byte, t: Byte, u: Byte, y: Byte, v: Byte, w: Byte, x: Byte, url: bool)
    ensures ReadFour(s, t, u, y, url) == Some([v, w, x])
       <==> && s == Sextet(v / 4, url) && t == Sextet(v % 4 * 16 + w / 16, url)
            && u == Sextet(w % 16 * 4 + x / 64, url) && y == Sextet(x % 64, url)
  {
    hide Sextet, SextetValue, First, Second, Third;
    SextetExactly(s, v / 4, url);
    SextetExactly(t, v % 4 * 16 + w / 16, url);
    SextetExactly(u, w % 16 * 4 + x / 64, url);
    SextetExactly(y, x % 64, url);
    match (SextetValue(s, url), SextetValue(t, url), SextetValue(u, url), SextetValue(y, url))
    case (Some(a), Some(b), Some(c), Some(d)) => FourPieces(a, b, c, d, v, w, x);
    case _ =>
  }

  lemma FourPieces(a: nat, b: nat, c: nat, d: nat, v: Byte, w: Byte, x: Byte)
    requires a < 64 && b < 64 && c < 64 && d < 64
    ensures First(a, b) == v && Second(b, c) == w && Third(c, d) == x
       <==> a == v / 4 && b == v % 4 * 16 + w / 16 && c == w % 16 * 4 + x / 64 && d == x % 64
  {
    Join(a, b / 16, v);
    Join(b % 16, c / 4, w);
    Join(c % 4, d, x);
    Join(v % 4, w / 16, b);
    Join(w % 16, x / 64, c);
  }

  lemma PadIsNoSextet(url: bool)
    ensures SextetValue(PAD, url).None?
    ensures forall n: nat | n < 64 :: Sextet(n, url) != PAD
  {}

  lemma OneByteExactly(t: seq<Byte>, v: Byte, url: bool, pad: bool)
    ensures ReadBase64(t, url, pad) == Some([v]) <==> t == Base64Of([v], url, pad)
  {
    hide Sextet, SextetValue, ReadTwo, ReadThree, ReadFour;
    PadIsNoSextet(url);
    ReadLengths(t, url);
    if |t| >= 2 { TwoExactly(t[0], t[1], v, url); }
  }

  lemma TwoBytesExactly(t: seq<Byte>, v: Byte, w: Byte, url: bool, pad: bool)
    ensures ReadBase64(t, url, pad) == Some([v, w]) <==> t == Base64Of([v, w], url, pad)
  {
    hide Sextet, SextetValue, ReadTwo, ReadThree, ReadFour;
    PadIsNoSextet(url);
    ReadLengths(t, url);
    if |t| >= 3 { ThreeExactly(t[0], t[1], t[2], v, w, url); }
  }

  lemma ReadLengths(t: seq<Byte>, url: bool)
    ensures |t| >= 2 && ReadTwo(t[0], t[1], url).Some? ==> |ReadTwo(t[0], t[1], url).value| == 1
    ensures |t| >= 3 && ReadThree(t[0], t[1], t[2], url).Some? ==> |ReadThree(t[0], t[1], t[2], url).value| == 2
    ensures |t| >= 4 && ReadFour(t[0], t[1], t[2], t[3], url).Some? ==> |ReadFour(t[0], t[1], t[2], t[3], url).value| == 3
    ensures |t| >= 4 && ReadFour(t[0], t[1], t[2], t[3], url).Some? ==> t[3] != PAD
  {
    hide SextetValue;
    PadIsNoSextet(url);
  }

  lemma {:induction false} Base64Exactly(t: seq<Byte>, value: seq<Byte>, url: bool, pad: bool)
    ensures ReadBase64(t, url, pad) == Some(value) <==> t == Base64Of(value, url, pad)
    decreases |t| + |value|
  {
    hide Sextet, SextetValue, ReadTwo, ReadThree, ReadFour;
    ReadLengths(t, url);
    PadIsNoSextet(url);
    if |value| == 1 {
      assert value == [value[0]];
      OneByteExactly(t, value[0], url, pad);
    } else if |value| == 2 {
      assert value == [value[0], value[1]];
      TwoBytesExactly(t, value[0], value[1], url, pad);
    } else if |value| >= 3 && |t| >= 4 {
      var (v, w, x) := (value[0], value[1], value[2]);
      FourExactly(t[0], t[1], t[2], t[3], v, w, x, url);
      Base64Exactly(t[4..], value[3..], url, pad);
      assert value == [v, w, x] + value[3..] && t == [t[0], t[1], t[2], t[3]] + t[4..];
    }
  }

  // ----- JSON -----

  /** The escape of serde_json for one byte of a string. */
  function JsonByte(b: Byte): seq<Byte> {
    if b == 0x22 || b == 0x5C then [0x5C, b]
    else if b == 0x08 then [0x5C, 0x62]
    else if b == 0x09 then [0x5C, 0x74]
    else if b == 0x0A then [0x5C, 0x6E]
    else if b == 0x0C then [0x5C, 0x66]
    else if b == 0x0D then [0x5C, 0x72]
    else if b < 0x20 then [0x5C, 0x75, 0x30, 0x30, Digit(b / 16, false), Digit(b % 16, false)]
    else [b]
  }

  /** The text between the quotes. */
  function JsonOf(value: seq<Byte>): seq<Byte> {
    if value == [] then [] else JsonByte(value[0]) + JsonOf(value[1..])
  }

  /** The byte that a character after a backslash stands for. */
  function Unescaped(c: char): Option<Byte> {
    match c
    case '\"' => Some('\"' as int)
    case '\\' => Some('\\' as int)
    case 'b' => Some(8)
    case 't' => Some(9)
    case 'n' => Some(10)
    case 'f' => Some(12)
    case 'r' => Some(13)
    case _ => None
  }

  /** A control byte written as a number, when there is no shorter escape for it. */
  function ReadControl(high: Byte, low: Byte): Option<Byte> {
    match ReadPair(high, low, false)
    case Some(b) => if b < 0x20 && b != 8 && b != 9 && b != 10 && b != 12 && b != 13 then Some(b) else None
    case None => None
  }

  function ReadJson(t: seq<Byte>): Option<seq<Byte>> {
    if t == [] then Some([])
    else if t[0] as char != '\\' then
      if t[0] < 0x20 || t[0] as char == '\"' then None else Before([t[0]], ReadJson(t[1..]))
    else if |t| >= 6 && t[1] as char == 'u' then
      if t[2] as char == '0' && t[3] as char == '0' then
        match ReadControl(t[4], t[5])
        case Some(b) => Before([b], ReadJson(t[6..]))
        case None => None
      else None
    else if |t| >= 2 then
      match Unescaped(t[1] as char)
      case Some(b) => Before([b], ReadJson(t[2..]))
      case None => None
    else None
  }

  /** A byte that is written as itself. */
  lemma JsonPlain(t: seq<Byte>, b: Byte)
    requires t != [] && t[0] != 0x5C
    ensures t[0] >= 0x20 && t[0] != 0x22 && t[0] == b <==> JsonByte(b) == t[..1]
    ensures JsonByte(b) <= t ==> |JsonByte(b)| == 1
  {
    hide Digit;
  }

  lemma JsonShort(t: seq<Byte>, b: Byte)
    requires |t| >= 2 && t[0] == 0x5C && t[1] != 0x75
    ensures Unescaped(t[1] as char) == Some(b) <==> JsonByte(b) == t[..2]
    ensures JsonByte(b) <= t ==> |JsonByte(b)| == 2
  {
    hide Digit;
  }

  lemma JsonControl(t: seq<Byte>, b: Byte)
    requires |t| >= 6 && t[0] == 0x5C && t[1] == 0x75
    ensures t[2] == t[3] == 0x30 && ReadControl(t[4], t[5]) == Some(b) <==> JsonByte(b) == t[..6]
    ensures JsonByte(b) <= t ==> |JsonByte(b)| == 6
  {
    hide Digit, ReadPair;
    PairExactly(t[4], t[5], b, false);
  }

  /** Nothing shorter than six bytes starts a numbered escape. */
  lemma JsonTooShort(t: seq<Byte>, b: Byte)
    requires t != [] && t[0] == 0x5C && (|t| < 2 || (|t| < 6 && t[1] == 0x75))
    ensures !(JsonByte(b) <= t)
  {
    hide Digit;
  }

  lemma JsonStarts(value: seq<Byte>)
    requires value != []
    ensures JsonByte(value[0]) <= JsonOf(value)
  {
    hide JsonByte;
  }

  lemma JsonStep(t: seq<Byte>, value: seq<Byte>, n: nat)
    requires value != [] && n <= |t| && (JsonByte(value[0]) <= t ==> |JsonByte(value[0])| == n)
    ensures t == JsonOf(value) <==> JsonByte(value[0]) == t[..n] && t[n..] == JsonOf(value[1..])
  {
    hide JsonByte;
    assert t == t[..n] + t[n..];
    JsonStarts(value);
  }

  lemma BeforeExactly(b: Byte, rest: Option<seq<Byte>>, value: seq<Byte>)
    requires value != []
    ensures Before([b], rest) == Some(value) <==> b == value[0] && rest == Some(value[1..])
  {
    assert value == [value[0]] + value[1..];
    if rest.Some? { assert ([b] + rest.value)[1..] == rest.value; }
  }

  lemma {:induction false} JsonExactly(t: seq<Byte>, value: seq<Byte>)
    ensures ReadJson(t) == Some(value) <==> t == JsonOf(value)
    decreases |t| + |value|
  {
    hide JsonByte, ReadControl, Unescaped, Before;
    if t == [] || value == [] {
      JsonEnds(t, value);
      return;
    }
    var b := value[0];
    if t[0] != 0x5C {
      JsonPlain(t, b);
      JsonStep(t, value, 1);
      BeforeExactly(t[0], ReadJson(t[1..]), value);
      JsonExactly(t[1..], value[1..]);
    } else if |t| < 2 || (|t| < 6 && t[1] == 0x75) {
      JsonTooShort(t, b);
      JsonStarts(value);
      UnescapedNot();
    } else if t[1] == 0x75 {
      JsonControl(t, b);
      JsonStep(t, value, 6);
      if ReadControl(t[4], t[5]).Some? { BeforeExactly(ReadControl(t[4], t[5]).value, ReadJson(t[6..]), value); }
      JsonExactly(t[6..], value[1..]);
    } else {
      JsonShort(t, b);
      JsonStep(t, value, 2);
      if Unescaped(t[1] as char).Some? { BeforeExactly(Unescaped(t[1] as char).value, ReadJson(t[2..]), value); }
      JsonExactly(t[2..], value[1..]);
    }
  }

  lemma UnescapedNot()
    ensures Unescaped('u') == None
  {}

  lemma JsonEnds(t: seq<Byte>, value: seq<Byte>)
    requires t == [] || value == []
    ensures ReadJson(t) == Some(value) <==> t == JsonOf(value)
  {
    hide ReadControl, Unescaped, Digit;
  }

  // ----- every form of a secret -----

  /** `t` spells `value`: as it is, or in one of the encodings; the last two only for text. */
  predicate SpellsOut(t: seq<Byte>, value: seq<Byte>) {
    || t == value
    || (exists upper :: ReadHex(t, upper) == Some(value))
    || (exists url, pad :: ReadBase64(t, url, pad) == Some(value))
    || (WellFormed(value) && (ReadJson(t) == Some(value) || exists lower :: ReadPercent(t, lower) == Some(value)))
  }

  /** The needles made for one secret, in the order in which they are added. */
  function Forms(value: seq<Byte>): seq<seq<Byte>> {
    [value, HexOf(value, false), HexOf(value, true),
     Base64Of(value, false, true), Base64Of(value, false, false), Base64Of(value, true, true), Base64Of(value, true, false)]
    + (if WellFormed(value) then [JsonOf(value), PercentOf(value, false), PercentOf(value, true)] else [])
  }

  /** The needles of a secret are exactly the texts that spell it out. */
  lemma FormsExactly(t: seq<Byte>, value: seq<Byte>)
    ensures t in Forms(value) <==> SpellsOut(t, value)
  {
    hide HexOf, Base64Of, JsonOf, PercentOf, ReadHex, ReadBase64, ReadJson, ReadPercent, WellFormed;
    forall upper ensures ReadHex(t, upper) == Some(value) <==> t == HexOf(value, upper) { HexExactly(t, value, upper); }
    forall url, pad ensures ReadBase64(t, url, pad) == Some(value) <==> t == Base64Of(value, url, pad) { Base64Exactly(t, value, url, pad); }
    forall lower ensures ReadPercent(t, lower) == Some(value) <==> t == PercentOf(value, lower) { PercentExactly(t, value, lower); }
    JsonExactly(t, value);
  }
}
