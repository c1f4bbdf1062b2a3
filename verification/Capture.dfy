/**
 The bounded head/tail capture buffer of redact.rs.

 The class below is the streaming form; `Captured` is what it must return for the whole text.
*/
module Capture {
  import opened Bytes
  import opened Utf8

  /** Length of the head: leading characters are kept while they fit, up to the first that does not. */
  function HeadLen(text: seq<Byte>, cap: nat): (n: nat)
    ensures n <= |text| && n <= cap
  {
    hide CharLen;
    if CharLen(text) == 0 || CharLen(text) > cap then 0
    else CharLen(text) + HeadLen(text[CharLen(text)..], cap - CharLen(text))
  }

  lemma HeadLenStep(text: seq<Byte>, cap: nat)
    requires 0 < CharLen(text) <= cap
    ensures HeadLen(text, cap) == CharLen(text) + HeadLen(text[CharLen(text)..], cap - CharLen(text))
  {
    hide CharLen;
  }

  lemma Rejoined(text: seq<Byte>, w: nat, n: nat)
    requires w + n <= |text|
    ensures text[..w + n] == text[..w] + text[w..][..n] && text[w + n..] == text[w..][n..]
  {}

  lemma {:induction false} HeadIsWhole(text: seq<Byte>, cap: nat)
    requires WellFormed(text)
    ensures WellFormed(text[..HeadLen(text, cap)]) && WellFormed(text[HeadLen(text, cap)..])
    decreases |text|
  {
    hide CharLen, WellFormed, IsChar;
    if text != [] && CharLen(text) <= cap {
      var w := CharLen(text);
      Peel(text);
      HeadLenStep(text, cap);
      var n := HeadLen(text[w..], cap - w);
      HeadIsWhole(text[w..], cap - w);
      CharIsWellFormed(text[..w]);
      hide HeadLen;
      WellFormedConcat(text[..w], text[w..][..n]);
      Rejoined(text, w, n);
    } else {
      NoHead(text, cap);
    }
  }

  lemma NoHead(text: seq<Byte>, cap: nat)
    requires WellFormed(text) && (text == [] || CharLen(text) > cap)
    ensures WellFormed(text[..HeadLen(text, cap)]) && WellFormed(text[HeadLen(text, cap)..])
  {
    hide CharLen;
    assert HeadLen(text, cap) == 0 && text[..0] == [] && text[0..] == text;
  }

  /** The longest suffix of whole characters that fits in `cap` bytes. */
  function Trim(text: seq<Byte>, cap: nat): (r: seq<Byte>)
    requires WellFormed(text)
    ensures |r| <= cap && |r| <= |text| && WellFormed(r) && r == text[|text| - |r|..]
    decreases |text|
  {
    hide CharLen, WellFormed, IsChar;
    if |text| <= cap then text
    else
      Peel(text);
      Trim(text[CharLen(text)..], cap)
  }

  lemma TrimStart(text: seq<Byte>, cap: nat)
    requires WellFormed(text)
    ensures |text| <= cap ==> Trim(text, cap) == text
  {}

  lemma {:induction false} HeadLenAppend(text: seq<Byte>, c: seq<Byte>, cap: nat)
    requires WellFormed(text) && IsChar(c)
    ensures HeadLen(text + c, cap) ==
            if HeadLen(text, cap) == |text| && |text| + |c| <= cap then |text| + |c| else HeadLen(text, cap)
    decreases |text|
  {
    hide CharLen, WellFormed;
    if text == [] {
      assert text + c == c;
      assert c[|c|..] == [];
    } else {
      var w := CharLen(text);
      Peel(text);
      CharLenStable(text, c);
      assert (text + c)[w..] == text[w..] + c;
      if w <= cap {
        HeadLenAppend(text[w..], c, cap - w);
      }
    }
  }

  /** Trimming as text arrives keeps exactly what trimming at the end would. */
  lemma {:induction false} TrimAppend(text: seq<Byte>, c: seq<Byte>, cap: nat)
    requires WellFormed(text) && IsChar(c)
    requires WellFormed(text + c)
    ensures WellFormed(Trim(text, cap) + c)
    ensures Trim(text + c, cap) == Trim(Trim(text, cap) + c, cap)
    decreases |text|
  {
    hide CharLen;
    if |text| > cap {
      var w := CharLen(text);
      CharLenStable(text, c);
      assert (text + c)[w..] == text[w..] + c;
      TrimAppend(text[w..], c, cap);
    }
  }

  // ----- the omission marker -----

  function Decimal(n: nat): (r: seq<Byte>)
    ensures forall i :: 0 <= i < |r| ==> r[i] <= 0x7F
    ensures |r| > 0
  {
    if n < 10 then [0x30 + n] else Decimal(n / 10) + [0x30 + n % 10]
  }

  /** The number that decimal digits stand for. */
  function ReadDecimal(t: seq<Byte>): Option<nat> {
    if t == [] then Some(0)
    else if '0' <= t[|t| - 1] as char <= '9' then
      match ReadDecimal(t[..|t| - 1])
      case Some(n) => Some(10 * n + (t[|t| - 1] as char - '0') as nat)
      case None => None
    else None
  }

  /** The digits read back as the number, and there is no leading zero. */
  lemma {:induction false} DecimalReads(n: nat)
    ensures ReadDecimal(Decimal(n)) == Some(n)
    ensures Decimal(n)[0] as char == '0' ==> n == 0
  {
    if n < 10 {
      assert Decimal(n)[..0] == [];
    } else {
      DecimalReads(n / 10);
      var front := Decimal(n / 10);
      assert Decimal(n)[..|Decimal(n)| - 1] == front;
    }
  }

  function Pow10(k: nat): nat { if k == 0 then 1 else 10 * Pow10(k - 1) }

  lemma {:induction false} DecimalLength(n: nat, k: nat)
    requires k > 0 && n < Pow10(k)
    ensures |Decimal(n)| <= k
  {
    if n >= 10 {
      DecimalLength(n / 10, k - 1);
    }
  }

  lemma {:induction false} DecimalMonotone(m: nat, n: nat)
    requires m <= n
    ensures |Decimal(m)| <= |Decimal(n)|
  {
    if m >= 10 {
      DecimalMonotone(m / 10, n / 10);
    }
  }

  const MARKER_PREFIX: seq<Byte> := [0x0A, 0x2E, 0x2E, 0x2E, 0x5B]
  const MARKER_SUFFIX: seq<Byte> :=
    [0x20, 0x62, 0x79, 0x74, 0x65, 0x73, 0x20, 0x6F, 0x6D, 0x69, 0x74, 0x74, 0x65, 0x64, 0x5D, 0x2E, 0x2E, 0x2E, 0x0A]

  /** "\n...[N bytes omitted]...\n" */
  function Marker(omitted: nat): (r: seq<Byte>)
    ensures forall i :: 0 <= i < |r| ==> r[i] <= 0x7F
    ensures |r| == 24 + |Decimal(omitted)|
  {
    MARKER_PREFIX + Decimal(omitted) + MARKER_SUFFIX
  }

  /** The marker says in words how many bytes are missing. */
  lemma MarkerReads(omitted: nat)
    ensures var m := Marker(omitted);
            && Spell(m[..5], "\n...[") && Spell(m[|m| - 19..], " bytes omitted]...\n")
            && ReadDecimal(m[5..|m| - 19]) == Some(omitted)
  {
    hide ReadDecimal, Decimal;
    DecimalReads(omitted);
    var m := Marker(omitted);
    assert m[..5] == MARKER_PREFIX && m[5..|m| - 19] == Decimal(omitted) && m[|m| - 19..] == MARKER_SUFFIX;
  }

  lemma MarkerIsShort(omitted: nat)
    requires omitted <= U64_MAX
    ensures |Marker(omitted)| <= 44
  {
    assert Pow10(5) == 100000;
    assert Pow10(10) == 100000 * Pow10(5);
    assert Pow10(15) == 100000 * Pow10(10);
    assert Pow10(20) == 100000 * Pow10(15);
    DecimalLength(omitted, 20);
  }

  // ----- what finish returns -----

  datatype Captured = Captured(text: seq<Byte>, truncated: bool, omitted: nat)

  const MIN_OUTPUT_LIMIT_BYTES: nat := 128
  const MAX_OUTPUT_LIMIT_BYTES: nat := 2 * 1024 * 1024

  function Omitted(total: nat, kept: nat): nat {
    if total >= kept then total - kept else 0
  }

  /** Length of what `finish` returns when the tail is `n` bytes long. */
  function CutLength(headLen: nat, n: nat, total: nat): nat {
    headLen + |Marker(Omitted(total, headLen + n))| + n
  }

  lemma EmptyTailFits(headLen: nat, total: nat, limit: nat)
    requires total <= U64_MAX && headLen + 44 <= limit
    ensures CutLength(headLen, 0, total) <= limit
  {
    MarkerIsShort(Omitted(total, headLen));
  }

  /** The first tail, dropping characters from its front, that leaves room for the marker. */
  function FitTail(headLen: nat, tail: seq<Byte>, total: nat, limit: nat): (r: seq<Byte>)
    requires WellFormed(tail) && total <= U64_MAX && headLen + 44 <= limit
    ensures WellFormed(r) && |r| <= |tail| && r == tail[|tail| - |r|..]
    ensures CutLength(headLen, |r|, total) <= limit
    decreases |tail|
  {
    hide CutLength, CharLen;
    if CutLength(headLen, |tail|, total) <= limit then tail
    else
      EmptyTailFits(headLen, total, limit);
      FitTail(headLen, tail[CharLen(tail)..], total, limit)
  }

  /** The tail kept for `text`: the longest suffix of what follows the head that fits. */
  function TailOf(text: seq<Byte>, limit: nat): (r: seq<Byte>)
    requires WellFormed(text)
    ensures WellFormed(r) && |r| <= |text| - HeadLen(text, limit / 2) && r == text[|text| - |r|..]
    ensures |text| - HeadLen(text, limit / 2) <= limit - limit / 2 <==> |r| == |text| - HeadLen(text, limit / 2)
  {
    hide CharLen, HeadLen, WellFormed;
    HeadIsWhole(text, limit / 2);
    var rest := text[HeadLen(text, limit / 2)..];
    TrimStart(rest, limit - limit / 2);
    Trim(rest, limit - limit / 2)
  }

  predicate IsWhole(text: seq<Byte>, limit: nat)
    requires WellFormed(text)
  {
    && Saturate(|text|) <= limit
    && HeadLen(text, limit / 2) + |TailOf(text, limit)| == Saturate(|text|)
  }

  /** The specification of capturing `text` under `limit`. */
  function CaptureText(text: seq<Byte>, limit: nat): (r: Captured)
    requires WellFormed(text) && limit >= MIN_OUTPUT_LIMIT_BYTES
  {
    var h := HeadLen(text, limit / 2);
    if IsWhole(text, limit) then Captured(text[..h] + TailOf(text, limit), false, 0)
    else
      var t := FitTail(h, TailOf(text, limit), Saturate(|text|), limit);
      var omitted := Omitted(Saturate(|text|), h + |t|);
      Captured(text[..h] + Marker(omitted) + t, true, omitted)
  }

  // ----- what the specification promises -----

  lemma {:induction false} HeadIsNearlyFull(text: seq<Byte>, cap: nat)
    requires WellFormed(text)
    ensures HeadLen(text, cap) == |text| || HeadLen(text, cap) + 3 >= cap
    decreases |text|
  {
    hide CharLen;
    if text != [] && CharLen(text) <= cap {
      HeadIsNearlyFull(text[CharLen(text)..], cap - CharLen(text));
    }
  }

  /** A text comes back whole exactly when what follows its head fits the tail; in particular
      every text of at most `limit - 3` bytes does. */
  lemma WholeTextExactly(text: seq<Byte>, limit: nat)
    requires WellFormed(text) && MIN_OUTPUT_LIMIT_BYTES <= limit <= MAX_OUTPUT_LIMIT_BYTES
    ensures IsWhole(text, limit) <==> |text| - HeadLen(text, limit / 2) <= limit - limit / 2
    ensures |text| <= limit - 3 ==> IsWhole(text, limit)
  {
    hide CharLen, HeadLen, TailOf, WellFormed;
    HeadIsNearlyFull(text, limit / 2);
  }

  lemma WholeTextIsReturned(text: seq<Byte>, limit: nat)
    requires WellFormed(text) && MIN_OUTPUT_LIMIT_BYTES <= limit <= MAX_OUTPUT_LIMIT_BYTES
    ensures CaptureText(text, limit).truncated <==> !IsWhole(text, limit)
    ensures IsWhole(text, limit) ==> CaptureText(text, limit) == Captured(text, false, 0)
  {
    hide CharLen, HeadLen, TailOf, WellFormed, FitTail, Marker, Omitted;
    if IsWhole(text, limit) { TwoHalves(text, HeadLen(text, limit / 2), TailOf(text, limit)); }
  }

  lemma TwoHalves(text: seq<Byte>, h: nat, t: seq<Byte>)
    requires h + |t| == |text| && t == text[|text| - |t|..]
    ensures text[..h] + t == text
  {}

  /** A cut text is head + marker + tail, both cut between characters, and the marker's count is
      exactly what is missing. */
  ghost predicate IsCut(text: seq<Byte>, h: nat, j: nat, r: Captured) {
    && h <= j <= |text|
    && WellFormed(text[..h]) && WellFormed(text[j..])
    && r.text == text[..h] + Marker(r.omitted) + text[j..]
    && h + r.omitted + (|text| - j) == Saturate(|text|)
  }

  lemma CutShape(text: seq<Byte>, limit: nat) returns (j: nat)
    requires WellFormed(text) && MIN_OUTPUT_LIMIT_BYTES <= limit <= MAX_OUTPUT_LIMIT_BYTES
    requires CaptureText(text, limit).truncated
    ensures IsCut(text, HeadLen(text, limit / 2), j, CaptureText(text, limit))
    ensures j == |text| - |FitTail(HeadLen(text, limit / 2), TailOf(text, limit), Saturate(|text|), limit)|
  {
    hide CharLen, Marker, HeadLen, TailOf, FitTail, WellFormed;
    var h := HeadLen(text, limit / 2);
    HeadIsWhole(text, limit / 2);
    WholeTextExactly(text, limit);
    var tail := TailOf(text, limit);
    var t := FitTail(h, tail, Saturate(|text|), limit);
    j := |text| - |t|;
    SuffixOfSuffix(text, tail, t);
  }

  lemma SuffixOfSuffix(text: seq<Byte>, tail: seq<Byte>, t: seq<Byte>)
    requires |t| <= |tail| <= |text| && tail == text[|text| - |tail|..] && t == tail[|tail| - |t|..]
    ensures t == text[|text| - |t|..]
  {}

  /** Whatever the text, the result is well formed and fits the limit. */
  lemma CaptureFits(text: seq<Byte>, limit: nat)
    requires WellFormed(text) && MIN_OUTPUT_LIMIT_BYTES <= limit <= MAX_OUTPUT_LIMIT_BYTES
    ensures |CaptureText(text, limit).text| <= limit && WellFormed(CaptureText(text, limit).text)
  {
    hide CharLen, Marker, HeadLen, TailOf, FitTail, WellFormed;
    WholeTextExactly(text, limit);
    WholeTextIsReturned(text, limit);
    if !IsWhole(text, limit) {
      var r := CaptureText(text, limit);
      var h := HeadLen(text, limit / 2);
      var j := CutShape(text, limit);
      AsciiIsWellFormed(Marker(r.omitted));
      WellFormedConcat(text[..h], Marker(r.omitted));
      WellFormedConcat(text[..h] + Marker(r.omitted), text[j..]);
    }
  }

  /** The streaming tail is the longest one: no earlier character boundary fits. */
  lemma {:induction false} TrimIsLongest(text: seq<Byte>, cap: nat, i: nat)
    requires WellFormed(text) && i <= |text| && WellFormed(text[..i])
    requires |text| - i <= cap
    ensures |text| - i <= |Trim(text, cap)|
    decreases |text|
  {
    hide CharLen;
    if |text| > cap {
      BoundaryPeel(text, i);
      TrimIsLongest(text[CharLen(text)..], cap, i - CharLen(text));
    }
  }

  /** Making room for the marker drops no more of the tail than it must. */
  lemma {:induction false} FitTailIsLongest(h: nat, tail: seq<Byte>, total: nat, limit: nat, i: nat)
    requires WellFormed(tail) && total <= U64_MAX && h + 44 <= limit
    requires i <= |tail| && WellFormed(tail[..i]) && CutLength(h, |tail| - i, total) <= limit
    ensures |tail| - i <= |FitTail(h, tail, total, limit)|
    decreases |tail|
  {
    hide CharLen, CutLength;
    EmptyTailFits(h, total, limit);
    if CutLength(h, |tail|, total) > limit {
      BoundaryPeel(tail, i);
      FitTailIsLongest(h, tail[CharLen(tail)..], total, limit, i - CharLen(tail));
    }
  }

  // ----- the result, said without the way it is computed -----

  /** A tail from here fits its half, and leaves room for the marker. */
  predicate TailFits(text: seq<Byte>, limit: nat, h: nat, j: nat) {
    && h <= j <= |text| && Boundary(text, j)
    && |text| - j <= limit - limit / 2 && CutLength(h, |text| - j, Saturate(|text|)) <= limit
  }

  /** The longest head in the first half and the longest tail that fits, with the marker between them. */
  ghost predicate CutAt(text: seq<Byte>, limit: nat, h: nat, j: nat, r: Captured) {
    && TailFits(text, limit, h, j)
    && (forall i :: h <= i < j ==> !TailFits(text, limit, h, i))
    && h + r.omitted + (|text| - j) == Saturate(|text|)
    && r == Captured(text[..h] + Marker(r.omitted) + text[j..], true, r.omitted)
  }

  /** The whole text when what follows its longest head fits the second half; otherwise it is cut. */
  ghost predicate Shows(text: seq<Byte>, limit: nat, r: Captured) {
    exists h :: LastBoundary(text, limit / 2, h) &&
      if |text| - h <= limit - limit / 2 then r == Captured(text, false, 0)
      else exists j :: CutAt(text, limit, h, j, r)
  }

  lemma {:induction false} HeadIsLast(text: seq<Byte>, cap: nat)
    requires WellFormed(text)
    ensures LastBoundary(text, cap, HeadLen(text, cap))
    decreases |text|
  {
    hide CharLen, WellFormed, IsChar, Tail;
    HeadIsWhole(text, cap);
    CutIsBoundary(text, HeadLen(text, cap));
    forall i | HeadLen(text, cap) < i <= |text| && i <= cap ensures !Boundary(text, i) {
      if Boundary(text, i) {
        BoundaryCutsBetweenChars(text, i);
        HeadReaches(text, cap, i);
      }
    }
  }

  lemma {:induction false} HeadReaches(text: seq<Byte>, cap: nat, i: nat)
    requires WellFormed(text) && i <= |text| && i <= cap && WellFormed(text[..i])
    ensures i <= HeadLen(text, cap)
    decreases |text|
  {
    hide CharLen;
    if i > 0 {
      BoundaryPeel(text, i);
      HeadReaches(text[CharLen(text)..], cap - CharLen(text), i - CharLen(text));
    }
  }

  /** Every tail that fits starts no earlier than the one that is kept. */
  lemma KeptTailIsLongest(text: seq<Byte>, limit: nat, i: nat)
    requires WellFormed(text) && MIN_OUTPUT_LIMIT_BYTES <= limit && TailFits(text, limit, HeadLen(text, limit / 2), i)
    ensures |text| - i <= |FitTail(HeadLen(text, limit / 2), TailOf(text, limit), Saturate(|text|), limit)|
  {
    hide CharLen, WellFormed, HeadLen, TailOf, FitTail, Tail, Boundary, CutLength;
    var h, tail := HeadLen(text, limit / 2), TailOf(text, limit);
    TailReaches(text, limit, i);
    BoundaryOfSuffix(text, |text| - |tail|, i);
    BoundaryCutsBetweenChars(tail, i - (|text| - |tail|));
    FitTailIsLongest(h, tail, Saturate(|text|), limit, i - (|text| - |tail|));
  }

  lemma TailReaches(text: seq<Byte>, limit: nat, i: nat)
    requires WellFormed(text) && HeadLen(text, limit / 2) <= i <= |text| && Boundary(text, i) && |text| - i <= limit - limit / 2
    ensures |text| - i <= |TailOf(text, limit)|
  {
    hide CharLen, WellFormed, HeadLen, Trim, Tail, Boundary;
    var h := HeadLen(text, limit / 2);
    HeadIsWhole(text, limit / 2);
    BoundaryOfSuffix(text, h, i);
    BoundaryCutsBetweenChars(text[h..], i - h);
    TrimIsLongest(text[h..], limit - limit / 2, i - h);
  }

  lemma BoundaryOfSuffix(text: seq<Byte>, h: nat, i: nat)
    requires h <= i <= |text| && Boundary(text, i)
    ensures Boundary(text[h..], i - h)
  {}

  /** What is captured is what `Shows` says. */
  lemma CaptureShows(text: seq<Byte>, limit: nat)
    requires WellFormed(text) && MIN_OUTPUT_LIMIT_BYTES <= limit <= MAX_OUTPUT_LIMIT_BYTES
    ensures Shows(text, limit, CaptureText(text, limit))
  {
    hide WellFormed, HeadLen, LastBoundary, CaptureText, IsWhole, CutAt;
    HeadIsLast(text, limit / 2);
    WholeTextExactly(text, limit);
    WholeTextIsReturned(text, limit);
    if !IsWhole(text, limit) { CutIsCutAt(text, limit); }
  }

  lemma CutIsCutAt(text: seq<Byte>, limit: nat)
    requires WellFormed(text) && MIN_OUTPUT_LIMIT_BYTES <= limit <= MAX_OUTPUT_LIMIT_BYTES && CaptureText(text, limit).truncated
    ensures exists j :: CutAt(text, limit, HeadLen(text, limit / 2), j, CaptureText(text, limit))
  {
    hide WellFormed, HeadLen, TailOf, FitTail, TailFits, Marker, CaptureText;
    var h := HeadLen(text, limit / 2);
    var j := CutShape(text, limit);
    KeptTailFits(text, limit);
    forall i | h <= i < j ensures !TailFits(text, limit, h, i) {
      if TailFits(text, limit, h, i) { KeptTailIsLongest(text, limit, i); }
    }
    CutIsReported(text, limit);
    assert CutAt(text, limit, h, j, CaptureText(text, limit));
  }

  lemma CutIsReported(text: seq<Byte>, limit: nat)
    requires WellFormed(text) && MIN_OUTPUT_LIMIT_BYTES <= limit && CaptureText(text, limit).truncated
    ensures var r := CaptureText(text, limit); r == Captured(r.text, true, r.omitted)
  {
    hide WellFormed, HeadLen, TailOf, FitTail, Marker, IsWhole;
  }

  lemma KeptTailFits(text: seq<Byte>, limit: nat)
    requires WellFormed(text) && MIN_OUTPUT_LIMIT_BYTES <= limit <= MAX_OUTPUT_LIMIT_BYTES
    ensures var h := HeadLen(text, limit / 2);
            var t := FitTail(h, TailOf(text, limit), Saturate(|text|), limit);
            |t| <= |text| - h && TailFits(text, limit, h, |text| - |t|)
  {
    hide CharLen, WellFormed, HeadLen, TailOf, FitTail, Tail, CutLength;
    var h, tail := HeadLen(text, limit / 2), TailOf(text, limit);
    var t := FitTail(h, tail, Saturate(|text|), limit);
    SuffixOfSuffix(text, tail, t);
    TailOfFits(text, limit);
    if t != [] { SuffixIsBoundary(t, text, |text| - |t|); }
  }

  lemma TailOfFits(text: seq<Byte>, limit: nat)
    requires WellFormed(text)
    ensures |TailOf(text, limit)| <= limit - limit / 2
  {
    hide CharLen, WellFormed, HeadLen, Trim;
    HeadIsWhole(text, limit / 2);
  }

  lemma SuffixIsBoundary(t: seq<Byte>, text: seq<Byte>, j: nat)
    requires WellFormed(t) && t != [] && j < |text| && t == text[j..]
    ensures Boundary(text, j)
  {
    hide CharLen, Tail;
    CharStarts(t);
  }

  /** `Shows` leaves no choice. */
  lemma ShowsOne(text: seq<Byte>, limit: nat, r: Captured, q: Captured)
    requires Shows(text, limit, r) && Shows(text, limit, q)
    ensures r == q
  {
    hide Marker, CutLength, Boundary;
  }

  // ----- the streaming buffer -----

  /** `pop_front_character`: the width is read off the first byte alone. */
  function PopWidth(first: Byte): nat {
    if first <= 0x7F then 1
    else if 0xC0 <= first <= 0xDF then 2
    else if 0xE0 <= first <= 0xEF then 3
    else 4
  }

  lemma PopWidthIsCharLen(s: seq<Byte>)
    requires CharLen(s) > 0
    ensures PopWidth(s[0]) == CharLen(s)
  {}

  /** The buffer's fields are those of the specification for the text pushed so far. */
  ghost predicate Mirrors(limit: nat, text: seq<Byte>, head: seq<Byte>, tail: seq<Byte>, started: bool, total: nat) {
    && MIN_OUTPUT_LIMIT_BYTES <= limit <= MAX_OUTPUT_LIMIT_BYTES
    && WellFormed(text)
    && total == Saturate(|text|)
    && head == text[..HeadLen(text, limit / 2)]
    && tail == TailOf(text, limit)
    && (started <==> |head| < |text|)
  }

  lemma MirrorsEmpty(limit: nat)
    requires MIN_OUTPUT_LIMIT_BYTES <= limit <= MAX_OUTPUT_LIMIT_BYTES
    ensures Mirrors(limit, [], [], [], false, 0)
  {
    hide Trim;
  }

  lemma TailOfAppend(limit: nat, text: seq<Byte>, c: seq<Byte>)
    requires WellFormed(text) && IsChar(c) && WellFormed(text + c)
    requires HeadLen(text + c, limit / 2) == HeadLen(text, limit / 2)
    ensures WellFormed(TailOf(text, limit) + c)
    ensures TailOf(text + c, limit) == Trim(TailOf(text, limit) + c, limit - limit / 2)
  {
    hide CharLen, WellFormed, Trim, HeadLen, IsChar;
    var h := HeadLen(text, limit / 2);
    var rest := text[h..];
    HeadIsWhole(text, limit / 2);
    HeadIsWhole(text + c, limit / 2);
    assert (text + c)[h..] == rest + c;
    TrimAppend(rest, c, limit - limit / 2);
  }

  lemma MirrorsHead(limit: nat, text: seq<Byte>, head: seq<Byte>, tail: seq<Byte>, total: nat, c: seq<Byte>)
    requires Mirrors(limit, text, head, tail, false, total) && IsChar(c) && |head| + |c| <= limit / 2
    ensures Mirrors(limit, text + c, head + c, tail, false, Saturate(total + |c|))
  {
    hide CharLen, WellFormed, TailOf, HeadLen;
    CharIsWellFormed(c);
    WellFormedConcat(text, c);
    HeadLenAppend(text, c, limit / 2);
    assert head == text;
    assert |TailOf(text + c, limit)| == 0 == |tail|;
  }

  lemma MirrorsTail(limit: nat, text: seq<Byte>, head: seq<Byte>, tail: seq<Byte>, started: bool, total: nat, c: seq<Byte>)
    requires Mirrors(limit, text, head, tail, started, total) && IsChar(c) && (started || |head| + |c| > limit / 2)
    ensures WellFormed(tail + c)
    ensures Mirrors(limit, text + c, head, Trim(tail + c, limit - limit / 2), true, Saturate(total + |c|))
  {
    hide CharLen, WellFormed, Trim, TailOf, HeadLen;
    CharIsWellFormed(c);
    WellFormedConcat(text, c);
    HeadLenAppend(text, c, limit / 2);
    assert HeadLen(text + c, limit / 2) == |head|;
    assert (text + c)[..|head|] == head;
    TailOfAppend(limit, text, c);
  }

  lemma MirrorsShape(limit: nat, text: seq<Byte>, head: seq<Byte>, tail: seq<Byte>, started: bool, total: nat)
    requires Mirrors(limit, text, head, tail, started, total)
    ensures WellFormed(text) && WellFormed(tail) && total <= U64_MAX
    ensures MIN_OUTPUT_LIMIT_BYTES <= limit && |head| == HeadLen(text, limit / 2) && |head| + 44 <= limit
    ensures total == Saturate(|text|) && tail == TailOf(text, limit) && text[..|head|] == head
  {
    hide CharLen, WellFormed, TailOf, HeadLen;
  }

  /** What `finish` returns for given fields. */
  function Assemble(head: seq<Byte>, tail: seq<Byte>, total: nat, limit: nat): Captured
    requires WellFormed(tail) && total <= U64_MAX && |head| + 44 <= limit
  {
    if total <= limit && |head| + |tail| == total then Captured(head + tail, false, 0)
    else
      var t := FitTail(|head|, tail, total, limit);
      var omitted := Omitted(total, |head| + |t|);
      Captured(head + Marker(omitted) + t, true, omitted)
  }

  lemma MirrorsCapture(limit: nat, text: seq<Byte>, head: seq<Byte>, tail: seq<Byte>, started: bool, total: nat)
    requires Mirrors(limit, text, head, tail, started, total)
    ensures WellFormed(text) && WellFormed(tail) && total <= U64_MAX
    ensures MIN_OUTPUT_LIMIT_BYTES <= limit && |head| + 44 <= limit
    ensures CaptureText(text, limit) == Assemble(head, tail, total, limit)
  {
    hide CharLen, WellFormed, TailOf, HeadLen, FitTail, Marker, Mirrors;
    MirrorsShape(limit, text, head, tail, started, total);
  }

  class BoundedCapture {
    const limit: nat
    const headCapacity: nat
    const tailCapacity: nat
    var head: seq<Byte>
    var tail: seq<Byte>
    var tailStarted: bool
    var totalBytes: nat
    /** All the text pushed so far. */
    ghost var text: seq<Byte>

    ghost predicate Valid()
      reads this
    {
      && headCapacity == limit / 2 && tailCapacity == limit - limit / 2
      && Mirrors(limit, text, head, tail, tailStarted, totalBytes)
    }

    constructor (limit: nat)
      requires MIN_OUTPUT_LIMIT_BYTES <= limit <= MAX_OUTPUT_LIMIT_BYTES
      ensures Valid() && text == [] && this.limit == limit
    {
      this.limit := limit;
      headCapacity := limit / 2;
      tailCapacity := limit - limit / 2;
      head, tail, tailStarted, totalBytes := [], [], false, 0;
      text := [];
      new;
      hide Mirrors;
      MirrorsEmpty(limit);
    }

    method PopFrontCharacter()
      requires WellFormed(tail)
      modifies this`tail
      ensures tail == if old(tail) == [] then [] else old(tail)[CharLen(old(tail))..]
    {
      hide CharLen, PopWidth;
      if tail == [] { return; }
      PopWidthIsCharLen(tail);
      tail := tail[PopWidth(tail[0])..];
    }

    /** The loop of `push_str` that drops characters until the tail fits. */
    method TrimTail()
      requires WellFormed(tail)
      modifies this`tail
      ensures tail == Trim(old(tail), tailCapacity)
    {
      hide CharLen, WellFormed, Trim;
      ghost var want := Trim(tail, tailCapacity);
      while |tail| > tailCapacity
        invariant WellFormed(tail) && Trim(tail, tailCapacity) == want
        decreases |tail|
        modifies this`tail
      {
        TrimStep(tail, tailCapacity);
        PopFrontCharacter();
      }
      TrimStart(tail, tailCapacity);
    }

    /** One turn of `push_str`'s loop. */
    method PushCharacter(c: seq<Byte>)
      requires Valid() && IsChar(c)
      modifies this
      ensures Valid() && text == old(text) + c
    {
      hide CharLen, WellFormed, Trim, HeadLen, Mirrors, IsChar;
      if !tailStarted && |head| + |c| <= headCapacity {
        MirrorsHead(limit, text, head, tail, totalBytes, c);
        totalBytes := Saturate(totalBytes + |c|);
        head := head + c;
      } else {
        MirrorsTail(limit, text, head, tail, tailStarted, totalBytes, c);
        totalBytes := Saturate(totalBytes + |c|);
        tailStarted := true;
        tail := tail + c;
        TrimTail();
      }
      text := text + c;
    }

    method PushStr(value: seq<Byte>)
      requires Valid() && WellFormed(value)
      modifies this
      ensures Valid() && text == old(text) + value
    {
      hide CharLen, WellFormed, Mirrors, IsChar;
      var rest := value;
      ghost var done := [];
      while rest != []
        invariant WellFormed(rest) && value == done + rest
        invariant Valid() && text == old(text) + done
        decreases |rest|
      {
        Peel(rest);
        var c := rest[..CharLen(rest)];
        PushCharacter(c);
        done := done + c;
        rest := rest[CharLen(rest)..];
      }
    }

    method Finish() returns (result: Captured)
      requires Valid()
      modifies this
      ensures WellFormed(old(text)) && limit >= MIN_OUTPUT_LIMIT_BYTES && result == CaptureText(old(text), limit)
      ensures Shows(old(text), limit, result)
    {
      hide *;
      MirrorsFinish();
      CaptureShows(text, limit);
      var captured := |head| + |tail|;
      if totalBytes <= limit && captured == totalBytes {
        result := Captured(head + tail, false, 0);
        AssembleWhole(head, tail, totalBytes, limit);
      } else {
        AssembleCut(head, tail, totalBytes, limit);
        result := FinishCut();
      }
    }

    lemma MirrorsFinish()
      requires Valid()
      ensures WellFormed(text) && WellFormed(tail) && totalBytes <= U64_MAX
      ensures MIN_OUTPUT_LIMIT_BYTES <= limit <= MAX_OUTPUT_LIMIT_BYTES && |head| + 44 <= limit
      ensures CaptureText(text, limit) == Assemble(head, tail, totalBytes, limit)
    {
      MirrorsCapture(limit, text, head, tail, tailStarted, totalBytes);
    }

    /** The marker loop. It ends because an empty tail always leaves room for the marker. */
    method FinishCut() returns (result: Captured)
      requires WellFormed(tail) && totalBytes <= U64_MAX && |head| + 44 <= limit
      modifies this`tail
      ensures result == CutResult(head, FitTail(|head|, old(tail), totalBytes, limit), totalBytes)
    {
      hide *;
      ghost var want := FitTail(|head|, tail, totalBytes, limit);
      while true
        invariant WellFormed(tail)
        invariant FitTail(|head|, tail, totalBytes, limit) == want
        decreases |tail|
      {
        var omitted := Omitted(totalBytes, |head| + |tail|);
        var marker := Marker(omitted);
        FitTailStep(|head|, tail, totalBytes, limit);
        if |head| + |marker| + |tail| <= limit {
          CutResultIs(head, tail, totalBytes);
          return Captured(head + marker + tail, true, omitted);
        }
        PopFrontCharacter();
      }
    }
  }

  function CutResult(head: seq<Byte>, t: seq<Byte>, total: nat): Captured {
    var omitted := Omitted(total, |head| + |t|);
    Captured(head + Marker(omitted) + t, true, omitted)
  }

  lemma CutResultIs(head: seq<Byte>, t: seq<Byte>, total: nat)
    ensures CutResult(head, t, total)
         == Captured(head + Marker(Omitted(total, |head| + |t|)) + t, true, Omitted(total, |head| + |t|))
  {}

  lemma AssembleWhole(head: seq<Byte>, tail: seq<Byte>, total: nat, limit: nat)
    requires WellFormed(tail) && total <= U64_MAX && |head| + 44 <= limit
    requires total <= limit && |head| + |tail| == total
    ensures Assemble(head, tail, total, limit) == Captured(head + tail, false, 0)
  {}

  lemma AssembleCut(head: seq<Byte>, tail: seq<Byte>, total: nat, limit: nat)
    requires WellFormed(tail) && total <= U64_MAX && |head| + 44 <= limit
    requires !(total <= limit && |head| + |tail| == total)
    ensures Assemble(head, tail, total, limit) == CutResult(head, FitTail(|head|, tail, total, limit), total)
  {
    hide FitTail, Marker, CharLen, WellFormed;
  }

  lemma TrimStep(text: seq<Byte>, cap: nat)
    requires WellFormed(text) && |text| > cap
    ensures WellFormed(text[CharLen(text)..]) && CharLen(text) > 0
    ensures Trim(text, cap) == Trim(text[CharLen(text)..], cap)
  {
    hide CharLen;
  }

  lemma FitTailStep(h: nat, tail: seq<Byte>, total: nat, limit: nat)
    requires WellFormed(tail) && total <= U64_MAX && h + 44 <= limit
    ensures var marker := Marker(Omitted(total, h + |tail|));
            if h + |marker| + |tail| <= limit then FitTail(h, tail, total, limit) == tail
            else
              && tail != [] && CharLen(tail) > 0 && WellFormed(tail[CharLen(tail)..])
              && FitTail(h, tail, total, limit) == FitTail(h, tail[CharLen(tail)..], total, limit)
  {
    hide CharLen;
    EmptyTailFits(h, total, limit);
  }
}
