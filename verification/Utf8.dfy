/**
 The incremental UTF-8 escaper of redact.rs and the batch escape it refines.
 Well-formedness is the grammar of section 4 of RFC 3629.
 */
module Utf8 {
  import opened Bytes
  import opened Hex

  predicate Tail(b: Byte) { 0x80 <= b <= 0xBF }

  predicate Lead3(first: Byte, second: Byte) {
    || (first == 0xE0 && 0xA0 <= second <= 0xBF)
    || (0xE1 <= first <= 0xEC && Tail(second))
    || (first == 0xED && 0x80 <= second <= 0x9F)
    || (0xEE <= first <= 0xEF && Tail(second))
  }

  predicate Lead4(first: Byte, second: Byte) {
    || (first == 0xF0 && 0x90 <= second <= 0xBF)
    || (0xF1 <= first <= 0xF3 && Tail(second))
    || (first == 0xF4 && 0x80 <= second <= 0x8F)
  }

  /** Width of the well-formed character at the front of `s`, or 0 when there is none. */
  function CharLen(s: seq<Byte>): (n: nat)
    ensures n <= 4 && n <= |s|
  {
    if |s| >= 1 && s[0] <= 0x7F then 1
    else if |s| >= 2 && 0xC2 <= s[0] <= 0xDF && Tail(s[1]) then 2
    else if |s| >= 3 && Lead3(s[0], s[1]) && Tail(s[2]) then 3
    else if |s| >= 4 && Lead4(s[0], s[1]) && Tail(s[2]) && Tail(s[3]) then 4
    else 0
  }

  predicate WellFormed(s: seq<Byte>) {
    s == [] || (CharLen(s) > 0 && WellFormed(s[CharLen(s)..]))
  }

  /** `s` is exactly one character. */
  predicate IsChar(s: seq<Byte>) {
    s != [] && CharLen(s) == |s|
  }

  lemma CharLenStable(s: seq<Byte>, t: seq<Byte>)
    requires CharLen(s) > 0
    ensures CharLen(s + t) == CharLen(s)
  {}

  lemma FrontIsChar(s: seq<Byte>)
    requires CharLen(s) > 0
    ensures IsChar(s[..CharLen(s)])
  {}

  lemma Peel(s: seq<Byte>)
    requires WellFormed(s) && s != []
    ensures CharLen(s) > 0 && IsChar(s[..CharLen(s)]) && WellFormed(s[CharLen(s)..])
  {
    hide CharLen;
    FrontIsChar(s);
  }

  lemma SplitChar(s: seq<Byte>) returns (c: seq<Byte>, rest: seq<Byte>)
    requires WellFormed(s) && s != []
    ensures s == c + rest && IsChar(c) && WellFormed(rest) && |rest| < |s|
  {
    hide CharLen;
    c, rest := s[..CharLen(s)], s[CharLen(s)..];
    FrontIsChar(s);
  }

  lemma {:induction false} WellFormedConcat(s: seq<Byte>, t: seq<Byte>)
    requires WellFormed(s) && WellFormed(t)
    ensures WellFormed(s + t)
    decreases |s|
  {
    hide CharLen;
    if s == [] {
      assert s + t == t;
    } else {
      CharLenStable(s, t);
      assert (s + t)[CharLen(s)..] == s[CharLen(s)..] + t;
      WellFormedConcat(s[CharLen(s)..], t);
    }
  }

  lemma CharIsWellFormed(c: seq<Byte>)
    requires IsChar(c)
    ensures WellFormed(c)
  {
    assert c[|c|..] == [];
  }

  // ----- character boundaries -----

  /** `str::is_char_boundary`. */
  predicate Boundary(s: seq<Byte>, i: nat) {
    i == 0 || i == |s| || (i < |s| && !Tail(s[i]))
  }

  lemma CharHasNoInnerBoundary(s: seq<Byte>, i: nat)
    requires CharLen(s) > 0 && 0 < i < |s| && !Tail(s[i])
    ensures CharLen(s) <= i
  {}

  lemma CharStarts(s: seq<Byte>)
    requires CharLen(s) > 0
    ensures !Tail(s[0])
  {}

  lemma {:induction false} BoundaryCutsBetweenChars(s: seq<Byte>, i: nat)
    requires WellFormed(s) && i <= |s| && Boundary(s, i)
    ensures WellFormed(s[..i]) && WellFormed(s[i..])
    decreases |s|
  {
    hide CharLen;
    if i == |s| {
      assert s[..i] == s && s[i..] == [];
    } else if i == 0 {
      assert s[i..] == s;
    } else {
      var n := CharLen(s);
      CharHasNoInnerBoundary(s, i);
      var rest := s[n..];
      assert i - n < |rest| ==> rest[i - n] == s[i];
      BoundaryCutsBetweenChars(rest, i - n);
      Peel(s);
      CharIsWellFormed(s[..n]);
      WellFormedConcat(s[..n], rest[..i - n]);
      assert s[..i] == s[..n] + rest[..i - n] && s[i..] == rest[i - n..];
    }
  }

  lemma BoundaryPeel(text: seq<Byte>, i: nat)
    requires WellFormed(text) && 0 < i <= |text| && WellFormed(text[..i])
    ensures CharLen(text) <= i && WellFormed(text[CharLen(text)..][..i - CharLen(text)])
  {
    hide CharLen;
    Peel(text[..i]);
    CharLenStable(text[..i], text[i..]);
    assert text[..i] + text[i..] == text;
    assert text[..i][CharLen(text)..] == text[CharLen(text)..][..i - CharLen(text)];
  }

  /** Where a well-formed text can be cut is where no continuation byte follows. */
  lemma {:induction false} CutIsBoundary(s: seq<Byte>, i: nat)
    requires WellFormed(s) && i <= |s| && WellFormed(s[..i])
    ensures Boundary(s, i)
    decreases |s|
  {
    hide CharLen, Tail;
    if 0 < i < |s| {
      var n := CharLen(s);
      BoundaryPeel(s, i);
      Peel(s);
      if n < i { CutIsBoundary(s[n..], i - n); } else { CharStarts(s[n..]); }
    }
  }

  /** The last character boundary that is no further in than `cap`. */
  predicate LastBoundary(s: seq<Byte>, cap: nat, h: nat) {
    h <= |s| && h <= cap && Boundary(s, h) && forall i :: h < i <= |s| && i <= cap ==> !Boundary(s, i)
  }

  // ----- str::from_utf8, the library check the escaper is written against -----

  datatype Utf8Check = Valid | Invalid(validUpTo: nat, errorLen: Option<nat>)

  /** `Utf8Error::error_len` at a position where no character starts: `None` means the input
      ended inside a character, `Some(k)` that the next `k` bytes can never become one. */
  function ErrorLen(s: seq<Byte>): (e: Option<nat>)
    requires s != [] && CharLen(s) == 0
    ensures e.Some? ==> 1 <= e.value <= 3 && e.value <= |s|
  {
    if 0xC2 <= s[0] <= 0xDF then
      if |s| < 2 then None else Some(1)
    else if 0xE0 <= s[0] <= 0xEF then
      if |s| < 2 then None
      else if !Lead3(s[0], s[1]) then Some(1)
      else if |s| < 3 then None
      else Some(2)
    else if 0xF0 <= s[0] <= 0xF4 then
      if |s| < 2 then None
      else if !Lead4(s[0], s[1]) then Some(1)
      else if |s| < 3 then None
      else if !Tail(s[2]) then Some(2)
      else if |s| < 4 then None
      else Some(3)
    else Some(1)
  }

  function FromUtf8(s: seq<Byte>): (r: Utf8Check)
    ensures r.Invalid? ==> r.validUpTo < |s|
  {
    hide ErrorLen;
    if s == [] then Valid
    else if CharLen(s) == 0 then Invalid(0, ErrorLen(s))
    else
      match FromUtf8(s[CharLen(s)..])
      case Valid => Valid
      case Invalid(v, e) => Invalid(CharLen(s) + v, e)
  }

  /** The check accepts exactly the well-formed strings, and stops where no character starts. */
  lemma {:induction false} FromUtf8IsExact(s: seq<Byte>)
    ensures FromUtf8(s).Valid? <==> WellFormed(s)
    ensures var r := FromUtf8(s);
            r.Invalid? ==>
              && WellFormed(s[..r.validUpTo])
              && CharLen(s[r.validUpTo..]) == 0
              && r.errorLen == ErrorLen(s[r.validUpTo..])
    decreases |s|
  {
    hide CharLen, ErrorLen;
    if s == [] {
    } else if CharLen(s) == 0 {
      assert s[0..] == s;
    } else {
      var n := CharLen(s);
      var rest := s[n..];
      FromUtf8IsExact(rest);
      if FromUtf8(rest).Invalid? {
        var v := FromUtf8(rest).validUpTo;
        FrontIsChar(s);
        CharIsWellFormed(s[..n]);
        WellFormedConcat(s[..n], rest[..v]);
        assert s[..n + v] == s[..n] + rest[..v];
        assert s[n + v..] == rest[v..];
      }
    }
  }

  // ----- the batch escape -----

  /** The four ASCII bytes of `\xNN`, lower-case. */
  function HexEscape(b: Byte): (r: seq<Byte>)
    ensures |r| == 4 && forall i :: 0 <= i < 4 ==> r[i] <= 0x7F
  {
    [0x5C, 0x78, Digit(b / 16, false), Digit(b % 16, false)]
  }

  /** A backslash, an `x` and two digits that read back as the byte. */
  predicate ReadsAsEscape(t: seq<Byte>, b: Byte) {
    |t| == 4 && Spell(t[..2], "\\x") && ReadPair(t[2], t[3], false) == Some(b)
  }

  lemma HexEscapeReads(b: Byte)
    ensures ReadsAsEscape(HexEscape(b), b)
  {
    hide Digit, ReadPair;
    PairExactly(Digit(b / 16, false), Digit(b % 16, false), b, false);
  }

  lemma {:induction false} AsciiIsWellFormed(s: seq<Byte>)
    requires forall i :: 0 <= i < |s| ==> s[i] <= 0x7F
    ensures WellFormed(s)
  {
    if s != [] {
      AsciiIsWellFormed(s[1..]);
    }
  }

  /** Reference meaning: a byte that belongs to a well-formed character passes unchanged,
      every other byte becomes `\xNN`. */
  function Escape(s: seq<Byte>): seq<Byte> {
    if s == [] then []
    else if CharLen(s) > 0 then s[..CharLen(s)] + Escape(s[CharLen(s)..])
    else HexEscape(s[0]) + Escape(s[1..])
  }

  lemma {:induction false} EscapeIsWellFormed(s: seq<Byte>)
    ensures WellFormed(Escape(s))
    decreases |s|
  {
    hide CharLen, HexEscape;
    if s == [] {
    } else if CharLen(s) > 0 {
      var n := CharLen(s);
      EscapeIsWellFormed(s[n..]);
      FrontIsChar(s);
      CharIsWellFormed(s[..n]);
      WellFormedConcat(s[..n], Escape(s[n..]));
    } else {
      EscapeIsWellFormed(s[1..]);
      AsciiIsWellFormed(HexEscape(s[0]));
      WellFormedConcat(HexEscape(s[0]), Escape(s[1..]));
    }
  }

  /** Text that is already well formed is left alone. */
  lemma {:induction false} EscapeKeepsWellFormed(s: seq<Byte>)
    requires WellFormed(s)
    ensures Escape(s) == s
    decreases |s|
  {
    hide CharLen, HexEscape;
    if s != [] {
      EscapeKeepsWellFormed(s[CharLen(s)..]);
    }
  }

  lemma EscapeChar(c: seq<Byte>, t: seq<Byte>)
    requires IsChar(c)
    ensures Escape(c + t) == c + Escape(t)
  {
    hide CharLen, HexEscape;
    CharLenStable(c, t);
    assert (c + t)[..|c|] == c && (c + t)[|c|..] == t;
  }

  lemma {:induction false} EscapePrefix(s: seq<Byte>, t: seq<Byte>)
    requires WellFormed(s)
    ensures Escape(s + t) == s + Escape(t)
    decreases |s|
  {
    hide CharLen, Escape;
    if s == [] {
      assert s + t == t;
    } else {
      var c, rest := SplitChar(s);
      assert s + t == c + (rest + t);
      EscapeChar(c, rest + t);
      EscapePrefix(rest, t);
      assert c + (rest + Escape(t)) == s + Escape(t);
    }
  }

  function HexAll(s: seq<Byte>): seq<Byte> {
    if s == [] then [] else HexEscape(s[0]) + HexAll(s[1..])
  }

  /** Four characters for each byte, which read back as it. */
  lemma {:induction false} HexAllReads(s: seq<Byte>, i: nat)
    requires i < |s|
    ensures |HexAll(s)| == 4 * |s| && ReadsAsEscape(HexAll(s)[4 * i..4 * i + 4], s[i])
  {
    hide HexEscape, ReadsAsEscape;
    if i == 0 {
      HexAllLength(s);
      HexEscapeReads(s[0]);
      assert HexAll(s)[..4] == HexEscape(s[0]);
    } else {
      HexAllReads(s[1..], i - 1);
      assert HexAll(s)[4..] == HexAll(s[1..]);
      assert HexAll(s)[4..][4 * i - 4..4 * i] == HexAll(s)[4 * i..4 * i + 4];
    }
  }

  lemma {:induction false} HexAllLength(s: seq<Byte>)
    ensures |HexAll(s)| == 4 * |s|
  {
    hide HexEscape;
    if s != [] { HexAllLength(s[1..]); }
  }

  lemma {:induction false} HexAllAppend(s: seq<Byte>, b: Byte)
    ensures HexAll(s + [b]) == HexAll(s) + HexEscape(b)
  {
    hide HexEscape;
    if s == [] {
      assert [b][1..] == [];
      assert HexEscape(b) + [] == HexEscape(b);
    } else {
      assert (s + [b])[1..] == s[1..] + [b];
      HexAllAppend(s[1..], b);
    }
  }

  lemma EscapeStray(s: seq<Byte>, t: seq<Byte>)
    requires s != [] && CharLen(s + t) == 0
    ensures Escape(s + t) == HexEscape(s[0]) + Escape(s[1..] + t)
  {
    hide CharLen, HexEscape;
    assert (s + t)[1..] == s[1..] + t;
  }

  /** A continuation byte never starts a character. */
  lemma {:induction false} EscapeTails(s: seq<Byte>, t: seq<Byte>)
    requires forall i :: 0 <= i < |s| ==> Tail(s[i])
    ensures Escape(s + t) == HexAll(s) + Escape(t)
  {
    if s == [] {
      assert s + t == t;
    } else {
      assert (s + t)[0] == s[0];
      EscapeStray(s, t);
      EscapeTails(s[1..], t);
      assert HexEscape(s[0]) + (HexAll(s[1..]) + Escape(t)) == HexAll(s) + Escape(t);
    }
  }

  /** An error is the first byte and continuation bytes, and no continuation makes it a character. */
  lemma ErrorShape(s: seq<Byte>, k: nat, t: seq<Byte>)
    requires s != [] && CharLen(s) == 0 && ErrorLen(s) == Some(k)
    ensures 1 <= k <= |s| && CharLen(s + t) == 0 && forall i :: 1 <= i < k ==> Tail(s[i])
  {}

  lemma HexAllFirst(s: seq<Byte>, k: nat, e: seq<Byte>)
    requires 1 <= k <= |s|
    ensures HexAll(s[..k]) + e == HexEscape(s[0]) + (HexAll(s[1..k]) + e)
  {
    hide HexEscape;
    assert s[..k][1..] == s[1..k];
  }

  /** No character starts inside the bytes the library reports as one error, whatever follows. */
  lemma EscapeError(s: seq<Byte>, k: nat, t: seq<Byte>)
    requires s != [] && CharLen(s) == 0 && ErrorLen(s) == Some(k)
    ensures Escape(s + t) == HexAll(s[..k]) + Escape(s[k..] + t)
  {
    hide CharLen, ErrorLen, HexEscape, HexAll, Escape;
    ErrorShape(s, k, t);
    EscapeStray(s, t);
    assert s[1..] + t == s[1..k] + (s[k..] + t);
    EscapeTails(s[1..k], s[k..] + t);
    HexAllFirst(s, k, Escape(s[k..] + t));
  }

  /** A character cut off by the end of the input: what the escaper may hold back. */
  predicate Incomplete(s: seq<Byte>) {
    s == [] || (CharLen(s) == 0 && ErrorLen(s) == None)
  }

  lemma IncompleteShape(s: seq<Byte>)
    requires s != [] && Incomplete(s)
    ensures |s| <= 3
    ensures forall i :: 1 <= i < |s| ==> Tail(s[i])
  {}

  lemma EscapeIncomplete(s: seq<Byte>)
    requires Incomplete(s)
    ensures Escape(s) == HexAll(s)
  {
    hide CharLen, ErrorLen, HexEscape;
    if s != [] {
      IncompleteShape(s);
      var head, tail := s[0], s[1..];
      assert s + [] == s && tail + [] == tail;
      EscapeTails(tail, []);
    }
  }

  // ----- one push of the escaper -----

  /** What a push emits from the buffer `s`, and what it holds back for the next push. */
  function Drain(s: seq<Byte>): (r: (seq<Byte>, seq<Byte>)) {
    if Incomplete(s) then ([], s)
    else if CharLen(s) > 0 then
      var r := Drain(s[CharLen(s)..]);
      (s[..CharLen(s)] + r.0, r.1)
    else
      var k := ErrorLen(s).value;
      var r := Drain(s[k..]);
      (HexAll(s[..k]) + r.0, r.1)
  }

  /** The incremental form refines the batch form, whatever input is still to come. */
  lemma {:induction false} DrainRefines(s: seq<Byte>, t: seq<Byte>)
    ensures Escape(s + t) == Drain(s).0 + Escape(Drain(s).1 + t)
    decreases |s|
  {
    hide CharLen, ErrorLen, Escape, HexAll;
    if Incomplete(s) {
    } else if CharLen(s) > 0 {
      var c, rest := s[..CharLen(s)], s[CharLen(s)..];
      FrontIsChar(s);
      assert s + t == c + (rest + t);
      EscapeChar(c, rest + t);
      DrainRefines(rest, t);
      assert c + (Drain(rest).0 + Escape(Drain(rest).1 + t)) == Drain(s).0 + Escape(Drain(s).1 + t);
    } else {
      var k := ErrorLen(s).value;
      EscapeError(s, k, t);
      DrainRefines(s[k..], t);
      assert HexAll(s[..k]) + (Drain(s[k..]).0 + Escape(Drain(s[k..]).1 + t))
          == Drain(s).0 + Escape(Drain(s).1 + t);
    }
  }

  lemma {:induction false} HexAllIsWellFormed(s: seq<Byte>)
    ensures WellFormed(HexAll(s))
  {
    hide CharLen, HexEscape;
    if s != [] {
      AsciiIsWellFormed(HexEscape(s[0]));
      HexAllIsWellFormed(s[1..]);
      WellFormedConcat(HexEscape(s[0]), HexAll(s[1..]));
    }
  }

  /** Every push emits whole characters and holds back at most three bytes. */
  lemma {:induction false} DrainShape(s: seq<Byte>)
    ensures WellFormed(Drain(s).0)
    ensures Incomplete(Drain(s).1) && |Drain(s).1| <= 3
    decreases |s|
  {
    hide CharLen, ErrorLen, HexAll;
    if Incomplete(s) {
      if s != [] { IncompleteShape(s); }
    } else if CharLen(s) > 0 {
      var n := CharLen(s);
      DrainShape(s[n..]);
      FrontIsChar(s);
      CharIsWellFormed(s[..n]);
      WellFormedConcat(s[..n], Drain(s[n..]).0);
    } else {
      var k := ErrorLen(s).value;
      DrainShape(s[k..]);
      HexAllIsWellFormed(s[..k]);
      WellFormedConcat(HexAll(s[..k]), Drain(s[k..]).0);
    }
  }

  /** A well-formed stretch goes through a push in one piece. */
  lemma {:induction false} DrainValid(v: seq<Byte>, t: seq<Byte>)
    requires WellFormed(v)
    ensures Drain(v + t) == (v + Drain(t).0, Drain(t).1)
    decreases |v|
  {
    hide CharLen, ErrorLen, Drain;
    if v == [] {
      assert v + t == t && [] + Drain(t).0 == Drain(t).0;
    } else {
      var c, rest := SplitChar(v);
      var u := rest + t;
      assert v + t == c + u;
      DrainChar(c, u);
      DrainValid(rest, t);
      assert c + (rest + Drain(t).0) == v + Drain(t).0;
    }
  }

  lemma DrainChar(c: seq<Byte>, u: seq<Byte>)
    requires IsChar(c)
    ensures Drain(c + u) == (c + Drain(u).0, Drain(u).1)
  {
    hide CharLen, ErrorLen;
    CharLenStable(c, u);
    assert (c + u)[..|c|] == c && (c + u)[|c|..] == u;
  }
}
