/** The stateful UTF-8 escaper, feeding the capture buffer. */
module Escaper {
  import opened Bytes
  import opened Utf8
  import opened Capture

  /** What one `from_utf8` answer tells about the rest of a push. */
  lemma DrainByCheck(s: seq<Byte>)
    ensures FromUtf8(s).Valid? ==> WellFormed(s) && Drain(s) == (s, [])
    ensures var r := FromUtf8(s);
            r.Invalid? ==>
              && WellFormed(s[..r.validUpTo])
              && Drain(s) == (s[..r.validUpTo] + Drain(s[r.validUpTo..]).0, Drain(s[r.validUpTo..]).1)
              && (r.errorLen.None? ==> Drain(s[r.validUpTo..]) == ([], s[r.validUpTo..]))
  {
    hide CharLen, ErrorLen, WellFormed, FromUtf8, HexAll;
    FromUtf8IsExact(s);
    match FromUtf8(s) {
      case Valid =>
        DrainValid(s, []);
        assert s + [] == s;
      case Invalid(v, e) =>
        DrainValid(s[..v], s[v..]);
        assert s[..v] + s[v..] == s;
    }
  }

  lemma DrainErrorFront(t: seq<Byte>)
    requires t != [] && CharLen(t) == 0 && ErrorLen(t).Some?
    ensures Drain(t) == (HexAll(t[..ErrorLen(t).value]) + Drain(t[ErrorLen(t).value..]).0, Drain(t[ErrorLen(t).value..]).1)
  {
    hide CharLen, ErrorLen, HexAll;
  }

  lemma DrainError(s: seq<Byte>)
    requires FromUtf8(s).Invalid? && FromUtf8(s).errorLen.Some?
    ensures var v, k := FromUtf8(s).validUpTo, FromUtf8(s).errorLen.value;
            && k > 0 && v + k <= |s|
            && Drain(s[v..]) == (HexAll(s[v..v + k]) + Drain(s[v + k..]).0, Drain(s[v + k..]).1)
  {
    hide CharLen, WellFormed, FromUtf8, HexAll, Drain, ErrorLen;
    FromUtf8IsExact(s);
    var v, k := FromUtf8(s).validUpTo, FromUtf8(s).errorLen.value;
    var t := s[v..];
    DrainErrorFront(t);
    assert t[..k] == s[v..v + k];
    assert t[k..] == s[v + k..];
  }

  /** After emitting `emitted`, the push still has `buffer[p..]` to drain. */
  ghost predicate Behind(buffer: seq<Byte>, p: nat, emitted: seq<Byte>) {
    && p <= |buffer|
    && Drain(buffer).0 == emitted + Drain(buffer[p..]).0
    && Drain(buffer).1 == Drain(buffer[p..]).1
  }

  lemma BehindStart(buffer: seq<Byte>)
    ensures Behind(buffer, 0, [])
  {
    hide Drain;
    assert buffer[0..] == buffer;
  }

  lemma BehindEnd(buffer: seq<Byte>, emitted: seq<Byte>)
    requires Behind(buffer, |buffer|, emitted)
    ensures Drain(buffer) == (emitted, [])
  {
    hide Drain;
    DrainOfNothing(buffer[|buffer|..]);
    assert emitted + [] == emitted;
  }

  lemma BehindValid(buffer: seq<Byte>, p: nat, emitted: seq<Byte>)
    requires Behind(buffer, p, emitted) && FromUtf8(buffer[p..]).Valid?
    ensures WellFormed(buffer[p..]) && Drain(buffer) == (emitted + buffer[p..], [])
  {
    hide Drain, FromUtf8, WellFormed;
    DrainByCheck(buffer[p..]);
  }

  lemma BehindHeldBack(buffer: seq<Byte>, p: nat, emitted: seq<Byte>)
    requires Behind(buffer, p, emitted)
    requires FromUtf8(buffer[p..]).Invalid? && FromUtf8(buffer[p..]).errorLen.None?
    ensures var v := FromUtf8(buffer[p..]).validUpTo;
            && WellFormed(buffer[p..p + v])
            && Drain(buffer) == (emitted + buffer[p..p + v], buffer[p + v..])
  {
    hide Drain, FromUtf8, WellFormed;
    var rest := buffer[p..];
    var v := FromUtf8(rest).validUpTo;
    DrainByCheck(rest);
    assert rest[..v] == buffer[p..p + v] && rest[v..] == buffer[p + v..];
    assert emitted + (rest[..v] + []) == emitted + rest[..v];
  }

  lemma BehindError(buffer: seq<Byte>, p: nat, emitted: seq<Byte>)
    requires Behind(buffer, p, emitted)
    requires FromUtf8(buffer[p..]).Invalid? && FromUtf8(buffer[p..]).errorLen.Some?
    ensures var v, k := FromUtf8(buffer[p..]).validUpTo, FromUtf8(buffer[p..]).errorLen.value;
            && WellFormed(buffer[p..p + v]) && k > 0 && p + v + k <= |buffer|
            && Behind(buffer, p + v + k, emitted + buffer[p..p + v] + HexAll(buffer[p + v..p + v + k]))
  {
    hide Drain, FromUtf8, WellFormed, HexAll;
    var rest := buffer[p..];
    var v, k := FromUtf8(rest).validUpTo, FromUtf8(rest).errorLen.value;
    DrainByCheck(rest);
    DrainError(rest);
    assert rest[..v] == buffer[p..p + v];
    assert rest[v..v + k] == buffer[p + v..p + v + k];
    assert rest[v + k..] == buffer[p + v + k..];
    var a, b, c := rest[..v], HexAll(rest[v..v + k]), Drain(rest[v + k..]).0;
    assert emitted + (a + (b + c)) == emitted + a + b + c;
  }

  lemma DrainOfNothing(s: seq<Byte>)
    requires s == []
    ensures Drain(s) == ([], [])
  {}

  class Utf8Escaper {
    var pending: seq<Byte>

    constructor ()
      ensures pending == []
    {
      pending := [];
    }

    method PushEscapes(bytes: seq<Byte>, capture: BoundedCapture)
      requires capture.Valid()
      modifies capture
      ensures capture.Valid() && capture.text == old(capture.text) + HexAll(bytes)
    {
      hide CharLen, WellFormed, HexEscape, Mirrors;
      assert bytes[..0] == [];
      for i := 0 to |bytes|
        invariant capture.Valid() && capture.text == old(capture.text) + HexAll(bytes[..i])
      {
        AsciiIsWellFormed(HexEscape(bytes[i]));
        capture.PushStr(HexEscape(bytes[i]));
        HexAllAppend(bytes[..i], bytes[i]);
        assert bytes[..i] + [bytes[i]] == bytes[..i + 1];
      }
      assert bytes[..|bytes|] == bytes;
    }

    /** One push emits and holds back exactly what `Drain` says. */
    method Push(bytes: seq<Byte>, capture: BoundedCapture)
      requires capture.Valid()
      modifies this, capture
      ensures capture.Valid()
      ensures capture.text == old(capture.text) + Drain(old(pending) + bytes).0
      ensures pending == Drain(old(pending) + bytes).1
    {
      hide *;
      var buffer := pending + bytes;
      pending := [];
      var position := 0;
      ghost var emitted: seq<Byte> := [];
      BehindStart(buffer);
      if buffer == [] { BehindEnd(buffer, []); }
      while position < |buffer|
        invariant position <= |buffer|
        invariant capture.Valid() && capture.text == old(capture.text) + emitted
        invariant if position < |buffer| then pending == [] && Behind(buffer, position, emitted)
                  else Drain(buffer) == (emitted, pending)
      {
        match FromUtf8(buffer[position..]) {
          case Valid =>
            BehindValid(buffer, position, emitted);
            capture.PushStr(buffer[position..]);
            emitted := emitted + buffer[position..];
            position := |buffer|;
          case Invalid(v, errorLen) =>
            var validEnd := position + v;
            if errorLen.None? {
              BehindHeldBack(buffer, position, emitted);
              capture.PushStr(buffer[position..validEnd]);
              emitted := emitted + buffer[position..validEnd];
              pending := buffer[validEnd..];
              position := |buffer|;
              continue;
            }
            BehindError(buffer, position, emitted);
            capture.PushStr(buffer[position..validEnd]);
            PushEscapes(buffer[validEnd..validEnd + errorLen.value], capture);
            emitted := emitted + buffer[position..validEnd] + HexAll(buffer[validEnd..validEnd + errorLen.value]);
            position := validEnd + errorLen.value;
            if position == |buffer| { BehindEnd(buffer, emitted); }
        }
      }
    }

    method Finish(capture: BoundedCapture)
      requires capture.Valid()
      modifies this, capture
      ensures capture.Valid()
      ensures capture.text == old(capture.text) + HexAll(old(pending)) && pending == []
    {
      hide HexAll, Mirrors;
      var held := pending;
      pending := [];
      PushEscapes(held, capture);
    }
  }
}
