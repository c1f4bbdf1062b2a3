/**
 Leftmost-longest replacement of many needles: the batch meaning, and the held-back step that
 `StreamingRedactor::process` performs on its buffer.
*/
module Needles {
  import opened Bytes

  ghost predicate Usable(pats: seq<seq<Byte>>) {
    forall i :: 0 <= i < |pats| ==> pats[i] != []
  }

  predicate Starts(s: seq<Byte>, needle: seq<Byte>) {
    |needle| <= |s| && s[..|needle|] == needle
  }

  /** Length of the longest needle at the front of `s`, 0 when there is none. */
  function LongestAt(pats: seq<seq<Byte>>, s: seq<Byte>): (n: nat)
    ensures n <= |s|
    ensures forall i :: 0 <= i < |pats| && Starts(s, pats[i]) ==> |pats[i]| <= n
    ensures n > 0 ==> exists i :: 0 <= i < |pats| && Starts(s, pats[i]) && |pats[i]| == n
  {
    if pats == [] then 0
    else
      var rest := LongestAt(pats[1..], s);
      assert forall i :: 1 <= i < |pats| ==> pats[i] == pats[1..][i - 1];
      if Starts(s, pats[0]) && |pats[0]| > rest then |pats[0]| else rest
  }

  /** `maximum_pattern_bytes`: the longest needle, 1 when there are none. */
  function MaxLen(pats: seq<seq<Byte>>): (n: nat)
    ensures n >= 1
    ensures forall i :: 0 <= i < |pats| ==> |pats[i]| <= n
  {
    if pats == [] then 1
    else
      var rest := MaxLen(pats[1..]);
      assert forall i :: 1 <= i < |pats| ==> pats[i] == pats[1..][i - 1];
      if |pats[0]| > rest then |pats[0]| else rest
  }

  /** How far one step of the scan moves: over the longest needle here, or over one byte. */
  function Advance(pats: seq<seq<Byte>>, s: seq<Byte>): (d: nat)
    requires s != []
    ensures 1 <= d <= |s|
  {
    if LongestAt(pats, s) > 0 then LongestAt(pats, s) else 1
  }

  /** What that step writes. */
  function Piece(pats: seq<seq<Byte>>, marker: seq<Byte>, s: seq<Byte>): seq<Byte>
    requires s != []
  {
    if LongestAt(pats, s) > 0 then marker else s[..1]
  }

  function Hits(pats: seq<seq<Byte>>, s: seq<Byte>): nat {
    if LongestAt(pats, s) > 0 then 1 else 0
  }

  /** Text with `count` replacements made in it. */
  datatype Replaced = Replaced(out: seq<Byte>, count: nat)

  /** Reference meaning: scan from the left, replace the longest needle found at each position. */
  function Replace(pats: seq<seq<Byte>>, marker: seq<Byte>, s: seq<Byte>): (r: Replaced)
    decreases |s|
  {
    if s == [] then Replaced([], 0)
    else
      var r := Replace(pats, marker, s[Advance(pats, s)..]);
      Replaced(Piece(pats, marker, s) + r.out, Hits(pats, s) + r.count)
  }

  /** The replaced intervals `(start, length)` of the same scan, `off` being where `s` starts. */
  function Intervals(pats: seq<seq<Byte>>, s: seq<Byte>, off: nat): (r: seq<(nat, nat)>)
    decreases |s|
  {
    if s == [] then []
    else
      var d := Advance(pats, s);
      (if Hits(pats, s) > 0 then [(off, d)] else []) + Intervals(pats, s[d..], off + d)
  }

  /** The text with the listed intervals cut out and the marker put in their place. */
  function Splice(marker: seq<Byte>, s: seq<Byte>, off: nat, cuts: seq<(nat, nat)>): seq<Byte>
    decreases |cuts|
  {
    if cuts == [] then s
    else if off <= cuts[0].0 && cuts[0].0 + cuts[0].1 <= off + |s| then
      var (at, n) := cuts[0];
      s[..at - off] + marker + Splice(marker, s[at - off + n..], at + n, cuts[1..])
    else []
  }

  ghost predicate OverlapsSome(cuts: seq<(nat, nat)>, at: nat, n: nat) {
    exists k :: 0 <= k < |cuts| && cuts[k].0 < at + n && at < cuts[k].0 + cuts[k].1
  }

  lemma {:induction false} IntervalsBounds(pats: seq<seq<Byte>>, s: seq<Byte>, off: nat)
    ensures forall k :: 0 <= k < |Intervals(pats, s, off)| ==>
              && off <= Intervals(pats, s, off)[k].0
              && Intervals(pats, s, off)[k].0 + Intervals(pats, s, off)[k].1 <= off + |s|
    decreases |s|
  {
    hide Advance, Hits;
    if s != [] {
      var d := Advance(pats, s);
      IntervalsBounds(pats, s[d..], off + d);
      HitsOnce(pats, s);
    }
  }

  lemma HitsOnce(pats: seq<seq<Byte>>, s: seq<Byte>)
    requires s != []
    ensures Hits(pats, s) <= 1
    ensures Hits(pats, s) == 0 ==> Advance(pats, s) == 1
  {}

  lemma PieceIs(pats: seq<seq<Byte>>, marker: seq<Byte>, s: seq<Byte>)
    requires s != []
    ensures Piece(pats, marker, s) == if Hits(pats, s) > 0 then marker else s[..1]
  {
    hide LongestAt;
  }

  lemma SpliceShift(marker: seq<Byte>, s: seq<Byte>, off: nat, cuts: seq<(nat, nat)>)
    requires s != []
    requires cuts != [] ==> off + 1 <= cuts[0].0 && cuts[0].0 + cuts[0].1 <= off + |s|
    ensures Splice(marker, s, off, cuts) == s[..1] + Splice(marker, s[1..], off + 1, cuts)
  {
    if cuts != [] {
      var at, n := cuts[0].0, cuts[0].1;
      assert s[..at - off] == s[..1] + s[1..][..at - off - 1];
      assert s[1..][at - off - 1 + n..] == s[at - off + n..];
    }
  }

  lemma SpliceHit(marker: seq<Byte>, s: seq<Byte>, off: nat, n: nat, rest: seq<(nat, nat)>)
    requires n <= |s|
    ensures Splice(marker, s, off, [(off, n)] + rest) == marker + Splice(marker, s[n..], off + n, rest)
  {
    var cuts := [(off, n)] + rest;
    assert cuts[1..] == rest;
    assert s[..0] + marker == marker;
  }

  /** The replaced text is the raw text with exactly those intervals replaced. */
  lemma {:induction false} ReplaceIsSplice(pats: seq<seq<Byte>>, marker: seq<Byte>, s: seq<Byte>, off: nat)
    ensures Replace(pats, marker, s).out == Splice(marker, s, off, Intervals(pats, s, off))
    ensures Replace(pats, marker, s).count == |Intervals(pats, s, off)|
    decreases |s|
  {
    hide Advance, Piece, Hits, Splice;
    if s == [] {
      SpliceNothing(marker, s, off);
    } else {
      var d := Advance(pats, s);
      var rest := Intervals(pats, s[d..], off + d);
      ReplaceIsSplice(pats, marker, s[d..], off + d);
      HitsOnce(pats, s);
      PieceIs(pats, marker, s);
      if Hits(pats, s) > 0 {
        SpliceHit(marker, s, off, d, rest);
      } else {
        IntervalsBounds(pats, s[d..], off + d);
        SpliceShift(marker, s, off, rest);
        assert [] + rest == rest;
      }
    }
  }

  lemma SpliceNothing(marker: seq<Byte>, s: seq<Byte>, off: nat)
    ensures Splice(marker, s, off, []) == s
  {}

  lemma OccursShift(s: seq<Byte>, needle: seq<Byte>, i: nat, d: nat)
    requires d <= i && OccursAt(s, needle, i)
    ensures OccursAt(s[d..], needle, i - d)
  {
    assert s[d..][i - d..i - d + |needle|] == s[i..i + |needle|];
  }

  lemma HitAtFront(pats: seq<seq<Byte>>, s: seq<Byte>, p: nat)
    requires Usable(pats) && p < |pats| && OccursAt(s, pats[p], 0)
    ensures s != [] && Hits(pats, s) == 1
  {
    assert Starts(s, pats[p]);
  }

  /** Nothing is missed: every occurrence of a needle in the raw text overlaps a replaced interval. */
  lemma {:induction false} EveryOccurrenceIsHit(pats: seq<seq<Byte>>, s: seq<Byte>, off: nat, p: nat, i: nat)
    requires Usable(pats) && p < |pats| && OccursAt(s, pats[p], i)
    ensures OverlapsSome(Intervals(pats, s, off), off + i, |pats[p]|)
    decreases |s|
  {
    hide LongestAt, Advance, Hits, OccursAt;
    OccursBounds(s, pats[p], i);
    var d := Advance(pats, s);
    var cuts, tail := Intervals(pats, s, off), Intervals(pats, s[d..], off + d);
    HitsOnce(pats, s);
    if i == 0 { HitAtFront(pats, s, p); }
    if i < d {
      assert cuts[0] == (off, d);
    } else {
      OccursShift(s, pats[p], i, d);
      EveryOccurrenceIsHit(pats, s[d..], off + d, p, i - d);
      var k :| 0 <= k < |tail| && tail[k].0 < off + i + |pats[p]| && off + i < tail[k].0 + tail[k].1;
      var shift := if Hits(pats, s) > 0 then 1 else 0;
      assert cuts[k + shift] == tail[k];
    }
  }

  lemma OccursBounds(s: seq<Byte>, needle: seq<Byte>, i: nat)
    requires OccursAt(s, needle, i) && needle != []
    ensures i < |s|
  {}

  // ----- the scan, said without the way it is computed -----

  ghost predicate NoneStarts(hay: seq<Byte>, pats: seq<seq<Byte>>, from: nat, upTo: nat) {
    forall i: nat, p :: from <= i < upTo && 0 <= p < |pats| ==> !OccursAt(hay, pats[p], i)
  }

  /** Some needle of `n` bytes is found here, and no longer one. */
  ghost predicate LongestHere(pats: seq<seq<Byte>>, s: seq<Byte>, at: nat, n: nat) {
    && (exists p :: 0 <= p < |pats| && OccursAt(s, pats[p], at) && |pats[p]| == n)
    && (forall p :: 0 <= p < |pats| && OccursAt(s, pats[p], at) ==> |pats[p]| <= n)
  }

  /** From `from` on, these are the leftmost matches, the longest at each place, one after the other, and
      after the last of them there are no more. */
  ghost predicate LeftmostLongest(pats: seq<seq<Byte>>, s: seq<Byte>, from: nat, cuts: seq<(nat, nat)>)
    decreases |cuts|
  {
    if cuts == [] then NoneStarts(s, pats, from, |s|)
    else
      && from <= cuts[0].0
      && NoneStarts(s, pats, from, cuts[0].0) && LongestHere(pats, s, cuts[0].0, cuts[0].1)
      && LeftmostLongest(pats, s, cuts[0].0 + cuts[0].1, cuts[1..])
  }

  lemma OccursIsStarts(s: seq<Byte>, needle: seq<Byte>, i: nat)
    requires i <= |s|
    ensures OccursAt(s, needle, i) <==> Starts(s[i..], needle)
  {
    if i + |needle| <= |s| {
      assert s[i..][..|needle|] == s[i..i + |needle|];
    }
  }

  lemma HitIsLongest(pats: seq<seq<Byte>>, s: seq<Byte>, at: nat)
    requires Usable(pats) && at < |s|
    ensures Hits(pats, s[at..]) > 0 ==> LongestHere(pats, s, at, Advance(pats, s[at..]))
    ensures Hits(pats, s[at..]) == 0 ==> NoneStarts(s, pats, at, at + 1)
  {
    hide OccursAt, Starts;
    forall p | 0 <= p < |pats| ensures OccursAt(s, pats[p], at) <==> Starts(s[at..], pats[p]) { OccursIsStarts(s, pats[p], at); }
  }

  lemma SkipOne(pats: seq<seq<Byte>>, s: seq<Byte>, from: nat, cuts: seq<(nat, nat)>)
    requires from < |s| && NoneStarts(s, pats, from, from + 1) && LeftmostLongest(pats, s, from + 1, cuts)
    ensures LeftmostLongest(pats, s, from, cuts)
  {
    hide OccursAt, LongestHere;
  }

  lemma TakeOne(pats: seq<seq<Byte>>, s: seq<Byte>, from: nat, n: nat, rest: seq<(nat, nat)>)
    requires LongestHere(pats, s, from, n) && LeftmostLongest(pats, s, from + n, rest)
    ensures LeftmostLongest(pats, s, from, [(from, n)] + rest)
  {
    hide OccursAt, LongestHere;
    assert ([(from, n)] + rest)[1..] == rest;
  }

  /** The replaced intervals are the leftmost-longest matches. */
  lemma {:induction false} IntervalsAreLeftmostLongest(pats: seq<seq<Byte>>, s: seq<Byte>, from: nat)
    requires Usable(pats) && from <= |s|
    ensures LeftmostLongest(pats, s, from, Intervals(pats, s[from..], from))
    decreases |s| - from
  {
    hide Hits, Advance, LongestHere, OccursAt;
    if from < |s| {
      var d := Advance(pats, s[from..]);
      assert s[from..][d..] == s[from + d..];
      HitIsLongest(pats, s, from);
      HitsOnce(pats, s[from..]);
      IntervalsAreLeftmostLongest(pats, s, from + d);
      var rest := Intervals(pats, s[from + d..], from + d);
      if Hits(pats, s[from..]) == 0 {
        SkipOne(pats, s, from, rest);
        assert [] + rest == rest;
      } else {
        TakeOne(pats, s, from, d, rest);
      }
    }
  }

  lemma HereIsLater(pats: seq<seq<Byte>>, s: seq<Byte>, from: nat, upTo: nat, at: nat, n: nat)
    requires Usable(pats) && from <= at && LongestHere(pats, s, at, n) && NoneStarts(s, pats, from, upTo)
    ensures upTo <= at < |s|
  {
    hide OccursAt;
    var p :| 0 <= p < |pats| && OccursAt(s, pats[p], at) && |pats[p]| == n;
    OccursBounds(s, pats[p], at);
  }

  /** There is only one such list. */
  lemma {:induction false} OneLeftmostLongest(pats: seq<seq<Byte>>, s: seq<Byte>, from: nat, cuts: seq<(nat, nat)>, cuts': seq<(nat, nat)>)
    requires Usable(pats) && LeftmostLongest(pats, s, from, cuts) && LeftmostLongest(pats, s, from, cuts')
    ensures cuts == cuts'
    decreases |cuts|
  {
    hide NoneStarts, LongestHere, OccursAt;
    if cuts != [] { HereIsLater(pats, s, from, if cuts' == [] then |s| else cuts'[0].0, cuts[0].0, cuts[0].1); }
    if cuts' != [] { HereIsLater(pats, s, from, if cuts == [] then |s| else cuts[0].0, cuts'[0].0, cuts'[0].1); }
    if cuts != [] && cuts' != [] {
      SameLongest(pats, s, cuts[0].0, cuts[0].1, cuts'[0].1);
      OneLeftmostLongest(pats, s, cuts[0].0 + cuts[0].1, cuts[1..], cuts'[1..]);
      assert cuts == [cuts[0]] + cuts[1..] && cuts' == [cuts'[0]] + cuts'[1..];
    }
  }

  lemma SameLongest(pats: seq<seq<Byte>>, s: seq<Byte>, at: nat, n: nat, m: nat)
    requires LongestHere(pats, s, at, n) && LongestHere(pats, s, at, m)
    ensures n == m
  {
    hide OccursAt;
  }

  // ----- one call of `process` -----

  datatype Fed = Fed(out: seq<Byte>, count: nat, rest: seq<Byte>)

  /** `process`, holding back the last `hold` bytes of its buffer. */
  function Feed(pats: seq<seq<Byte>>, marker: seq<Byte>, s: seq<Byte>, hold: nat): (r: Fed)
    decreases |s|
  {
    if |s| <= hold then Fed([], 0, s)
    else
      var r := Feed(pats, marker, s[Advance(pats, s)..], hold);
      Fed(Piece(pats, marker, s) + r.out, Hits(pats, s) + r.count, r.rest)
  }

  lemma FeedUnfold(pats: seq<seq<Byte>>, marker: seq<Byte>, s: seq<Byte>, hold: nat)
    requires |s| > hold
    ensures var rest := Feed(pats, marker, s[Advance(pats, s)..], hold);
            Feed(pats, marker, s, hold) == Fed(Piece(pats, marker, s) + rest.out, Hits(pats, s) + rest.count, rest.rest)
  {
    hide Advance, Piece, Hits;
  }

  /** A needle that starts before the held-back bytes is already complete. */
  lemma LongestIsStable(pats: seq<seq<Byte>>, s: seq<Byte>, t: seq<Byte>)
    requires |s| >= MaxLen(pats)
    ensures LongestAt(pats, s + t) == LongestAt(pats, s)
  {
    hide LongestAt, MaxLen;
    forall i | 0 <= i < |pats|
      ensures Starts(s + t, pats[i]) <==> Starts(s, pats[i])
    {
      assert (s + t)[..|pats[i]|] == s[..|pats[i]|];
    }
  }

  lemma StepIsStable(pats: seq<seq<Byte>>, marker: seq<Byte>, s: seq<Byte>, t: seq<Byte>)
    requires |s| >= MaxLen(pats)
    ensures Advance(pats, s + t) == Advance(pats, s)
    ensures Piece(pats, marker, s + t) == Piece(pats, marker, s)
    ensures Hits(pats, s + t) == Hits(pats, s)
    ensures (s + t)[Advance(pats, s)..] == s[Advance(pats, s)..] + t
  {
    hide LongestAt, MaxLen;
    LongestIsStable(pats, s, t);
    assert (s + t)[..1] == s[..1];
  }

  lemma ReplaceUnfold(pats: seq<seq<Byte>>, marker: seq<Byte>, s: seq<Byte>)
    requires s != []
    ensures Replace(pats, marker, s).out == Piece(pats, marker, s) + Replace(pats, marker, s[Advance(pats, s)..]).out
    ensures Replace(pats, marker, s).count == Hits(pats, s) + Replace(pats, marker, s[Advance(pats, s)..]).count
  {
    hide LongestAt, Advance, Piece, Hits;
  }

  /** The held-back step refines the batch replacement, whatever input is still to come. */
  lemma {:induction false} FeedRefines(pats: seq<seq<Byte>>, marker: seq<Byte>, s: seq<Byte>, hold: nat, t: seq<Byte>)
    requires hold + 1 >= MaxLen(pats)
    ensures var r := Feed(pats, marker, s, hold);
            && Replace(pats, marker, s + t).out == r.out + Replace(pats, marker, r.rest + t).out
            && Replace(pats, marker, s + t).count == r.count + Replace(pats, marker, r.rest + t).count
    decreases |s|
  {
    hide LongestAt, MaxLen, Advance, Piece, Hits, Replace;
    if |s| > hold {
      StepIsStable(pats, marker, s, t);
      ReplaceUnfold(pats, marker, s + t);
      var rest := s[Advance(pats, s)..];
      FeedRefines(pats, marker, rest, hold, t);
    }
  }

  lemma {:induction false} FeedAll(pats: seq<seq<Byte>>, marker: seq<Byte>, s: seq<Byte>)
    ensures var r := Feed(pats, marker, s, 0);
            r.rest == [] && Replace(pats, marker, s) == Replaced(r.out, r.count)
    decreases |s|
  {
    hide LongestAt, Advance, Piece, Hits;
    if s != [] {
      FeedAll(pats, marker, s[Advance(pats, s)..]);
    }
  }
}
