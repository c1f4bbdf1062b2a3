/**
 `StreamingRedactor`: chunked replacement feeding the UTF-8 escaper feeding the bounded capture.

 `Redact` says in batch form what the three stages produce together; the class reaches it for
 every way of cutting the stream into chunks.
*/
module Redactor {
  import opened Bytes
  import opened Utf8
  import opened Capture
  import opened Escaper
  import opened Needles
  import opened Encodings

  // ----- the needle table -----

  datatype Secret = Secret(value: seq<Byte>)

  const REDACTION_MARKER: seq<Byte> := [0x5B, 0x52, 0x45, 0x44, 0x41, 0x43, 0x54, 0x45, 0x44, 0x5D]

  /** `add_pattern`: empty and already listed needles are skipped. */
  function AddPattern(pats: seq<seq<Byte>>, needle: seq<Byte>): seq<seq<Byte>> {
    if needle == [] || needle in pats then pats else pats + [needle]
  }

  function AddAll(pats: seq<seq<Byte>>, needles: seq<seq<Byte>>): seq<seq<Byte>>
    decreases |needles|
  {
    if needles == [] then pats else AddAll(AddPattern(pats, needles[0]), needles[1..])
  }

  function Collect(pats: seq<seq<Byte>>, secrets: seq<Secret>): seq<seq<Byte>>
    decreases |secrets|
  {
    if secrets == [] then pats
    else Collect(if secrets[0].value == [] then pats else AddAll(pats, Forms(secrets[0].value)), secrets[1..])
  }

  /** The stable sort by descending length. */
  function Insert(needle: seq<Byte>, sorted: seq<seq<Byte>>): seq<seq<Byte>> {
    if sorted == [] || |needle| > |sorted[0]| then [needle] + sorted
    else [sorted[0]] + Insert(needle, sorted[1..])
  }

  function SortByLength(pats: seq<seq<Byte>>): seq<seq<Byte>> {
    if pats == [] then [] else Insert(pats[|pats| - 1], SortByLength(pats[..|pats| - 1]))
  }

  /** Secrets too short to redact reliably suppress the output altogether. */
  predicate TooShort(secrets: seq<Secret>) {
    exists i :: 0 <= i < |secrets| && 0 < |secrets[i].value| < 4
  }

  predicate ContainsPattern(hay: seq<Byte>, pats: seq<seq<Byte>>) {
    exists i :: 0 <= i < |pats| && Contains(hay, pats[i])
  }

  lemma {:induction false} AddAllMembers(pats: seq<seq<Byte>>, needles: seq<seq<Byte>>)
    ensures forall x :: x in AddAll(pats, needles) <==> x in pats || (x != [] && x in needles)
    decreases |needles|
  {
    if needles != [] {
      AddAllMembers(AddPattern(pats, needles[0]), needles[1..]);
      assert needles == [needles[0]] + needles[1..];
    }
  }

  lemma {:induction false} CollectMembers(pats: seq<seq<Byte>>, secrets: seq<Secret>)
    ensures forall x :: x in Collect(pats, secrets) <==>
              x in pats || exists i :: 0 <= i < |secrets| && secrets[i].value != [] && x != [] && x in Forms(secrets[i].value)
    decreases |secrets|
  {
    hide Forms;
    if secrets != [] {
      var head := secrets[0];
      var added := if head.value == [] then pats else AddAll(pats, Forms(head.value));
      AddAllMembers(pats, Forms(head.value));
      CollectMembers(added, secrets[1..]);
      assert secrets == [head] + secrets[1..];
    }
  }

  lemma {:induction false} InsertMembers(needle: seq<Byte>, sorted: seq<seq<Byte>>)
    ensures multiset(Insert(needle, sorted)) == multiset(sorted) + multiset{needle}
  {
    if sorted == [] || |needle| > |sorted[0]| {
      assert multiset([needle] + sorted) == multiset{needle} + multiset(sorted);
    } else {
      InsertMembers(needle, sorted[1..]);
      assert sorted == [sorted[0]] + sorted[1..];
      assert multiset(sorted) == multiset{sorted[0]} + multiset(sorted[1..]);
      var inner := Insert(needle, sorted[1..]);
      assert multiset([sorted[0]] + inner) == multiset{sorted[0]} + multiset(inner);
    }
  }

  lemma {:induction false} SortMembers(pats: seq<seq<Byte>>)
    ensures multiset(SortByLength(pats)) == multiset(pats)
  {
    if pats == [] {
      assert SortByLength(pats) == [];
    } else {
      var front, last := pats[..|pats| - 1], pats[|pats| - 1];
      SortMembers(front);
      InsertMembers(last, SortByLength(front));
      assert SortByLength(pats) == Insert(last, SortByLength(front));
      assert pats == front + [last];
    }
  }

  function PatternsFor(secrets: seq<Secret>): seq<seq<Byte>> {
    SortByLength(Collect([], secrets))
  }

  /** The table holds exactly the texts that spell out a non-empty secret. */
  lemma PatternsAreTheForms(secrets: seq<Secret>)
    ensures Usable(PatternsFor(secrets))
    ensures forall x :: x in PatternsFor(secrets) <==>
              exists i :: 0 <= i < |secrets| && secrets[i].value != [] && x != [] && SpellsOut(x, secrets[i].value)
  {
    hide Forms, Collect, SortByLength, SpellsOut;
    CollectMembers([], secrets);
    var all := Collect([], secrets);
    SortMembers(all);
    forall x ensures x in SortByLength(all) <==> x in all {
      assert x in SortByLength(all) <==> x in multiset(SortByLength(all));
      assert x in all <==> x in multiset(all);
    }
    forall x, i | 0 <= i < |secrets| ensures x in Forms(secrets[i].value) <==> SpellsOut(x, secrets[i].value) {
      FormsExactly(x, secrets[i].value);
    }
    var pats := PatternsFor(secrets);
    forall i | 0 <= i < |pats| ensures pats[i] != [] {
      assert pats[i] in all;
    }
  }

  lemma AddAllOne(pats: seq<seq<Byte>>, needle: seq<Byte>, more: seq<seq<Byte>>)
    ensures AddAll(AddPattern(pats, needle), more) == AddAll(pats, [needle] + more)
  {
    assert ([needle] + more)[1..] == more;
  }

  /** The calls of `add_pattern` for one secret. */
  method AddForms(pats: seq<seq<Byte>>, value: seq<Byte>) returns (r: seq<seq<Byte>>)
    ensures r == AddAll(pats, Forms(value))
  {
    hide AddAll, AddPattern, HexOf, Base64Of, JsonOf, PercentOf, WellFormed;
    var lower := EncodeHex(value, false);
    var upper := EncodeHex(value, true);
    ghost var text := if WellFormed(value) then [JsonOf(value), PercentOf(value, false), PercentOf(value, true)] else [];
    r := AddEach(pats, [value, lower, upper, Base64Of(value, false, true), Base64Of(value, false, false),
                        Base64Of(value, true, true), Base64Of(value, true, false)], text);
    if WellFormed(value) {
      var plain := PercentEncode(value, false);
      var small := PercentEncode(value, true);
      r := AddEach(r, [JsonOf(value), plain, small], []);
      assert text + [] == text;
    }
    AddNone(r);
  }

  lemma AddNone(pats: seq<seq<Byte>>)
    ensures AddAll(pats, []) == pats
  {}

  /** Adds some needles, with `more` still to come. */
  method AddEach(pats: seq<seq<Byte>>, needles: seq<seq<Byte>>, ghost more: seq<seq<Byte>>) returns (r: seq<seq<Byte>>)
    ensures AddAll(r, more) == AddAll(pats, needles + more)
  {
    hide AddAll, AddPattern;
    r := pats;
    assert needles[0..] == needles;
    for i := 0 to |needles|
      invariant AddAll(r, needles[i..] + more) == AddAll(pats, needles + more)
    {
      AddAllOne(r, needles[i], needles[i + 1..] + more);
      assert [needles[i]] + (needles[i + 1..] + more) == needles[i..] + more;
      r := AddPattern(r, needles[i]);
    }
    assert needles[|needles|..] + more == more;
  }

  /** The loop of `StreamingRedactor::new` over the secrets. */
  method BuildPatterns(secrets: seq<Secret>) returns (pats: seq<seq<Byte>>, suppressed: bool)
    ensures pats == Collect([], secrets) && suppressed == TooShort(secrets)
  {
    hide AddAll, Forms;
    pats, suppressed := [], false;
    assert secrets[0..] == secrets;
    for k := 0 to |secrets|
      invariant Collect(pats, secrets[k..]) == Collect([], secrets)
      invariant suppressed <==> exists i :: 0 <= i < k && 0 < |secrets[i].value| < 4
    {
      assert secrets[k..][1..] == secrets[k + 1..];
      if secrets[k].value != [] {
        if |secrets[k].value| < 4 { suppressed := true; }
        pats := AddForms(pats, secrets[k].value);
      }
    }
  }

  // ----- the batch meaning of the whole pipeline -----

  datatype RedactedOutput = RedactedOutput(text: seq<Byte>, redactionCount: nat, truncated: bool, omittedBytes: nat, suppressed: bool)

  datatype Config = Config(patterns: seq<seq<Byte>>, marker: seq<Byte>, limit: nat, suppressed: bool)

  ghost predicate ValidConfig(c: Config) {
    && Usable(c.patterns)
    && MIN_OUTPUT_LIMIT_BYTES <= c.limit <= MAX_OUTPUT_LIMIT_BYTES
  }

  function ConfigFor(secrets: seq<Secret>, limit: nat): Config {
    var pats := PatternsFor(secrets);
    Config(pats, if ContainsPattern(REDACTION_MARKER, pats) then [] else REDACTION_MARKER, limit, TooShort(secrets))
  }

  /** Some text that spells out a non-empty secret occurs in `hay`. */
  ghost predicate Reveals(hay: seq<Byte>, secrets: seq<Secret>) {
    exists i, t :: 0 <= i < |secrets| && secrets[i].value != [] && t != [] && SpellsOut(t, secrets[i].value) && Contains(hay, t)
  }

  lemma RevealsExactly(hay: seq<Byte>, secrets: seq<Secret>)
    ensures ContainsPattern(hay, PatternsFor(secrets)) <==> Reveals(hay, secrets)
  {
    hide PatternsFor, SpellsOut, Contains;
    PatternsAreTheForms(secrets);
    var pats := PatternsFor(secrets);
    if ContainsPattern(hay, pats) {
      var k :| 0 <= k < |pats| && Contains(hay, pats[k]);
      assert pats[k] in pats;
    }
    if Reveals(hay, secrets) {
      var i, t :| 0 <= i < |secrets| && secrets[i].value != [] && t != [] && SpellsOut(t, secrets[i].value) && Contains(hay, t);
      assert t in pats;
    }
  }

  /** Everything is suppressed exactly when a secret has one, two or three bytes, and a replaced match
      leaves "[REDACTED]" unless that itself would reveal a secret. */
  lemma ConfigExactly(secrets: seq<Secret>, limit: nat)
    ensures var c := ConfigFor(secrets, limit);
            && (c.suppressed <==> exists i :: 0 <= i < |secrets| && 1 <= |secrets[i].value| <= 3)
            && (if Reveals(REDACTION_MARKER, secrets) then c.marker == [] else Spell(c.marker, "[REDACTED]"))
            && c.limit == limit
  {
    hide PatternsFor, Reveals, ContainsPattern;
    RevealsExactly(REDACTION_MARKER, secrets);
    if TooShort(secrets) {
      var i :| 0 <= i < |secrets| && 0 < |secrets[i].value| < 4;
      assert 1 <= |secrets[i].value| <= 3;
    }
  }

  function Redact(c: Config, raw: seq<Byte>): (r: RedactedOutput)
    requires c.limit >= MIN_OUTPUT_LIMIT_BYTES
  {
    if c.suppressed then RedactedOutput([], 0, false, 0, true)
    else
      var replaced := Replace(c.patterns, c.marker, raw);
      EscapeIsWellFormed(replaced.out);
      var captured := CaptureText(Escape(replaced.out), c.limit);
      var leaked := ContainsPattern(captured.text, c.patterns);
      RedactedOutput(if leaked then [] else captured.text, Saturate(replaced.count),
                     captured.truncated, captured.omitted, leaked)
  }

  /** No output text ever contains a needle, fits the limit, and is well-formed UTF-8. */
  lemma RedactedTextIsClean(c: Config, raw: seq<Byte>)
    requires ValidConfig(c)
    ensures var r := Redact(c, raw);
            && (forall i :: 0 <= i < |c.patterns| ==> !Contains(r.text, c.patterns[i]))
            && |r.text| <= c.limit && WellFormed(r.text)
            && (r.suppressed ==> r.text == [])
  {
    hide CaptureText, Escape, Replace, Contains;
    var text := Escape(Replace(c.patterns, c.marker, raw).out);
    EscapeIsWellFormed(Replace(c.patterns, c.marker, raw).out);
    CaptureFits(text, c.limit);
    forall i | 0 <= i < |c.patterns| ensures !Contains([], c.patterns[i]) {
      EmptyContains(c.patterns[i]);
    }
  }

  // ----- the answer, said without the way it is computed -----

  /** Unless everything is suppressed: the leftmost-longest matches are replaced and counted, what is not
      text is escaped, and the outcome is captured; it is held back only if a needle is still in it. */
  ghost predicate Answers(c: Config, raw: seq<Byte>, r: RedactedOutput) {
    if c.suppressed then r == RedactedOutput([], 0, false, 0, true)
    else
      exists cuts, shown ::
        && LeftmostLongest(c.patterns, raw, 0, cuts)
        && Shows(Escape(Splice(c.marker, raw, 0, cuts)), c.limit, shown)
        && var leaks := exists i :: 0 <= i < |c.patterns| && Contains(shown.text, c.patterns[i]);
           r == RedactedOutput(if leaks then [] else shown.text, Saturate(|cuts|), shown.truncated, shown.omitted, leaks)
  }

  lemma RedactAnswers(c: Config, raw: seq<Byte>)
    requires ValidConfig(c)
    ensures Answers(c, raw, Redact(c, raw))
  {
    hide CaptureText, Escape, Replace, Contains, Splice, Intervals, LeftmostLongest, Shows;
    if !c.suppressed {
      var cuts := Intervals(c.patterns, raw, 0);
      ReplaceIsSplice(c.patterns, c.marker, raw, 0);
      assert raw[0..] == raw;
      IntervalsAreLeftmostLongest(c.patterns, raw, 0);
      EscapeIsWellFormed(Splice(c.marker, raw, 0, cuts));
      CaptureShows(Escape(Splice(c.marker, raw, 0, cuts)), c.limit);
    }
  }

  /** There is only one answer. */
  lemma OneAnswer(c: Config, raw: seq<Byte>, r: RedactedOutput, q: RedactedOutput)
    requires ValidConfig(c) && Answers(c, raw, r) && Answers(c, raw, q)
    ensures r == q
  {
    hide Escape, Contains, Splice, LeftmostLongest, Shows;
    if !c.suppressed {
      var cuts, shown :| LeftmostLongest(c.patterns, raw, 0, cuts) && Shows(Escape(Splice(c.marker, raw, 0, cuts)), c.limit, shown)
        && var leaks := exists i :: 0 <= i < |c.patterns| && Contains(shown.text, c.patterns[i]);
           r == RedactedOutput(if leaks then [] else shown.text, Saturate(|cuts|), shown.truncated, shown.omitted, leaks);
      var cuts', shown' :| LeftmostLongest(c.patterns, raw, 0, cuts') && Shows(Escape(Splice(c.marker, raw, 0, cuts')), c.limit, shown')
        && var leaks := exists i :: 0 <= i < |c.patterns| && Contains(shown'.text, c.patterns[i]);
           q == RedactedOutput(if leaks then [] else shown'.text, Saturate(|cuts'|), shown'.truncated, shown'.omitted, leaks);
      OneLeftmostLongest(c.patterns, raw, 0, cuts, cuts');
      ShowsOne(Escape(Splice(c.marker, raw, 0, cuts)), c.limit, shown, shown');
    }
  }

  predicate Clean(text: seq<Byte>, pats: seq<seq<Byte>>) {
    forall i :: 0 <= i < |pats| ==> !Contains(text, pats[i])
  }

  /** Text without needles that fits comes back as it is, and nothing is reported about it. */
  lemma CleanTextComesBack(c: Config, raw: seq<Byte>)
    requires ValidConfig(c) && !c.suppressed && WellFormed(raw) && |raw| <= c.limit - 3 && Clean(raw, c.patterns)
    ensures Redact(c, raw) == RedactedOutput(raw, 0, false, 0, false)
  {
    hide CaptureText, Escape, Replace, Contains, WellFormed, IsWhole, LeftmostLongest;
    ReplaceIsSplice(c.patterns, c.marker, raw, 0);
    assert raw[0..] == raw;
    IntervalsAreLeftmostLongest(c.patterns, raw, 0);
    CleanHasNoCuts(c.patterns, raw);
    OneLeftmostLongest(c.patterns, raw, 0, Intervals(c.patterns, raw, 0), []);
    EscapeKeepsWellFormed(raw);
    WholeTextExactly(raw, c.limit);
    WholeTextIsReturned(raw, c.limit);
  }

  lemma CleanHasNoCuts(pats: seq<seq<Byte>>, raw: seq<Byte>)
    requires Clean(raw, pats)
    ensures LeftmostLongest(pats, raw, 0, [])
  {
    hide OccursAt;
  }

  lemma EmptyContains(needle: seq<Byte>)
    requires needle != []
    ensures !Contains([], needle)
  {}

  // ----- the streaming form -----

  /** Having emitted `out` and kept `pending`, replacement is on course for any continuation. */
  ghost predicate ReplaceTracks(c: Config, raw: seq<Byte>, out: seq<Byte>, count: nat, pending: seq<Byte>) {
    forall t: seq<Byte> ::
      && Replace(c.patterns, c.marker, raw + t).out == out + Replace(c.patterns, c.marker, pending + t).out
      && Replace(c.patterns, c.marker, raw + t).count == count + Replace(c.patterns, c.marker, pending + t).count
  }

  ghost predicate EscapeTracks(out: seq<Byte>, text: seq<Byte>, pending: seq<Byte>) {
    && Incomplete(pending)
    && forall t: seq<Byte> :: Escape(out + t) == text + Escape(pending + t)
  }

  lemma ReplaceTracksAppend(c: Config, raw: seq<Byte>, out: seq<Byte>, count: nat, pending: seq<Byte>, bytes: seq<Byte>)
    requires ReplaceTracks(c, raw, out, count, pending)
    ensures ReplaceTracks(c, raw + bytes, out, count, pending + bytes)
  {
    hide Replace;
    forall t: seq<Byte>
      ensures Replace(c.patterns, c.marker, raw + bytes + t).out == out + Replace(c.patterns, c.marker, pending + bytes + t).out
      ensures Replace(c.patterns, c.marker, raw + bytes + t).count == count + Replace(c.patterns, c.marker, pending + bytes + t).count
    {
      assert raw + bytes + t == raw + (bytes + t) && pending + bytes + t == pending + (bytes + t);
    }
  }

  lemma ReplaceTracksFeed(c: Config, raw: seq<Byte>, out: seq<Byte>, count: nat, buffer: seq<Byte>, hold: nat)
    requires ReplaceTracks(c, raw, out, count, buffer) && hold + 1 >= MaxLen(c.patterns)
    ensures var r := Feed(c.patterns, c.marker, buffer, hold);
            ReplaceTracks(c, raw, out + r.out, count + r.count, r.rest)
  {
    hide Replace, Feed, MaxLen;
    var r := Feed(c.patterns, c.marker, buffer, hold);
    forall t: seq<Byte>
      ensures Replace(c.patterns, c.marker, raw + t).out == out + r.out + Replace(c.patterns, c.marker, r.rest + t).out
      ensures Replace(c.patterns, c.marker, raw + t).count == count + r.count + Replace(c.patterns, c.marker, r.rest + t).count
    {
      FeedRefines(c.patterns, c.marker, buffer, hold, t);
    }
  }

  lemma ReplaceTracksEnd(c: Config, raw: seq<Byte>, out: seq<Byte>, count: nat, buffer: seq<Byte>)
    requires ReplaceTracks(c, raw, out, count, buffer)
    ensures var r := Feed(c.patterns, c.marker, buffer, 0);
            Replace(c.patterns, c.marker, raw) == Replaced(out + r.out, count + r.count)
  {
    hide Replace, Feed;
    FeedAll(c.patterns, c.marker, buffer);
    assert raw + [] == raw && buffer + [] == buffer;
  }

  lemma EscapeTracksPush(out: seq<Byte>, text: seq<Byte>, pending: seq<Byte>, bytes: seq<Byte>)
    requires EscapeTracks(out, text, pending)
    ensures EscapeTracks(out + bytes, text + Drain(pending + bytes).0, Drain(pending + bytes).1)
  {
    hide Escape, Drain, Incomplete;
    var r := Drain(pending + bytes);
    DrainShape(pending + bytes);
    forall t: seq<Byte>
      ensures Escape(out + bytes + t) == text + r.0 + Escape(r.1 + t)
    {
      assert out + bytes + t == out + (bytes + t) && pending + bytes + t == pending + (bytes + t);
      DrainRefines(pending + bytes, t);
    }
  }

  lemma EscapeTracksEnd(out: seq<Byte>, text: seq<Byte>, pending: seq<Byte>)
    requires EscapeTracks(out, text, pending)
    ensures Escape(out) == text + HexAll(pending)
  {
    hide Escape, HexAll, Incomplete;
    EscapeIncomplete(pending);
    assert out + [] == out && pending + [] == pending;
  }

  lemma TracksStart(c: Config)
    ensures ReplaceTracks(c, [], [], 0, []) && EscapeTracks([], [], [])
  {
    hide Replace, Escape;
    forall t: seq<Byte>
      ensures Replace(c.patterns, c.marker, [] + t).out == [] + Replace(c.patterns, c.marker, [] + t).out
      ensures Escape([] + t) == [] + Escape([] + t)
    {}
  }

  // ----- find_next -----

  /** `memmem::find`: the first occurrence at or after `from`. */
  function FindFrom(hay: seq<Byte>, needle: seq<Byte>, from: nat): (r: Option<nat>)
    ensures r.Some? ==> r.value >= from && OccursAt(hay, needle, r.value)
    ensures r.Some? ==> forall i: nat :: from <= i < r.value ==> !OccursAt(hay, needle, i)
    ensures r.None? ==> forall i: nat :: from <= i ==> !OccursAt(hay, needle, i)
    decreases |hay| - from
  {
    if from + |needle| > |hay| then None
    else if OccursAt(hay, needle, from) then Some(from)
    else FindFrom(hay, needle, from + 1)
  }

  /** The leftmost match that starts before `safeEnd`, and among those the longest. */
  ghost predicate IsNext(hay: seq<Byte>, pats: seq<seq<Byte>>, position: nat, safeEnd: nat, start: nat, index: nat) {
    && position <= start < safeEnd && index < |pats|
    && OccursAt(hay, pats[index], start)
    && NoneStarts(hay, pats, position, start)
    && forall p :: 0 <= p < |pats| && OccursAt(hay, pats[p], start) ==> |pats[p]| <= |pats[index]|
  }

  method FindNext(buffer: seq<Byte>, position: nat, safeEnd: nat, pats: seq<seq<Byte>>)
    returns (best: Option<(nat, nat)>)
    requires position <= safeEnd <= |buffer|
    ensures best.None? ==> NoneStarts(buffer, pats, position, safeEnd)
    ensures best.Some? ==> IsNext(buffer, pats, position, safeEnd, best.value.0, best.value.1)
  {
    hide OccursAt;
    best := None;
    for index := 0 to |pats|
      invariant best.None? ==> NoneStarts(buffer, pats[..index], position, safeEnd)
      invariant best.Some? ==>
                  && best.value.1 < index
                  && IsNext(buffer, pats[..index], position, safeEnd, best.value.0, best.value.1)
    {
      assert pats[..index + 1] == pats[..index] + [pats[index]];
      match FindFrom(buffer, pats[index], position) {
        case None =>
        case Some(start) =>
          if start < safeEnd
             && (best.None? || start < best.value.0
                 || (start == best.value.0 && |pats[index]| > |pats[best.value.1]|)) {
            best := Some((start, index));
          }
      }
    }
    assert pats[..|pats|] == pats;
  }

  // ----- relating find_next to one run of Feed -----

  lemma NoneStartsHere(buffer: seq<Byte>, pats: seq<seq<Byte>>, i: nat, upTo: nat)
    requires i < upTo <= |buffer| && NoneStarts(buffer, pats, i, upTo)
    ensures LongestAt(pats, buffer[i..]) == 0
  {
    hide OccursAt, Starts, LongestAt;
    if LongestAt(pats, buffer[i..]) > 0 {
      var p :| 0 <= p < |pats| && Starts(buffer[i..], pats[p]);
      OccursIsStarts(buffer, pats[p], i);
    }
  }

  lemma {:induction false} FeedSkip(c: Config, buffer: seq<Byte>, position: nat, upTo: nat, hold: nat)
    requires position <= upTo && upTo + hold <= |buffer| && NoneStarts(buffer, c.patterns, position, upTo)
    ensures var r, r' := Feed(c.patterns, c.marker, buffer[position..], hold), Feed(c.patterns, c.marker, buffer[upTo..], hold);
            r.out == buffer[position..upTo] + r'.out && r.count == r'.count && r.rest == r'.rest
    decreases upTo - position
  {
    hide LongestAt, OccursAt, Feed;
    if position < upTo {
      var s := buffer[position..];
      NoneStartsHere(buffer, c.patterns, position, upTo);
      FeedUnfold(c.patterns, c.marker, s, hold);
      assert s[1..] == buffer[position + 1..];
      FeedSkip(c, buffer, position + 1, upTo, hold);
      var tail := Feed(c.patterns, c.marker, buffer[upTo..], hold).out;
      assert s[..1] + buffer[position + 1..upTo] == buffer[position..upTo];
      assert s[..1] + (buffer[position + 1..upTo] + tail) == buffer[position..upTo] + tail;
    }
  }

  lemma FeedHit(c: Config, buffer: seq<Byte>, start: nat, index: nat, hold: nat)
    requires Usable(c.patterns) && index < |c.patterns| && start + hold < |buffer|
    requires OccursAt(buffer, c.patterns[index], start)
    requires forall p :: 0 <= p < |c.patterns| && OccursAt(buffer, c.patterns[p], start) ==> |c.patterns[p]| <= |c.patterns[index]|
    ensures var next := start + |c.patterns[index]|;
            var r, r' := Feed(c.patterns, c.marker, buffer[start..], hold), Feed(c.patterns, c.marker, buffer[next..], hold);
            && next <= |buffer|
            && r.out == c.marker + r'.out && r.count == 1 + r'.count && r.rest == r'.rest
  {
    hide LongestAt, Starts, Feed;
    var s := buffer[start..];
    FeedUnfold(c.patterns, c.marker, s, hold);
    var n := LongestAt(c.patterns, s);
    OccursIsStarts(buffer, c.patterns[index], start);
    assert n >= |c.patterns[index]| > 0;
    var p :| 0 <= p < |c.patterns| && Starts(s, c.patterns[p]) && |c.patterns[p]| == n;
    OccursIsStarts(buffer, c.patterns[p], start);
    assert s[n..] == buffer[start + n..];
  }

  /** After emitting `out` and `count` markers, `process` still has `buffer[position..]` to feed. */
  ghost predicate Feeding(c: Config, buffer: seq<Byte>, hold: nat, position: nat, out: seq<Byte>, count: nat) {
    && position <= |buffer|
    && Feed(c.patterns, c.marker, buffer, hold).out == out + Feed(c.patterns, c.marker, buffer[position..], hold).out
    && Feed(c.patterns, c.marker, buffer, hold).count == count + Feed(c.patterns, c.marker, buffer[position..], hold).count
    && Feed(c.patterns, c.marker, buffer, hold).rest == Feed(c.patterns, c.marker, buffer[position..], hold).rest
  }

  lemma FeedingStart(c: Config, buffer: seq<Byte>, hold: nat)
    ensures Feeding(c, buffer, hold, 0, [], 0)
  {
    hide Feed;
    assert buffer[0..] == buffer;
  }

  lemma FeedingSkip(c: Config, buffer: seq<Byte>, hold: nat, position: nat, out: seq<Byte>, count: nat, upTo: nat)
    requires Feeding(c, buffer, hold, position, out, count)
    requires position <= upTo && upTo + hold <= |buffer| && NoneStarts(buffer, c.patterns, position, upTo)
    ensures Feeding(c, buffer, hold, upTo, out + buffer[position..upTo], count)
  {
    hide Feed, NoneStarts;
    FeedSkip(c, buffer, position, upTo, hold);
  }

  lemma FeedingHit(c: Config, buffer: seq<Byte>, hold: nat, out: seq<Byte>, count: nat, start: nat, index: nat)
    requires Usable(c.patterns) && Feeding(c, buffer, hold, start, out, count)
    requires start + hold < |buffer| && IsNext(buffer, c.patterns, start, |buffer| - hold, start, index)
    ensures 0 < |c.patterns[index]| && start + |c.patterns[index]| <= |buffer|
    ensures Feeding(c, buffer, hold, start + |c.patterns[index]|, out + c.marker, count + 1)
  {
    hide Feed, OccursAt;
    FeedHit(c, buffer, start, index, hold);
  }

  lemma FeedingEnd(c: Config, buffer: seq<Byte>, hold: nat, position: nat, out: seq<Byte>, count: nat)
    requires Feeding(c, buffer, hold, position, out, count) && |buffer| - position <= hold
    ensures Feed(c.patterns, c.marker, buffer, hold) == Fed(out, count, buffer[position..])
  {
    assert out + [] == out;
  }

  lemma NextFrom(hay: seq<Byte>, pats: seq<seq<Byte>>, position: nat, safeEnd: nat, start: nat, index: nat)
    requires IsNext(hay, pats, position, safeEnd, start, index)
    ensures NoneStarts(hay, pats, position, start) && position <= start < safeEnd
    ensures IsNext(hay, pats, start, safeEnd, start, index)
  {
    hide OccursAt;
  }

  class StreamingRedactor {
    const config: Config
    const maximumPatternBytes: nat
    const utf8: Utf8Escaper
    const capture: BoundedCapture
    var pending: seq<Byte>
    var redactionCount: nat
    /** Everything pushed so far. */
    ghost var raw: seq<Byte>
    /** Everything handed to the escaper so far, and how many markers that includes. */
    ghost var emitted: seq<Byte>
    ghost var replacements: nat

    ghost predicate Linked()
      reads this`emitted, this`replacements, this`redactionCount, utf8, capture
    {
      && ValidConfig(config)
      && maximumPatternBytes == MaxLen(config.patterns)
      && capture.Valid() && capture.limit == config.limit
      && redactionCount == Saturate(replacements)
      && EscapeTracks(emitted, capture.text, utf8.pending)
    }

    ghost predicate Valid()
      reads this, utf8, capture
    {
      && Linked()
      && (!config.suppressed ==> ReplaceTracks(config, raw, emitted, replacements, pending))
    }

    constructor (config: Config)
      requires ValidConfig(config)
      ensures Valid() && raw == [] && this.config == config
      ensures fresh(utf8) && fresh(capture)
    {
      hide Mirrors, ReplaceTracks, EscapeTracks, MaxLen, Usable;
      this.config := config;
      maximumPatternBytes := MaxLen(config.patterns);
      utf8 := new Utf8Escaper();
      capture := new BoundedCapture(config.limit);
      pending, redactionCount := [], 0;
      raw, emitted, replacements := [], [], 0;
      new;
      hide *;
      StartsValid();
    }

    lemma StartsValid()
      requires ValidConfig(config) && maximumPatternBytes == MaxLen(config.patterns)
      requires capture.Valid() && capture.limit == config.limit && capture.text == [] && utf8.pending == []
      requires pending == [] && raw == [] && emitted == [] && replacements == 0 && redactionCount == 0
      ensures Valid()
    {
      hide Mirrors, ReplaceTracks, EscapeTracks, MaxLen;
      TracksStart(config);
    }

    /** `StreamingRedactor::new` with its range check. */
    static method New(secrets: seq<Secret>, limit: nat) returns (r: Option<StreamingRedactor>)
      ensures r.None? <==> !(128 <= limit <= 2 * 1024 * 1024)
      ensures r.Some? ==> fresh(r.value) && fresh(r.value.utf8) && fresh(r.value.capture)
      ensures r.Some? ==> r.value.Valid() && r.value.raw == [] && r.value.config == ConfigFor(secrets, limit)
    {
      if !(MIN_OUTPUT_LIMIT_BYTES <= limit <= MAX_OUTPUT_LIMIT_BYTES) {
        return None;
      }
      hide Mirrors, ReplaceTracks, EscapeTracks, MaxLen, Collect, SortByLength;
      PatternsAreTheForms(secrets);
      var patterns, suppressed := BuildPatterns(secrets);
      patterns := SortByLength(patterns);
      var marker := if ContainsPattern(REDACTION_MARKER, patterns) then [] else REDACTION_MARKER;
      var redactor := new StreamingRedactor(Config(patterns, marker, limit, suppressed));
      r := Some(redactor);
    }

    method Emit(bytes: seq<Byte>)
      requires Linked()
      modifies this`emitted, utf8, capture
      ensures Linked() && emitted == old(emitted) + bytes
    {
      hide Mirrors, EscapeTracks, MaxLen, ValidConfig, Drain;
      EscapeTracksPush(emitted, capture.text, utf8.pending, bytes);
      utf8.Push(bytes, capture);
      emitted := emitted + bytes;
    }

    /** `process`: replaces everything that can no longer change and keeps the rest pending. */
    method Process(finishing: bool)
      requires Linked()
      modifies this`pending, this`emitted, this`replacements, this`redactionCount, utf8, capture
      ensures Linked()
      ensures var hold := if finishing then 0 else maximumPatternBytes - 1;
              var r := Feed(config.patterns, config.marker, old(pending), hold);
              emitted == old(emitted) + r.out && replacements == old(replacements) + r.count && pending == r.rest
    {
      hide *;
      LinkedFacts();
      var buffer := pending;
      pending := [];
      ghost var hold := if finishing then 0 else maximumPatternBytes - 1;
      var safeEnd := if finishing then |buffer|
                     else if |buffer| >= maximumPatternBytes - 1 then |buffer| - (maximumPatternBytes - 1) else 0;
      var position := 0;
      ghost var out: seq<Byte>, count := [], 0;
      FeedingStart(config, buffer, hold);
      assert old(emitted) + out == old(emitted);
      while position < safeEnd
        invariant Linked() && Feeding(config, buffer, hold, position, out, count) && position <= |buffer|
        invariant emitted == old(emitted) + out && replacements == old(replacements) + count
        decreases |buffer| - position
      {
        var next := FindNext(buffer, position, safeEnd, config.patterns);
        if next.None? {
          FeedingSkip(config, buffer, hold, position, out, count, safeEnd);
          Emit(buffer[position..safeEnd]);
          out := out + buffer[position..safeEnd];
          position := safeEnd;
          break;
        }
        var (start, index) := next.value;
        NextFrom(buffer, config.patterns, position, safeEnd, start, index);
        FeedingSkip(config, buffer, hold, position, out, count, start);
        Emit(buffer[position..start]);
        out := out + buffer[position..start];
        NextIndex(buffer, config.patterns, start, safeEnd, start, index);
        FeedingHit(config, buffer, hold, out, count, start, index);
        Emit(config.marker);
        out := out + config.marker;
        position := start + |config.patterns[index]|;
        CountOne();
        count := count + 1;
      }
      FeedingEnd(config, buffer, hold, position, out, count);
      pending := buffer[position..];
    }

    lemma LinkedFacts()
      requires Linked()
      ensures Usable(config.patterns) && maximumPatternBytes == MaxLen(config.patterns)
    {
      hide Mirrors, EscapeTracks, MaxLen;
    }

    lemma ConfigIsValid()
      requires Valid()
      ensures ValidConfig(config)
    {
      hide Mirrors, EscapeTracks, ReplaceTracks, MaxLen, ValidConfig;
    }

    method CountOne()
      requires Linked()
      modifies this`replacements, this`redactionCount
      ensures Linked() && replacements == old(replacements) + 1
    {
      hide Mirrors, EscapeTracks, MaxLen, ValidConfig;
      redactionCount := Saturate(redactionCount + 1);
      replacements := replacements + 1;
    }

    method Push(bytes: seq<Byte>)
      requires Valid()
      modifies this`pending, this`raw, this`emitted, this`replacements, this`redactionCount, utf8, capture
      ensures Valid() && raw == old(raw) + bytes
    {
      hide Mirrors, ReplaceTracks, EscapeTracks, MaxLen, ValidConfig, Feed;
      raw := raw + bytes;
      if config.suppressed { return; }
      ReplaceTracksAppend(config, old(raw), emitted, replacements, pending, bytes);
      pending := pending + bytes;
      ReplaceTracksFeed(config, raw, emitted, replacements, pending, maximumPatternBytes - 1);
      Process(false);
    }

    /** The answer depends on the bytes pushed, not on how they were cut. */
    method Finish() returns (result: RedactedOutput)
      requires Valid()
      modifies this`pending, this`emitted, this`replacements, this`redactionCount, utf8, capture
      ensures config.limit >= MIN_OUTPUT_LIMIT_BYTES && result == Redact(config, old(raw))
      ensures Answers(config, old(raw), result)
    {
      hide Answers, Shows, Mirrors, ReplaceTracks, EscapeTracks, MaxLen, Feed, Replace, Escape, CaptureText, ContainsPattern, HexAll, WellFormed;
      ConfigIsValid();
      RedactAnswers(config, raw);
      if config.suppressed {
        return RedactedOutput([], 0, false, 0, true);
      }
      ReplaceTracksEnd(config, raw, emitted, replacements, pending);
      Process(true);
      EscapeTracksEnd(emitted, capture.text, utf8.pending);
      utf8.Finish(capture);
      var captured := capture.Finish();
      if ContainsPattern(captured.text, config.patterns) {
        return RedactedOutput([], redactionCount, captured.truncated, captured.omitted, true);
      }
      return RedactedOutput(captured.text, redactionCount, captured.truncated, captured.omitted, false);
    }
  }

  lemma NextIndex(hay: seq<Byte>, pats: seq<seq<Byte>>, position: nat, safeEnd: nat, start: nat, index: nat)
    requires IsNext(hay, pats, position, safeEnd, start, index)
    ensures index < |pats| && start + |pats[index]| <= |hay|
  {}

  /** The read loop of supervisor.rs: the reader may cut the stream anywhere. */
  method RedactReader(chunks: seq<seq<Byte>>, redactor: StreamingRedactor) returns (result: RedactedOutput)
    requires redactor.Valid() && redactor.raw == []
    modifies redactor, redactor.utf8, redactor.capture
    ensures redactor.config.limit >= MIN_OUTPUT_LIMIT_BYTES
    ensures result == Redact(redactor.config, Flatten(chunks))
    ensures Answers(redactor.config, Flatten(chunks), result)
  {
    hide *;
    assert chunks[..0] == [];
    FlattenNothing();
    for i := 0 to |chunks|
      invariant redactor.Valid() && redactor.raw == Flatten(chunks[..i])
    {
      redactor.Push(chunks[i]);
      FlattenAppend(chunks[..i], chunks[i]);
      assert chunks[..i] + [chunks[i]] == chunks[..i + 1];
    }
    assert chunks[..|chunks|] == chunks;
    result := redactor.Finish();
  }

  lemma FlattenNothing()
    ensures Flatten([]) == []
  {}
}
