/** What a run returns: two redacted streams brought under one output limit (supervisor.rs). */
module RunOutput {
  import opened Bytes
  import opened Utf8
  import opened Capture
  import opened Needles
  import opened Redactor
  import opened Encodings

  /** The last character boundary at or before `i`. */
  function Floor(s: seq<Byte>, i: nat): (r: nat)
    requires i <= |s|
    ensures r <= i && Boundary(s, r)
    ensures forall j :: r < j <= i ==> !Boundary(s, j)
  {
    if Boundary(s, i) then i else Floor(s, i - 1)
  }

  function Truncate(s: seq<Byte>, limit: nat): seq<Byte> {
    if |s| <= limit then s else s[..Floor(s, limit)]
  }

  /** `truncate_utf8` */
  method TruncateUtf8(value: seq<Byte>, limit: nat) returns (r: seq<Byte>)
    ensures r == Truncate(value, limit)
  {
    if |value| <= limit { return value; }
    var end: nat := limit;
    while !Boundary(value, end)
      invariant end <= limit && Floor(value, end) == Floor(value, limit)
      decreases end
    {
      assert Boundary(value, 0);
      end := end - 1;
    }
    return value[..end];
  }

  /** `String::pop` */
  function Pop(s: seq<Byte>): (r: seq<Byte>)
    requires s != []
    ensures |r| < |s| && r == s[..|r|]
  {
    s[..Floor(s, |s| - 1)]
  }

  /** The trimming loop. (`is_char_boundary(len)` always holds, so the inner loops do nothing.) */
  function Balance(o: seq<Byte>, e: seq<Byte>, limit: nat): (r: (seq<Byte>, seq<Byte>))
    ensures |r.0| <= |o| && r.0 == o[..|r.0|]
    ensures |r.1| <= |e| && r.1 == e[..|r.1|]
    ensures |r.0| + |r.1| <= limit
    decreases |o| + |e|
  {
    if |o| + |e| <= limit then (o, e)
    else if |o| >= |e| && o != [] then Balance(Pop(o), e, limit)
    else Balance(o, Pop(e), limit)
  }

  function Max(a: nat, b: nat): nat { if a > b then a else b }

  datatype Combined = Combined(stdout: seq<Byte>, stderr: seq<Byte>, truncated: bool, omitted: nat)

  function Combine(stdout: seq<Byte>, stderr: seq<Byte>, limit: nat): Combined {
    if |stdout| + |stderr| <= limit then Combined(stdout, stderr, false, 0)
    else
      var o := Truncate(stdout, Max(limit / 2, MIN_OUTPUT_LIMIT_BYTES / 2));
      var e := Truncate(stderr, Max(limit - limit / 2, MIN_OUTPUT_LIMIT_BYTES / 2));
      var (o', e') := Balance(o, e, limit);
      Combined(o', e', true, |stdout| + |stderr| - |o'| - |e'|)
  }

  method EnforceCombinedLimit(stdout: seq<Byte>, stderr: seq<Byte>, limit: nat) returns (r: Combined)
    ensures r == Combine(stdout, stderr, limit)
  {
    if |stdout| + |stderr| <= limit {
      return Combined(stdout, stderr, false, 0);
    }
    var originalBytes := |stdout| + |stderr|;
    var stdoutBudget := limit / 2;
    var stderrBudget := limit - stdoutBudget;
    var o := TruncateUtf8(stdout, Max(stdoutBudget, MIN_OUTPUT_LIMIT_BYTES / 2));
    var e := TruncateUtf8(stderr, Max(stderrBudget, MIN_OUTPUT_LIMIT_BYTES / 2));
    ghost var target := Balance(o, e, limit);
    while |o| + |e| > limit
      invariant Balance(o, e, limit) == target
      decreases |o| + |e|
    {
      if |o| >= |e| && o != [] {
        o := Pop(o);
      } else {
        e := Pop(e);
      }
    }
    return Combined(o, e, true, originalBytes - |o| - |e|);
  }

  lemma {:induction false} BalanceKeepsWhole(o: seq<Byte>, e: seq<Byte>, limit: nat)
    requires WellFormed(o) && WellFormed(e)
    ensures WellFormed(Balance(o, e, limit).0) && WellFormed(Balance(o, e, limit).1)
    decreases |o| + |e|
  {
    if |o| + |e| > limit {
      if |o| >= |e| && o != [] {
        BoundaryCutsBetweenChars(o, Floor(o, |o| - 1));
        BalanceKeepsWhole(Pop(o), e, limit);
      } else {
        BoundaryCutsBetweenChars(e, Floor(e, |e| - 1));
        BalanceKeepsWhole(o, Pop(e), limit);
      }
    }
  }

  /** For any limit: both streams are cut to character-aligned prefixes that fit together, and the
      omitted count is exactly what was cut. */
  lemma CombinedFits(stdout: seq<Byte>, stderr: seq<Byte>, limit: nat)
    requires WellFormed(stdout) && WellFormed(stderr)
    ensures var r := Combine(stdout, stderr, limit);
            && |r.stdout| <= |stdout| && r.stdout == stdout[..|r.stdout|] && WellFormed(r.stdout)
            && |r.stderr| <= |stderr| && r.stderr == stderr[..|r.stderr|] && WellFormed(r.stderr)
            && |r.stdout| + |r.stderr| <= limit
            && |r.stdout| + |r.stderr| + r.omitted == |stdout| + |stderr|
            && (r.truncated <==> |stdout| + |stderr| > limit)
  {
    hide CharLen, WellFormed, Truncate, Balance;
    if |stdout| + |stderr| > limit {
      var o, e := Truncate(stdout, Max(limit / 2, MIN_OUTPUT_LIMIT_BYTES / 2)), Truncate(stderr, Max(limit - limit / 2, MIN_OUTPUT_LIMIT_BYTES / 2));
      TruncateIsPrefix(stdout, Max(limit / 2, MIN_OUTPUT_LIMIT_BYTES / 2));
      TruncateIsPrefix(stderr, Max(limit - limit / 2, MIN_OUTPUT_LIMIT_BYTES / 2));
      BalanceKeepsWhole(o, e, limit);
      var r := Balance(o, e, limit);
      PrefixOfPrefix(stdout, |o|, |r.0|);
      PrefixOfPrefix(stderr, |e|, |r.1|);
    }
  }

  /** The cut is between characters. */
  lemma TruncateIsPrefix(s: seq<Byte>, limit: nat)
    requires WellFormed(s)
    ensures var t := Truncate(s, limit); |t| <= |s| && t == s[..|t|] && WellFormed(t)
  {
    hide CharLen, WellFormed, Boundary;
    if |s| > limit {
      FloorIsBoundary(s, limit);
      BoundaryCutsBetweenChars(s, Floor(s, limit));
    }
  }

  lemma {:induction false} FloorIsBoundary(s: seq<Byte>, i: nat)
    requires i <= |s|
    ensures Boundary(s, Floor(s, i))
  {
    if !Boundary(s, i) { FloorIsBoundary(s, i - 1); }
  }

  lemma PrefixOfPrefix(s: seq<Byte>, n: nat, m: nat)
    requires m <= n <= |s|
    ensures s[..n][..m] == s[..m]
  {}

  lemma PrefixStaysClean(text: seq<Byte>, n: nat, pats: seq<seq<Byte>>)
    requires n <= |text| && forall i :: 0 <= i < |pats| ==> !Contains(text, pats[i])
    ensures forall i :: 0 <= i < |pats| ==> !Contains(text[..n], pats[i])
  {
    forall i | 0 <= i < |pats| ensures !Contains(text[..n], pats[i]) {
      if Contains(text[..n], pats[i]) { PrefixContains(text, n, pats[i]); }
    }
  }

  // ----- which prefixes are kept -----

  lemma TruncateIsLongest(s: seq<Byte>, cap: nat)
    ensures var t := Truncate(s, cap); |t| <= |s| && t == s[..|t|] && LastBoundary(s, cap, |t|)
  {
    if |s| > cap { assert |s[..Floor(s, cap)]| == Floor(s, cap); }
  }

  /** Both streams when they fit together; otherwise of each the longest prefix of whole characters that
      fits its half. */
  ghost predicate SharesLimit(stdout: seq<Byte>, stderr: seq<Byte>, limit: nat, r: Combined) {
    if |stdout| + |stderr| <= limit then r == Combined(stdout, stderr, false, 0)
    else
      && LastBoundary(stdout, limit / 2, |r.stdout|) && LastBoundary(stderr, limit - limit / 2, |r.stderr|)
      && r == Combined(stdout[..|r.stdout|], stderr[..|r.stderr|], true, |stdout| - |r.stdout| + |stderr| - |r.stderr|)
  }

  /** With any limit that `StreamingRedactor::new` accepts, two halves fit, so nothing is left to balance. */
  lemma CombinedExactly(stdout: seq<Byte>, stderr: seq<Byte>, limit: nat)
    requires MIN_OUTPUT_LIMIT_BYTES <= limit
    ensures SharesLimit(stdout, stderr, limit, Combine(stdout, stderr, limit))
  {
    hide Truncate, LastBoundary;
    TruncateIsLongest(stdout, limit / 2);
    TruncateIsLongest(stderr, limit - limit / 2);
    FitsCap(stdout, limit / 2);
    FitsCap(stderr, limit - limit / 2);
  }

  lemma FitsCap(s: seq<Byte>, cap: nat)
    ensures |Truncate(s, cap)| <= cap
  {}

  lemma StartsBoundary(s: seq<Byte>, b: nat, n: nat)
    requires b + n < |s| && !Tail(s[b..][n..][0])
    ensures Boundary(s, b + n)
  {}

  /** The character that `pop` takes off. */
  lemma PopsOneCharacter(s: seq<Byte>)
    requires WellFormed(s) && s != []
    ensures WellFormed(Pop(s)) && CharLen(s[|Pop(s)|..]) == |s| - |Pop(s)|
  {
    hide CharLen, Tail;
    var b := |Pop(s)|;
    BoundaryCutsBetweenChars(s, b);
    var rest := s[b..];
    Peel(rest);
    var n := CharLen(rest);
    if b + n < |s| {
      CharStarts(rest[n..]);
      StartsBoundary(s, b, n);
    }
  }

  /** The width of the first character that was cut off `s`, of which `t` was kept. */
  function NextWidth(s: seq<Byte>, t: seq<Byte>): nat
    requires |t| <= |s|
  {
    CharLen(s[|t|..])
  }

  /** Characters go off the longer stream, the first one when both are equally long, and the last that
      went had to go. */
  ghost predicate StoppedInTime(o: seq<Byte>, e: seq<Byte>, limit: nat, r: (seq<Byte>, seq<Byte>))
    requires |r.0| <= |o| && |r.1| <= |e|
  {
    || r == (o, e)
    || (|r.0| < |o| && |r.0| + NextWidth(o, r.0) + |r.1| > limit && |r.0| + NextWidth(o, r.0) >= |r.1|)
    || (|r.1| < |e| && |r.0| + |r.1| + NextWidth(e, r.1) > limit && |r.0| < |r.1| + NextWidth(e, r.1))
  }

  lemma SameWidth(s: seq<Byte>, n: nat, t: seq<Byte>)
    requires |t| < n <= |s| && CharLen(s[..n][|t|..]) > 0
    ensures NextWidth(s, t) == NextWidth(s[..n], t)
  {
    assert s[|t|..] == s[..n][|t|..] + s[n..];
    CharLenStable(s[..n][|t|..], s[n..]);
  }

  /** A character was cut off here. */
  lemma CutHasWidth(s: seq<Byte>, t: seq<Byte>)
    requires WellFormed(s) && |t| < |s| && t == s[..|t|] && WellFormed(t)
    ensures NextWidth(s, t) > 0
  {
    hide CharLen;
    CutIsBoundary(s, |t|);
    BoundaryCutsBetweenChars(s, |t|);
  }

  lemma {:induction false} BalanceStopsInTime(o: seq<Byte>, e: seq<Byte>, limit: nat)
    requires WellFormed(o) && WellFormed(e)
    ensures StoppedInTime(o, e, limit, Balance(o, e, limit))
    decreases |o| + |e|
  {
    hide CharLen, Boundary, Pop, WellFormed;
    if |o| + |e| > limit {
      var r := Balance(o, e, limit);
      if |o| >= |e| && o != [] {
        PopsOneCharacter(o);
        BalanceStopsInTime(Pop(o), e, limit);
        BalanceKeepsWhole(Pop(o), e, limit);
        if |r.0| < |Pop(o)| {
          CutHasWidth(Pop(o), r.0);
          SameWidth(o, |Pop(o)|, r.0);
        }
      } else {
        PopsOneCharacter(e);
        BalanceStopsInTime(o, Pop(e), limit);
        BalanceKeepsWhole(o, Pop(e), limit);
        if |r.1| < |Pop(e)| {
          CutHasWidth(Pop(e), r.1);
          SameWidth(e, |Pop(e)|, r.1);
        }
      }
    }
  }

  // ----- what a run returns -----

  /** The output part of `RunResult`. */
  datatype Report = Report(stdout: seq<Byte>, stderr: seq<Byte>, redactionCount: nat, truncated: bool, omittedBytes: nat, suppressed: bool)

  function ReportOf(out: RedactedOutput, err: RedactedOutput, limit: nat): Report {
    var combined := Combine(out.text, err.text, limit);
    Report(combined.stdout, combined.stderr, Saturate(out.redactionCount + err.redactionCount),
           out.truncated || err.truncated || combined.truncated,
           Saturate(Saturate(out.omittedBytes + err.omittedBytes) + combined.omitted),
           out.suppressed || err.suppressed)
  }

  function RunReport(secrets: seq<Secret>, limit: nat, rawOut: seq<Byte>, rawErr: seq<Byte>): Report
    requires MIN_OUTPUT_LIMIT_BYTES <= limit <= MAX_OUTPUT_LIMIT_BYTES
  {
    ReportOf(Redact(ConfigFor(secrets, limit), rawOut), Redact(ConfigFor(secrets, limit), rawErr), limit)
  }

  lemma ConfigForIsValid(secrets: seq<Secret>, limit: nat)
    requires MIN_OUTPUT_LIMIT_BYTES <= limit <= MAX_OUTPUT_LIMIT_BYTES
    ensures ValidConfig(ConfigFor(secrets, limit))
  {
    hide PatternsFor, ContainsPattern, SpellsOut;
    PatternsAreTheForms(secrets);
  }

  lemma RedactedIsClean(secrets: seq<Secret>, limit: nat, raw: seq<Byte>, n: nat)
    requires MIN_OUTPUT_LIMIT_BYTES <= limit <= MAX_OUTPUT_LIMIT_BYTES
    requires n <= |Redact(ConfigFor(secrets, limit), raw).text|
    ensures !Reveals(Redact(ConfigFor(secrets, limit), raw).text[..n], secrets)
  {
    hide Redact, PatternsFor, Reveals, Contains, WellFormed;
    var c := ConfigFor(secrets, limit);
    ConfigForIsValid(secrets, limit);
    RedactedTextIsClean(c, raw);
    PrefixStaysClean(Redact(c, raw).text, n, c.patterns);
    RevealsExactly(Redact(c, raw).text[..n], secrets);
  }

  /** Whatever the child writes, neither returned stream contains a text that spells out a bound secret:
      its bytes, or anything that decodes to them as hex, base64, JSON or percent-encoding. Together they
      fit the limit. */
  lemma RunOutputIsClean(secrets: seq<Secret>, limit: nat, rawOut: seq<Byte>, rawErr: seq<Byte>)
    requires MIN_OUTPUT_LIMIT_BYTES <= limit <= MAX_OUTPUT_LIMIT_BYTES
    ensures var r := RunReport(secrets, limit, rawOut, rawErr);
            && |r.stdout| + |r.stderr| <= limit
            && WellFormed(r.stdout) && WellFormed(r.stderr)
            && !Reveals(r.stdout, secrets) && !Reveals(r.stderr, secrets)
  {
    hide Redact, Combine, Reveals, ConfigFor, WellFormed, ValidConfig;
    var c := ConfigFor(secrets, limit);
    ConfigForIsValid(secrets, limit);
    LimitOf(secrets, limit);
    RedactedTextIsClean(c, rawOut);
    RedactedTextIsClean(c, rawErr);
    var o, e := Redact(c, rawOut).text, Redact(c, rawErr).text;
    CombinedFits(o, e, limit);
    RedactedIsClean(secrets, limit, rawOut, |Combine(o, e, limit).stdout|);
    RedactedIsClean(secrets, limit, rawErr, |Combine(o, e, limit).stderr|);
  }

  lemma LimitOf(secrets: seq<Secret>, limit: nat)
    ensures ConfigFor(secrets, limit).limit == limit
  {
    hide PatternsFor, ContainsPattern;
  }

  /** What is returned is made of the answers for the two streams: each is cut to its half only when both
      do not fit, and the numbers add up over the streams. */
  lemma ReportMeans(secrets: seq<Secret>, limit: nat, rawOut: seq<Byte>, rawErr: seq<Byte>) returns (out: RedactedOutput, err: RedactedOutput)
    requires MIN_OUTPUT_LIMIT_BYTES <= limit <= MAX_OUTPUT_LIMIT_BYTES
    ensures Answers(ConfigFor(secrets, limit), rawOut, out) && Answers(ConfigFor(secrets, limit), rawErr, err)
    ensures exists c: Combined :: SharesLimit(out.text, err.text, limit, c) &&
              RunReport(secrets, limit, rawOut, rawErr) == Report(c.stdout, c.stderr, Saturate(out.redactionCount + err.redactionCount),
                out.truncated || err.truncated || c.truncated,
                Saturate(out.omittedBytes + err.omittedBytes + c.omitted), out.suppressed || err.suppressed)
  {
    hide Redact, Combine, ConfigFor, ValidConfig, Answers, SharesLimit;
    var c := ConfigFor(secrets, limit);
    ConfigForIsValid(secrets, limit);
    LimitOf(secrets, limit);
    LimitIsValid(c);
    out, err := Redact(c, rawOut), Redact(c, rawErr);
    RedactAnswers(c, rawOut);
    RedactAnswers(c, rawErr);
    CombinedExactly(out.text, err.text, limit);
    var combined := Combine(out.text, err.text, limit);
    assert SharesLimit(out.text, err.text, limit, combined);
  }

  lemma LimitIsValid(c: Config)
    requires ValidConfig(c)
    ensures MIN_OUTPUT_LIMIT_BYTES <= c.limit <= MAX_OUTPUT_LIMIT_BYTES
  {}

  /** A child that writes text, reveals nothing and stays within the limit has its output returned as it
      is. */
  lemma CleanRunIsUnchanged(secrets: seq<Secret>, limit: nat, rawOut: seq<Byte>, rawErr: seq<Byte>)
    requires MIN_OUTPUT_LIMIT_BYTES <= limit <= MAX_OUTPUT_LIMIT_BYTES
    requires forall i :: 0 <= i < |secrets| ==> |secrets[i].value| == 0 || |secrets[i].value| >= 4
    requires WellFormed(rawOut) && WellFormed(rawErr) && !Reveals(rawOut, secrets) && !Reveals(rawErr, secrets)
    requires |rawOut| <= limit - 3 && |rawErr| <= limit - 3 && |rawOut| + |rawErr| <= limit
    ensures RunReport(secrets, limit, rawOut, rawErr) == Report(rawOut, rawErr, 0, false, 0, false)
  {
    hide Redact, PatternsFor, Reveals, Contains, WellFormed, ValidConfig;
    var c := ConfigFor(secrets, limit);
    ConfigForIsValid(secrets, limit);
    LimitIsValid(c);
    RevealsExactly(rawOut, secrets);
    RevealsExactly(rawErr, secrets);
    CleanTextComesBack(c, rawOut);
    CleanTextComesBack(c, rawErr);
  }

  /** The output half of `execute`. */
  method CollectOutput(secrets: seq<Secret>, limit: nat, outChunks: seq<seq<Byte>>, errChunks: seq<seq<Byte>>)
    returns (r: Option<Report>)
    ensures r.None? <==> !(128 <= limit <= 2 * 1024 * 1024)
    ensures r.Some? ==> r.value == RunReport(secrets, limit, Flatten(outChunks), Flatten(errChunks))
  {
    hide Redact, ConfigFor, Combine, Flatten, ValidConfig, Mirrors, ReplaceTracks, EscapeTracks, Answers;
    var first := StreamingRedactor.New(secrets, limit);
    var second := StreamingRedactor.New(secrets, limit);
    if first.None? || second.None? { return None; }
    var stdout := RedactReader(outChunks, first.value);
    var stderr := RedactReader(errChunks, second.value);
    var combined := EnforceCombinedLimit(stdout.text, stderr.text, limit);
    return Some(Report(
      combined.stdout, combined.stderr, Saturate(stdout.redactionCount + stderr.redactionCount),
      stdout.truncated || stderr.truncated || combined.truncated,
      Saturate(Saturate(stdout.omittedBytes + stderr.omittedBytes) + combined.omitted),
      stdout.suppressed || stderr.suppressed));
  }
}
