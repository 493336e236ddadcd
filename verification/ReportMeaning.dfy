/**
 What an accepted report says, in terms of the numbers it was made from: sums, counts and percentiles by
 their defining properties, and for every event and every closing status exactly when it is given.
 */
module ReportMeaning {
  import opened Records
  import opened BaselineReport

  // ---------------------------------------------------------------- counts, sums and percentiles

  datatype Test = AtMost(bound: int) | Below(bound: int)

  predicate Meets(t: Test, x: int) {
    match t case AtMost(b) => x <= b case Below(b) => x < b
  }

  /** How many of the values meet the test. */
  function CountIf(values: seq<int>, t: Test): nat {
    if values == [] then 0 else (if Meets(t, values[0]) then 1 else 0) + CountIf(values[1..], t)
  }

  function SumFrom(values: seq<int>): int {
    if values == [] then 0 else values[0] + SumFrom(values[1..])
  }

  lemma {:induction false} SumMeans(values: seq<int>)
    ensures Sum(values) == SumFrom(values)
  {
    if values != [] {
      var front, last := values[..|values| - 1], values[|values| - 1];
      SumMeans(front);
      SumLast(front, last);
      assert values == front + [last];
    }
  }

  lemma {:induction false} SumLast(values: seq<int>, x: int)
    ensures SumFrom(values + [x]) == SumFrom(values) + x
  {
    if values == [] {
      assert values + [x] == [x] && [x][1..] == [];
    } else {
      assert (values + [x])[1..] == values[1..] + [x];
      SumLast(values[1..], x);
    }
  }

  lemma {:induction false} InsertKeeps(x: int, values: seq<int>, t: Test)
    ensures CountIf(Insert(x, values), t) == CountIf(values, t) + (if Meets(t, x) then 1 else 0)
    ensures SumFrom(Insert(x, values)) == SumFrom(values) + x
  {
    if values == [] || x <= values[0] {
      assert ([x] + values)[1..] == values;
    } else {
      InsertKeeps(x, values[1..], t);
      assert ([values[0]] + Insert(x, values[1..]))[1..] == Insert(x, values[1..]);
    }
  }

  /** Sorting changes neither how many values satisfy anything nor their sum. */
  lemma {:induction false} SortedKeeps(values: seq<int>, t: Test)
    ensures CountIf(Sorted(values), t) == CountIf(values, t) && SumFrom(Sorted(values)) == SumFrom(values)
  {
    if values != [] {
      SortedKeeps(values[1..], t);
      InsertKeeps(values[0], Sorted(values[1..]), t);
    }
  }

  lemma {:induction false} CountAtLeast(values: seq<int>, t: Test, n: nat)
    requires n <= |values| && forall i :: 0 <= i < n ==> Meets(t, values[i])
    ensures CountIf(values, t) >= n
  {
    if n > 0 { CountAtLeast(values[1..], t, n - 1); }
  }

  lemma {:induction false} CountAtMost(values: seq<int>, t: Test, n: nat)
    requires n <= |values| && forall i :: n <= i < |values| ==> !Meets(t, values[i])
    ensures CountIf(values, t) <= n
  {
    if values != [] { CountAtMost(values[1..], t, if n == 0 then 0 else n - 1); }
  }

  /** A percentile by its defining property: at least that share of the values is at or below it, and less than
      that share is strictly below it. */
  ghost predicate Percentile(values: seq<int>, percent: nat, x: int) {
    100 * CountIf(values, AtMost(x)) >= percent * |values| && 100 * CountIf(values, Below(x)) < percent * |values|
  }

  lemma PercentileMeans(values: seq<int>, percent: nat)
    requires 1 <= percent <= 100 && values != []
    ensures |Sorted(values)| == |values| && Percentile(values, percent, Sorted(values)[Rank(percent, |values|)])
  {
    hide Sorted, CountIf, Rank, SumFrom;
    SortedLength(values);
    SortedAscending(values);
    var sorted, r := Sorted(values), Rank(percent, |values|);
    SortedKeeps(values, AtMost(sorted[r]));
    SortedKeeps(values, Below(sorted[r]));
    RankedCounts(sorted, r);
  }

  lemma RankedCounts(sorted: seq<int>, r: nat)
    requires r < |sorted| && Ascending(sorted)
    ensures CountIf(sorted, AtMost(sorted[r])) >= r + 1 && CountIf(sorted, Below(sorted[r])) <= r
  {
    hide CountIf;
    CountAtLeast(sorted, AtMost(sorted[r]), r + 1);
    CountAtMost(sorted, Below(sorted[r]), r);
  }

  lemma {:induction false} CountPassedMeans(samples: seq<Sample>)
    ensures CountPassed(samples) == |set i | 0 <= i < |samples| && samples[i].passed|
  {
    var all := set i | 0 <= i < |samples| && samples[i].passed;
    if samples == [] {
      assert all == {};
    } else {
      var n := |samples| - 1;
      var front := samples[..n];
      CountPassedMeans(front);
      var before := set i | 0 <= i < |front| && front[i].passed;
      assert all == before + (if samples[n].passed then {n} else {});
    }
  }

  datatype Field =
    | KnownCalls | MissingCalls | ModelCalls | ToolCalls | Duration
    | InputTokens | OutputTokens | CacheReads | CacheWrites | ReasoningTokens

  /** One number of a sample; unknown token counts are zero. */
  function Read(f: Field, s: Sample): int {
    var t := if s.usage.known.Some? then s.usage.known.value else Tokens(0, 0, 0, 0, 0);
    match f
    case KnownCalls => s.usage.knownCalls
    case MissingCalls => s.usage.missingCalls
    case ModelCalls => s.modelCalls
    case ToolCalls => s.toolCalls
    case Duration => s.durationMs
    case InputTokens => t.input
    case OutputTokens => t.output
    case CacheReads => t.cacheRead
    case CacheWrites => t.cacheWrite
    case ReasoningTokens => t.reasoning
  }

  /** That number summed over all samples. */
  function Total(samples: seq<Sample>, f: Field): int {
    if samples == [] then 0 else Read(f, samples[0]) + Total(samples[1..], f)
  }

  lemma {:induction false} TotalLast(samples: seq<Sample>, x: Sample, f: Field)
    ensures Total(samples + [x], f) == Total(samples, f) + Read(f, x)
  {
    hide Read;
    if samples == [] {
      assert samples + [x] == [x] && [x][1..] == [];
    } else {
      assert (samples + [x])[1..] == samples[1..] + [x];
      TotalLast(samples[1..], x, f);
    }
  }

  /** The usage and call totals are the sums over all samples. */
  lemma {:induction false} TotalsMean(samples: seq<Sample>)
    ensures Totals(samples) == (Total(samples, KnownCalls), Total(samples, MissingCalls),
                                Tokens(Total(samples, InputTokens), Total(samples, OutputTokens), Total(samples, CacheReads),
                                       Total(samples, CacheWrites), Total(samples, ReasoningTokens)))
    ensures Calls(samples) == (Total(samples, ModelCalls), Total(samples, ToolCalls))
  {
    hide Total;
    if samples == [] {
      forall f ensures Total(samples, f) == 0 { TotalNone(f); }
    } else {
      var front, last := samples[..|samples| - 1], samples[|samples| - 1];
      assert samples == front + [last];
      TotalsMean(front);
      TotalLast(front, last, KnownCalls);
      TotalLast(front, last, MissingCalls);
      TotalLast(front, last, ModelCalls);
      TotalLast(front, last, ToolCalls);
      TotalLast(front, last, InputTokens);
      TotalLast(front, last, OutputTokens);
      TotalLast(front, last, CacheReads);
      TotalLast(front, last, CacheWrites);
      TotalLast(front, last, ReasoningTokens);
    }
  }

  lemma TotalNone(f: Field)
    ensures Total([], f) == 0
  {
  }

  lemma {:induction false} DurationsTotal(samples: seq<Sample>)
    ensures SumFrom(SampleDurations(samples)) == Total(samples, Duration)
  {
    if samples != [] {
      assert SampleDurations(samples)[1..] == SampleDurations(samples[1..]);
      DurationsTotal(samples[1..]);
    }
  }

  /** The duration figures of a summary, by their defining properties. */
  ghost predicate Describes(d: Durations, samples: seq<Sample>) {
    var values := SampleDurations(samples);
    && d.count == |samples| && d.total == Total(samples, Duration)
    && (samples == [] ==> d == Durations(0, 0, 0, 0, 0, 0))
    && (samples != [] ==>
          && d.min in values && d.max in values && (forall i :: 0 <= i < |values| ==> d.min <= values[i] <= d.max)
          && d.p50 in values && d.p95 in values && Percentile(values, 50, d.p50) && Percentile(values, 95, d.p95))
  }

  lemma SortedMembers(values: seq<int>)
    ensures |Sorted(values)| == |values| && Ascending(Sorted(values))
    ensures forall x :: x in values <==> x in Sorted(values)
    ensures Sum(Sorted(values)) == SumFrom(values)
  {
    SortedLength(values);
    SortedAscending(values);
    SortedKeeps(values, AtMost(0));
    SumMeans(Sorted(values));
    hide Sorted, Sum, SumFrom;
    assert forall x :: x in Sorted(values) <==> x in multiset(Sorted(values));
    assert forall x :: x in values <==> x in multiset(values);
  }

  lemma Extremes(values: seq<int>, sorted: seq<int>)
    requires values != [] && |sorted| == |values| && Ascending(sorted) && forall x :: x in values <==> x in sorted
    ensures sorted[0] in values && sorted[|sorted| - 1] in values
    ensures forall i :: 0 <= i < |values| ==> sorted[0] <= values[i] <= sorted[|sorted| - 1]
  {
    assert sorted[0] in sorted && sorted[|sorted| - 1] in sorted;
    forall i | 0 <= i < |values| ensures sorted[0] <= values[i] <= sorted[|sorted| - 1] {
      var x := values[i];
      assert x in values;
      assert x in sorted;
      var k :| 0 <= k < |sorted| && sorted[k] == values[i];
    }
  }

  lemma DurationsMean(samples: seq<Sample>)
    ensures Describes(ExpectedDurations(samples), samples)
  {
    hide Sorted, Percentile, Total, SumFrom, Sum, Ascending, Rank;
    var values := SampleDurations(samples);
    var sorted := Sorted(values);
    SortedMembers(values);
    DurationsTotal(samples);
    if values == [] {
      TotalNone(Duration);
    } else {
      Extremes(values, sorted);
      PercentileMeans(values, 50);
      PercentileMeans(values, 95);
      assert sorted[Rank(50, |values|)] in sorted && sorted[Rank(95, |values|)] in sorted;
    }
  }

  // ---------------------------------------------------------------- exactly which events are accepted

  predicate Text(s: string) {
    s != "" && |s| < 257
  }

  predicate Nonnegative(x: int, limit: int) {
    0 <= x && x <= limit
  }

  /** A code is one of the launcher's own or a short word of letters, digits, dots, dashes and underscores. */
  lemma CodeMeans(c: Code)
    ensures ValidCode(c) <==>
              !c.OtherCode? || (c.text != "" && |c.text| <= 100 && forall i :: 0 <= i < |c.text| ==>
                ('A' <= c.text[i] <= 'Z' || 'a' <= c.text[i] <= 'z' || '0' <= c.text[i] <= '9' || c.text[i] in "_.-"))
  {
    assert "_.-"[0] == '_' && "_.-"[1] == '.' && "_.-"[2] == '-';
  }

  /** A start is accepted exactly as the first one, before any summary, echoing this launcher's configuration and
      asking for every case in every repetition; a pilot only in the quality suite with one repetition. */
  lemma StartExactly(r: Report, e: Start)
    ensures Accept(r, StartEvent(e)).Some? <==>
              && r.summary.None? && r.start.None? && e.schemaVersion == 1 && Text(e.taskVersion) && Text(e.datasetHash)
              && e.configuration == r.config && e.requested ==
                 (if r.config.quality then 40 * r.config.repetitions else 2 * r.config.repetitions)
              && (r.config.quality ==> e.taskVersion == "release-evidence-quality-v1") && e.preflightOnly != Some(false)
              && (e.pilotOnly, e.pilotCase) in {(None, None), (Some(true), Some(Quality(0, 1)))}
              && (e.pilotOnly.Some? ==> e.preflightOnly != Some(true) && r.config.quality && r.config.repetitions == 1)
    ensures Accept(r, StartEvent(e)).Some? ==> Accept(r, StartEvent(e)).value == r.(start := Some(e), error := None)
  {
    assert Text(e.taskVersion) == ShortText(e.taskVersion) && Text(e.datasetHash) == ShortText(e.datasetHash);
    assert ((e.pilotOnly, e.pilotCase) in {(None, None), (Some(true), Some(Quality(0, 1)))}) ==
           if e.pilotOnly.Some? then e.pilotOnly == Some(true) && e.pilotCase == Some(PILOT) else e.pilotCase == None;
    assert CaseCount(r.config) * r.config.repetitions ==
           if r.config.quality then 40 * r.config.repetitions else 2 * r.config.repetitions;
  }

  /** An error is accepted once per start, and a report that has its summary accepts nothing more. */
  lemma OtherExactly(r: Report, f: Failure, e: Event)
    ensures Accept(r, ErrorEvent(f)).Some? <==> r.summary.None? && r.error.None? && ValidCode(f.stage) && ValidCode(f.code)
    ensures Accept(r, ErrorEvent(f)).Some? ==> Accept(r, ErrorEvent(f)).value == r.(error := Some(f))
    ensures Accept(r, UnknownEvent).None? && (r.summary.Some? ==> Accept(r, e).None?)
  {
    hide SampleOk, StartOk, PreflightOk, SummaryOk;
  }

  predicate TokensBounded(t: Tokens) {
    && Nonnegative(t.input, LIMIT) && Nonnegative(t.output, LIMIT) && Nonnegative(t.cacheRead, LIMIT)
    && Nonnegative(t.cacheWrite, LIMIT) && Nonnegative(t.reasoning, LIMIT)
  }

  predicate Schematic(p: Preflight) {
    !p.passed && p.failureCode == Some(StrictSchemaProbeFailed)
  }

  /** A preflight is accepted exactly once, after the start and before any sample; a failed one carries a code; the
      schema and wire checks only with a failed strict-schema probe, the wire check and the tool probe only for one
      provider; a tool probe alone, with the same verdict, and it is required where the profile asks for it. */
  lemma PreflightExactly(r: Report, p: Preflight)
    ensures Accept(r, PreflightEvent(p)).Some? <==>
              && r.summary.None? && r.start.Some? && r.preflight.None? && r.samples == [] && Nonnegative(p.durationMs, LIMIT)
              && (p.passed || (p.failureCode.Some? && ValidCode(p.failureCode.value)))
              && (p.usage.None? || TokensBounded(p.usage.value))
              && (p.httpStatus.None? <==> p.responseKind.None?)
              && (p.httpStatus.Some? ==> 99 < p.httpStatus.value < 1000 && p.responseKind.value.wellFormed)
              && (p.schemaCheck.Some? ==> Schematic(p) && p.schemaCheck.value.wellFormed)
              && (p.wireCheck.Some? ==>
                    r.config.provider == OpenAI && Schematic(p) && p.schemaCheck.Some? && p.wireCheck.value.wellFormed)
              && (p.responseDebug.Some? ==> !p.passed && p.responseDebug.value.wellFormed)
              && (p.toolProbe.Some? ==>
                    && r.config.provider == OpenAI && p.toolProbe.value.wellFormed && (p.toolProbe.value.passed <==> p.passed)
                    && (p.passed || p.failureCode == p.toolProbe.value.failureCode)
                    && p.schemaCheck.None? && p.wireCheck.None? && p.responseDebug.None?)
              && (r.config.provider == OpenAI && r.start.value.profile.toolProbe && p.passed ==> p.toolProbe.Some?)
    ensures Accept(r, PreflightEvent(p)).Some? ==> Accept(r, PreflightEvent(p)).value == r.(preflight := Some(p))
  {
    hide ValidCode, SampleOk, StartOk, SummaryOk;
  }

  /** What a sample's independent receipts must say: as many model calls as durations and as many as usage accounts
      for; as many tool calls as the executions add up to, and at least the recorded lookups, reads and writes. */
  ghost predicate Corroborated(s: Sample) {
    && s.receipts.Some?
    && var r := s.receipts.value;
       && r.lookupCalls >= 0 && r.artifactReads >= 0 && r.draftWrites >= 0 && r.contextGeneration >= 0
       && |r.modelDurations| < 101 && |r.executions| < 101
       && (forall d :: d in r.modelDurations ==> d >= 0) && (forall n :: n in r.executions ==> n > 0)
       && |r.modelDurations| == s.modelCalls == s.usage.knownCalls + s.usage.missingCalls
       && SumFrom(r.executions) == s.toolCalls >= r.lookupCalls + r.artifactReads + r.draftWrites
  }

  /** What a passed sample has shown: completion without a failure code, one lookup, at least one artifact read, one
      draft written, a second context generation, recovery and identification. */
  predicate Proven(s: Sample)
    requires s.receipts.Some?
  {
    var r := s.receipts.value;
    && s.completed && s.failureCode.None? && s.modelCalls > 0 && s.recovered && s.identified
    && r.lookupCalls == 1 && r.artifactReads > 0 && r.draftWrites == 1 && r.contextGeneration > 1
  }

  predicate UsageBalanced(u: Usage) {
    && u.knownCalls >= 0 && u.missingCalls >= 0 && (u.complete <==> u.missingCalls == 0)
    && (u.known.Some? <==> u.knownCalls > 0) && (u.known.Some? ==> TokensBounded(u.known.value))
  }

  lemma ReceiptsMean(s: Sample)
    ensures ReceiptsOk(s) <==> Corroborated(s) && (if s.passed then Proven(s) else !s.completed)
  {
    if s.receipts.Some? {
      var r := s.receipts.value;
      SumMeans(r.executions);
      hide Sum, SumFrom;
      assert (forall d :: d in r.modelDurations ==> d >= 0) <==> NonNegative(r.modelDurations) by { AllAtLeast(r.modelDurations, 0); }
      AllAtLeast(r.executions, 1);
    }
  }

  lemma AllAtLeast(values: seq<int>, bound: int)
    ensures (forall x :: x in values ==> x >= bound) <==> (forall i :: 0 <= i < |values| ==> values[i] >= bound)
  {
    if forall x :: x in values ==> x >= bound {
      forall i | 0 <= i < |values| ensures values[i] >= bound { assert values[i] in values; }
    }
  }

  /** A sample is accepted exactly after a passed preflight, in a run that is not preflight-only, while one is still
      asked for; under a new identity and a new pair of case and repetition; corroborated, and proven with the oracle's
      agreement if it passed or with a failure code if it did not; within the corpus or within two cases;
      and in a pilot only as the pilot. */
  lemma SampleExactly(r: Report, s: Sample)
    ensures Accept(r, SampleEvent(s)).Some? <==>
              && r.summary.None? && r.start.Some? && r.start.value.preflightOnly != Some(true)
              && r.preflight.Some? && r.preflight.value.passed && |r.samples| < r.start.value.requested
              && Text(s.id) && 0 < s.repetition <= r.config.repetitions && s.durationMs >= 0 && s.modelCalls >= 0 && s.toolCalls >= 0
              && s.diagnostics.wellFormed && UsageBalanced(s.usage) && Corroborated(s)
              && (if s.passed then Proven(s) && s.oraclePassed
                  else !s.completed && s.failureCode.Some? && ValidCode(s.failureCode.value))
              && (forall b :: b in r.samples ==> b.id != s.id && (b.caseId, b.repetition) != (s.caseId, s.repetition))
              && (r.config.quality ==>
                    s.caseId.Quality? && s.caseId.group in {0, 1, 2, 3, 4} && s.caseId.number in {1, 2, 3, 4, 5, 6, 7, 8})
              && (!r.config.quality ==> |Cases(r.samples) + {s.caseId}| < 3)
              && (r.start.value.pilotOnly == Some(true) ==>
                    r.samples == [] && s.caseId == Quality(0, 1) && s.id == "code-01-01" && s.repetition == 1)
    ensures Accept(r, SampleEvent(s)).Some? ==> Accept(r, SampleEvent(s)).value == r.(samples := r.samples + [s])
  {
    hide ValidCode, StartOk, SummaryOk, PreflightOk, ReceiptsOk, Corroborated, Cases;
    ReceiptsMean(s);
    NoneAlike(r.samples, s);
    if s.receipts.None? { assert !Corroborated(s) by { Uncorroborated(s); } }
  }

  lemma Uncorroborated(s: Sample)
    requires s.receipts.None?
    ensures !Corroborated(s)
  {
  }

  lemma NoneAlike(samples: seq<Sample>, s: Sample)
    ensures (forall b :: b in samples ==> b.id != s.id && (b.caseId, b.repetition) != (s.caseId, s.repetition)) <==>
            (forall i :: 0 <= i < |samples| ==>
               samples[i].id != s.id && (samples[i].caseId != s.caseId || samples[i].repetition != s.repetition))
  {
    if forall b :: b in samples ==> b.id != s.id && (b.caseId, b.repetition) != (s.caseId, s.repetition) {
      forall i | 0 <= i < |samples|
        ensures samples[i].id != s.id && (samples[i].caseId != s.caseId || samples[i].repetition != s.repetition) {
        assert samples[i] in samples;
      }
    }
  }

  /** The rate a summary reports is passed over attempted, to nine digits, or absent when nothing was attempted. */
  predicate RateReported(s: Summary) {
    if s.attempted == 0 then s.successRate == None
    else s.attempted > 0 && s.successRate.Some? && s.successRate.value >= 0.0 &&
         s.passed as real / s.attempted as real - 0.000000001 <= s.successRate.value &&
         s.successRate.value <= s.passed as real / s.attempted as real + 0.000000001
  }

  /** A summary is accepted exactly when it is true of the samples: how many were attempted, passed, failed and
      skipped, complete exactly after a passed preflight with nothing skipped, the duration figures, usage totals
      and call counts; it is never complete in a preflight-only or pilot run. */
  lemma SummaryExactly(r: Report, s: Summary)
    ensures Accept(r, SummaryEvent(s)).Some? <==>
              && r.summary.None? && r.start.Some? && r.preflight.Some?
              && s.requested == r.start.value.requested && s.attempted == |r.samples|
              && s.passed == |set i | 0 <= i < |r.samples| && r.samples[i].passed| && s.passed + s.failed == s.attempted
              && s.skipped >= 0 && s.skipped == s.requested - s.attempted
              && (s.complete <==> r.preflight.value.passed && s.skipped == 0)
              && (r.start.value.preflightOnly == Some(true) ==> r.samples == [] && !s.complete)
              && (r.start.value.pilotOnly == Some(true) ==>
                    !s.complete && s.attempted < 2 && (r.preflight.value.passed || s.attempted == 0))
              && s.durations == ExpectedDurations(r.samples) && RateReported(s)
              && s.usage == Usage(Total(r.samples, KnownCalls), Total(r.samples, MissingCalls), Total(r.samples, MissingCalls) == 0,
                                  if Total(r.samples, KnownCalls) == 0 then None else Some(Totals(r.samples).2))
              && UsageBalanced(s.usage)
              && s.modelCalls in {None, Some(Total(r.samples, ModelCalls))} && s.toolCalls in {None, Some(Total(r.samples, ToolCalls))}
    ensures Accept(r, SummaryEvent(s)).Some? ==> Accept(r, SummaryEvent(s)).value == r.(summary := Some(s))
  {
    hide StartOk, PreflightOk, SampleOk, ExpectedDurations, CountPassed, Totals, Calls, Total;
    CountPassedMeans(r.samples);
    TotalsMean(r.samples);
    assert RateOk(s) <==> RateReported(s);
  }

  // ---------------------------------------------------------------- exactly how a report is closed

  /** Without a launcher failure: passed exactly with exit zero and a complete summary in which everything asked for
      passed, in a run that is neither preflight-only nor a pilot. */
  lemma ClosedExactly(r: Report, exit: Option<int>)
    ensures var status := Finish(r, exit, None).status;
            var preflightOnly := r.start.Some? && r.start.value.preflightOnly == Some(true);
            var pilot := r.start.Some? && r.start.value.preflightOnly != Some(true) && r.start.value.pilotOnly == Some(true);
            var full := r.summary.Some? && !preflightOnly && !pilot;
            var all := r.summary.Some? && r.summary.value.complete && r.summary.value.passed == r.summary.value.requested &&
                       r.summary.value.skipped == 0;
            && (status == Passed <==> full && exit == Some(0) && all)
            && (status == PreflightOnlyPassed <==>
                  r.summary.Some? && preflightOnly && exit == Some(0) && r.preflight.Some? && r.preflight.value.passed)
            && (status == PilotPassed <==>
                  && r.summary.Some? && pilot && exit == Some(0) && r.preflight.Some? && r.preflight.value.passed
                  && r.summary.value.attempted == 1 && r.summary.value.passed == 1)
            && (status == PilotFailed <==>
                  && r.summary.Some? && pilot && exit == Some(1) && r.preflight.Some? && r.preflight.value.passed
                  && r.summary.value.attempted == 1 && r.summary.value.failed == 1)
            && (status == FailedRun <==>
                  || (r.summary.None? && r.error.Some? && r.samples == [] && exit in {Some(1), Some(2)})
                  || (r.summary.Some? && preflightOnly && exit == Some(1) && r.preflight.Some? && !r.preflight.value.passed)
                  || (&& r.summary.Some? && pilot && exit == Some(1) && r.preflight.Some? && !r.preflight.value.passed
                      && r.summary.value.attempted == 0)
                  || (&& full && exit != Some(0) && !all
                      && (r.summary.value.complete || (r.preflight.Some? && !r.preflight.value.passed))))
            && status !in {InProgress, Interrupted}
  {
  }

  /** The failure the launcher adds itself, and none when the report and the exit code agree. */
  lemma AddedFailure(r: Report, exit: Option<int>)
    ensures var f, status := Finish(r, exit, None).failure, Finish(r, exit, None).status;
            && (f.Some? ==> status == Incomplete && f.value.stage == OtherCode("protocol"))
            && (f.None? && status == Incomplete ==>
                  && r.summary.Some? && exit != Some(0) && !r.summary.value.complete
                  && !(r.preflight.Some? && !r.preflight.value.passed))
            && (f.Some? ==>
                  f.value.code == if r.summary.None? then MissingSummary
                                  else if r.start.Some? && r.start.value.preflightOnly == Some(true) then ExitPreflightMismatch
                                  else if r.start.Some? && r.start.value.pilotOnly == Some(true) then ExitPilotMismatch
                                  else ExitSummaryMismatch)
  {
  }

  /** With a launcher failure the code alone decides, and everything else about the report stays as it was. */
  lemma LauncherFailure(r: Report, exit: Option<int>, f: Failure)
    ensures Finish(r, exit, Some(f)) ==
            r.(finished := true, exitCode := exit, failure := Some(f),
               status := if f.code == CancelledByUser then Interrupted
                         else if f.code in {BuildFailed, InteractiveTtyRequired, HiddenInputUnavailable, InvalidApiKey,
                                            LauncherIoFailed}
                         then FailedRun else Incomplete)
    ensures var done := Finish(r, exit, None);
            done == r.(finished := true, exitCode := exit, failure := done.failure, status := done.status)
  {
  }

  /** A configuration is admitted exactly with positive budgets within their limits, room for the floor after the
      output, and at most three repetitions in the quality suite or twenty outside it. */
  lemma ConfigExactly(c: Config, floor: int)
    ensures ConfigOk(c, Some(floor)) <==>
              && 0 < c.contextTokens <= 16777216 && 0 < c.maxOutputTokens <= 1048576 && floor > 0
              && c.contextTokens >= c.maxOutputTokens + floor
              && 0 < c.repetitions && c.repetitions <= (if c.quality then 3 else 20)
    ensures ConfigOk(c, None) <==>
              && 0 < c.contextTokens <= 16777216 && 0 < c.maxOutputTokens <= 1048576 && c.contextTokens > c.maxOutputTokens
              && 0 < c.repetitions && c.repetitions <= (if c.quality then 3 else 20)
  {
  }

  // ---------------------------------------------------------------- exactly which reports are read back

  function SampleEvents(samples: seq<Sample>): seq<Event> {
    seq(|samples|, i requires 0 <= i < |samples| => SampleEvent(samples[i]))
  }

  /** A saved report as the events it stands for, in canonical order. */
  function Canonical(r: Report): seq<Event> {
    (if r.start.Some? then [StartEvent(r.start.value)] else []) +
    (if r.preflight.Some? then [PreflightEvent(r.preflight.value)] else []) +
    SampleEvents(r.samples) +
    (if r.error.Some? then [ErrorEvent(r.error.value)] else []) +
    (if r.summary.Some? then [SummaryEvent(r.summary.value)] else [])
  }

  lemma AcceptOne(r: Report, events: seq<Event>, e: Event)
    ensures AcceptAll(r, events + [e]) == OptionalAccept(AcceptAll(r, events), e)
  {
    hide Accept;
    assert (events + [e])[..|events|] == events;
  }

  lemma AcceptMaybe(r: Report, events: seq<Event>, more: seq<Event>)
    requires |more| <= 1
    ensures AcceptAll(r, events + more) == if more == [] then AcceptAll(r, events) else OptionalAccept(AcceptAll(r, events), more[0])
  {
    hide Accept, AcceptAll, OptionalAccept;
    if more == [] {
      assert events + more == events;
    } else {
      assert more == [more[0]];
      AcceptOne(r, events, more[0]);
    }
  }

  lemma {:induction false} SamplesMean(r: Report, events: seq<Event>, samples: seq<Sample>)
    ensures AcceptAll(r, events + SampleEvents(samples)) == AcceptSamples(AcceptAll(r, events), samples)
  {
    hide Accept, AcceptAll;
    if samples == [] {
      assert events + SampleEvents(samples) == events;
    } else {
      var front, last := samples[..|samples| - 1], samples[|samples| - 1];
      SamplesMean(r, events, front);
      assert SampleEvents(samples) == SampleEvents(front) + [SampleEvent(last)];
      assert events + SampleEvents(samples) == (events + SampleEvents(front)) + [SampleEvent(last)];
      AcceptOne(r, events + SampleEvents(front), SampleEvent(last));
    }
  }

  /** Rebuilding a report is accepting those events one by one into a new one. */
  lemma RebuildMeans(r: Report)
    ensures Rebuild(r) == AcceptAll(NewReport(r.config), Canonical(r))
  {
    hide Accept, AcceptAll, AcceptSamples, OptionalAccept;
    var n := NewReport(r.config);
    var a := if r.start.Some? then [StartEvent(r.start.value)] else [];
    var b := if r.preflight.Some? then [PreflightEvent(r.preflight.value)] else [];
    var d := if r.error.Some? then [ErrorEvent(r.error.value)] else [];
    var e := if r.summary.Some? then [SummaryEvent(r.summary.value)] else [];
    NothingAccepted(n);
    AcceptMaybe(n, [], a);
    assert [] + a == a;
    AcceptMaybe(n, a, b);
    SamplesMean(n, a + b, r.samples);
    AcceptMaybe(n, a + b + SampleEvents(r.samples), d);
    AcceptMaybe(n, a + b + SampleEvents(r.samples) + d, e);
  }

  lemma NothingAccepted(r: Report)
    ensures AcceptAll(r, []) == Some(r)
  {
  }

  /** A saved report is valid exactly when a started one records a positive input ceiling; its configuration leaves
      room for that ceiling, or for the service's if that is lower; its parts are accepted in canonical order; its
      failure is well formed; and its status is the one closing the rebuilt report gives, or still running and
      unfinished. */
  lemma ValidExactly(r: Report)
    ensures Valid(r) <==>
              && (r.start.None? ==> ConfigOk(r.config, None))
              && (r.start.Some? ==>
                    && r.start.value.profile.maxInputTokens.Some? && r.start.value.profile.maxInputTokens.value > 0
                    && var ceiling := r.start.value.profile.maxInputTokens.value;
                       ConfigOk(r.config, Some(if ceiling > 8192 then 8192 else ceiling)))
              && AcceptAll(NewReport(r.config), Canonical(r)).Some?
              && (r.failure.Some? ==> ValidCode(r.failure.value.stage) && ValidCode(r.failure.value.code))
              && (if r.status == InProgress then !r.finished
                  else r.status == Finish(AcceptAll(NewReport(r.config), Canonical(r)).value, r.exitCode, r.failure).status)
  {
    hide Canonical, AcceptAll, Rebuild, ConfigOk, Conclude, ValidCode;
    RebuildMeans(r);
  }
}
