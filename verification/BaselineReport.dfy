/**
 The baseline report protocol: a launcher accepts a child's events one by one into a report, closes the
 report with a status, and must later accept its own saved report by replaying it in canonical order.
 Nested diagnostic documents are opaque; each carries the verdict of its own shape check.
 */
module BaselineReport {
  import opened Records
  import opened Sets

  // ---------------------------------------------------------------- documents

  datatype Code =
    | CancelledByUser | BuildFailed | InteractiveTtyRequired | HiddenInputUnavailable | InvalidApiKey | LauncherIoFailed
    | ExitPreflightMismatch | ExitPilotMismatch | ExitSummaryMismatch | MissingSummary
    | StrictSchemaProbeFailed | OtherCode(text: string)

  predicate CodeChar(c: char) {
    'A' <= c <= 'Z' || 'a' <= c <= 'z' || '0' <= c <= '9' || c == '_' || c == '.' || c == '-'
  }

  predicate ValidCode(c: Code) {
    c.OtherCode? ==> 1 <= |c.text| <= 100 && forall i :: 0 <= i < |c.text| ==> CodeChar(c.text[i])
  }

  datatype Failure = Failure(stage: Code, code: Code)

  predicate ValidFailure(f: Failure) {
    ValidCode(f.stage) && ValidCode(f.code)
  }

  datatype Provider = OpenAI | Anthropic

  datatype Config = Config(
    provider: Provider, endpoint: string, model: string, contextTokens: int, maxOutputTokens: int,
    repetitions: int, allowUnknownModel: bool, effort: Option<string>, quality: bool)

  const SERVICE_INPUT_TOKENS := 8192
  const LEGACY_CASES := 2
  const LIMIT := 0x4000_0000_0000_0000

  datatype Case = Quality(group: int, number: int) | OtherCase(text: string)

  /** Five groups of eight cases. */
  predicate QualityCase(c: Case) {
    c.Quality? && 0 <= c.group < 5 && 1 <= c.number <= 8
  }

  const PILOT := Quality(0, 1)

  function CaseCount(config: Config): nat {
    if config.quality then 40 else LEGACY_CASES
  }

  /** The launcher's admission floor is the service ceiling; a historical report uses its own. */
  predicate ConfigOk(config: Config, floor: Option<int>) {
    && 1 <= config.contextTokens <= 0x100_0000 && 1 <= config.maxOutputTokens <= 0x10_0000
    && 1 <= config.repetitions <= (if config.quality then 3 else 20)
    && var available := config.contextTokens - config.maxOutputTokens;
       available > 0 && (floor.Some? ==> floor.value >= 1 && available >= floor.value)
  }

  datatype Profile = Profile(maxInputTokens: Option<int>, toolProbe: bool, rest: string)

  /** `configuration` is the child's echo of the launcher's configuration. */
  datatype Start = Start(
    schemaVersion: int, taskVersion: string, datasetHash: string, profile: Profile, requested: int,
    preflightOnly: Option<bool>, pilotOnly: Option<bool>, pilotCase: Option<Case>, configuration: Config)

  datatype Tokens = Tokens(input: int, output: int, cacheRead: int, cacheWrite: int, reasoning: int)

  datatype Usage = Usage(knownCalls: int, missingCalls: int, complete: bool, known: Option<Tokens>)

  /** A nested document and whether its own shape check passes. */
  datatype Doc = Doc(text: string, wellFormed: bool)

  datatype Probe = Probe(passed: bool, failureCode: Option<Code>, wellFormed: bool)

  datatype Preflight = Preflight(
    passed: bool, failureCode: Option<Code>, durationMs: int, usage: Option<Tokens>,
    httpStatus: Option<int>, responseKind: Option<Doc>, schemaCheck: Option<Doc>, wireCheck: Option<Doc>,
    responseDebug: Option<Doc>, toolProbe: Option<Probe>)

  datatype Receipts = Receipts(
    lookupCalls: int, artifactReads: int, draftWrites: int, contextGeneration: int,
    modelDurations: seq<int>, executions: seq<int>)

  datatype Sample = Sample(
    id: string, caseId: Case, repetition: int, passed: bool, completed: bool, failureCode: Option<Code>,
    oraclePassed: bool, recovered: bool, durationMs: int, modelCalls: int, toolCalls: int, usage: Usage,
    receipts: Option<Receipts>, identified: bool, diagnostics: Doc)

  datatype Durations = Durations(count: int, total: int, min: int, max: int, p50: int, p95: int)

  datatype Summary = Summary(
    requested: int, attempted: int, passed: int, failed: int, skipped: int, complete: bool,
    successRate: Option<real>, durations: Durations, usage: Usage, modelCalls: Option<int>, toolCalls: Option<int>)

  datatype Event =
    | StartEvent(start: Start)
    | ErrorEvent(error: Failure)
    | PreflightEvent(preflight: Preflight)
    | SampleEvent(sample: Sample)
    | SummaryEvent(summary: Summary)
    | UnknownEvent

  datatype ReportStatus =
    | InProgress | Passed | FailedRun | Incomplete | Interrupted | PreflightOnlyPassed | PilotPassed | PilotFailed

  datatype Report = Report(
    config: Config, start: Option<Start>, error: Option<Failure>, preflight: Option<Preflight>, samples: seq<Sample>,
    summary: Option<Summary>, status: ReportStatus, exitCode: Option<int>, failure: Option<Failure>, finished: bool)

  function NewReport(config: Config): Report {
    Report(config, None, None, None, [], None, InProgress, None, None, false)
  }

  // ---------------------------------------------------------------- what each event must satisfy

  predicate ShortText(s: string) {
    1 <= |s| <= 256
  }

  predicate StartOk(config: Config, e: Start) {
    && e.schemaVersion == 1 && ShortText(e.taskVersion) && ShortText(e.datasetHash)
    && e.preflightOnly != Some(false)
    && (if e.pilotOnly.Some?
        then e.pilotOnly == Some(true) && e.pilotCase == Some(PILOT) && e.preflightOnly != Some(true) &&
             config.quality && config.repetitions == 1
        else e.pilotCase == None)
    && (config.quality ==> e.taskVersion == "release-evidence-quality-v1")
    && e.requested == CaseCount(config) * config.repetitions && e.configuration == config
  }

  predicate TokensOk(t: Tokens) {
    && 0 <= t.input <= LIMIT && 0 <= t.output <= LIMIT && 0 <= t.cacheRead <= LIMIT
    && 0 <= t.cacheWrite <= LIMIT && 0 <= t.reasoning <= LIMIT
  }

  predicate UsageOk(u: Usage) {
    && u.knownCalls >= 0 && u.missingCalls >= 0 && u.complete == (u.missingCalls == 0)
    && (u.knownCalls == 0) == u.known.None? && (u.known.Some? ==> TokensOk(u.known.value))
  }

  predicate PreflightOk(config: Config, start: Start, p: Preflight) {
    && 0 <= p.durationMs <= LIMIT
    && (!p.passed ==> p.failureCode.Some? && ValidCode(p.failureCode.value))
    && (p.usage.Some? ==> TokensOk(p.usage.value))
    && p.httpStatus.Some? == p.responseKind.Some?
    && (p.httpStatus.Some? ==> 100 <= p.httpStatus.value <= 999 && p.responseKind.value.wellFormed)
    && (p.schemaCheck.Some? ==> !p.passed && p.failureCode == Some(StrictSchemaProbeFailed) && p.schemaCheck.value.wellFormed)
    && (p.wireCheck.Some? ==>
          && config.provider == OpenAI && !p.passed && p.failureCode == Some(StrictSchemaProbeFailed)
          && p.schemaCheck.Some? && p.wireCheck.value.wellFormed)
    && (p.responseDebug.Some? ==> !p.passed && p.responseDebug.value.wellFormed)
    && (p.toolProbe.Some? ==>
          && config.provider == OpenAI && p.schemaCheck.None? && p.wireCheck.None? && p.responseDebug.None?
          && p.toolProbe.value.wellFormed && p.toolProbe.value.passed == p.passed
          && (!p.passed ==> p.failureCode == p.toolProbe.value.failureCode))
    && (config.provider == OpenAI && start.profile.toolProbe && p.passed ==> p.toolProbe.Some?)
  }

  function Sum(values: seq<int>): int {
    if values == [] then 0 else Sum(values[..|values| - 1]) + values[|values| - 1]
  }

  predicate NonNegative(values: seq<int>) {
    forall i :: 0 <= i < |values| ==> values[i] >= 0
  }

  /** Independent receipts must agree before any result is accepted. */
  predicate ReceiptsOk(s: Sample) {
    s.receipts.Some? &&
    var r := s.receipts.value;
    && r.lookupCalls >= 0 && r.artifactReads >= 0 && r.draftWrites >= 0 && r.contextGeneration >= 0
    && |r.modelDurations| <= 100 && NonNegative(r.modelDurations) && |r.executions| <= 100
    && (forall i :: 0 <= i < |r.executions| ==> r.executions[i] >= 1)
    && s.usage.knownCalls + s.usage.missingCalls == s.modelCalls
    && |r.modelDurations| == s.modelCalls && Sum(r.executions) == s.toolCalls
    && r.lookupCalls + r.artifactReads + r.draftWrites <= s.toolCalls
    && (s.passed ==>
          && s.completed && s.failureCode.None? && s.modelCalls >= 1 && r.lookupCalls == 1 && r.artifactReads >= 1
          && r.draftWrites == 1 && r.contextGeneration >= 2 && s.recovered && s.identified)
    && (!s.passed ==> !s.completed)
  }

  function Cases(samples: seq<Sample>): set<Case> {
    set i | 0 <= i < |samples| :: samples[i].caseId
  }

  predicate SampleOk(config: Config, start: Start, before: seq<Sample>, s: Sample) {
    && ShortText(s.id) && 1 <= s.repetition <= config.repetitions && (s.passed ==> s.oraclePassed)
    && s.durationMs >= 0 && s.modelCalls >= 0 && s.toolCalls >= 0
    && (!s.passed ==> s.failureCode.Some? && ValidCode(s.failureCode.value))
    && UsageOk(s.usage) && s.diagnostics.wellFormed && ReceiptsOk(s)
    && (start.pilotOnly == Some(true) ==> before == [] && s.caseId == PILOT && s.id == "code-01-01" && s.repetition == 1)
    && |before| < start.requested
    && (forall i :: 0 <= i < |before| ==>
          before[i].id != s.id && (before[i].caseId != s.caseId || before[i].repetition != s.repetition))
    && (if config.quality then QualityCase(s.caseId) else |Cases(before) + {s.caseId}| <= LEGACY_CASES)
  }

  // ---------------------------------------------------------------- the summary

  function CountPassed(samples: seq<Sample>): nat {
    if samples == [] then 0
    else CountPassed(samples[..|samples| - 1]) + (if samples[|samples| - 1].passed then 1 else 0)
  }

  function Insert(x: int, values: seq<int>): seq<int> {
    if values == [] || x <= values[0] then [x] + values else [values[0]] + Insert(x, values[1..])
  }

  function Sorted(values: seq<int>): seq<int> {
    if values == [] then [] else Insert(values[0], Sorted(values[1..]))
  }

  lemma {:induction false} InsertLength(x: int, values: seq<int>)
    ensures |Insert(x, values)| == |values| + 1
    ensures multiset(Insert(x, values)) == multiset(values) + multiset{x}
  {
    if values != [] && x > values[0] {
      InsertLength(x, values[1..]);
      assert values == [values[0]] + values[1..];
    }
  }

  lemma {:induction false} SortedLength(values: seq<int>)
    ensures |Sorted(values)| == |values| && multiset(Sorted(values)) == multiset(values)
  {
    if values != [] {
      SortedLength(values[1..]);
      InsertLength(values[0], Sorted(values[1..]));
      assert values == [values[0]] + values[1..];
    }
  }

  predicate Ascending(values: seq<int>) {
    forall i, j :: 0 <= i < j < |values| ==> values[i] <= values[j]
  }

  predicate AtLeast(bound: int, values: seq<int>) {
    forall i :: 0 <= i < |values| ==> bound <= values[i]
  }

  lemma {:induction false} InsertAtLeast(x: int, values: seq<int>, bound: int)
    requires AtLeast(bound, values) && bound <= x
    ensures AtLeast(bound, Insert(x, values))
  {
    if values != [] && x > values[0] { InsertAtLeast(x, values[1..], bound); }
  }

  lemma Prepend(x: int, values: seq<int>)
    requires AtLeast(x, values) && Ascending(values)
    ensures Ascending([x] + values)
  {
  }

  lemma {:induction false} InsertAscending(x: int, values: seq<int>)
    requires Ascending(values)
    ensures Ascending(Insert(x, values))
  {
    if values == [] || x <= values[0] {
      Prepend(x, values);
    } else {
      InsertAscending(x, values[1..]);
      InsertAtLeast(x, values[1..], values[0]);
      Prepend(values[0], Insert(x, values[1..]));
    }
  }

  lemma {:induction false} SortedAscending(values: seq<int>)
    ensures Ascending(Sorted(values))
  {
    if values != [] {
      SortedAscending(values[1..]);
      InsertAscending(values[0], Sorted(values[1..]));
    }
  }

  /** Nearest rank: the least position that leaves at least `percent` percent of the values at or below it. */
  function Rank(percent: nat, n: nat): (r: int)
    requires 1 <= percent <= 100 && n > 0
    ensures 0 <= r < n && 100 * (r + 1) >= percent * n && 100 * r < percent * n
  {
    (percent * n + 99) / 100 - 1
  }

  function SampleDurations(samples: seq<Sample>): seq<int> {
    seq(|samples|, i requires 0 <= i < |samples| => samples[i].durationMs)
  }

  function ExpectedDurations(samples: seq<Sample>): Durations {
    var values := Sorted(SampleDurations(samples));
    SortedLength(SampleDurations(samples));
    var n := |values|;
    if n == 0 then Durations(0, 0, 0, 0, 0, 0)
    else Durations(n, Sum(values), values[0], values[n - 1], values[Rank(50, n)], values[Rank(95, n)])
  }

  function AddTokens(a: Tokens, b: Option<Tokens>): Tokens {
    if b.None? then a
    else Tokens(a.input + b.value.input, a.output + b.value.output, a.cacheRead + b.value.cacheRead,
                a.cacheWrite + b.value.cacheWrite, a.reasoning + b.value.reasoning)
  }

  /** Known and missing calls, and the known token totals, over all samples. */
  function Totals(samples: seq<Sample>): (int, int, Tokens) {
    if samples == [] then (0, 0, Tokens(0, 0, 0, 0, 0))
    else
      var t, u := Totals(samples[..|samples| - 1]), samples[|samples| - 1].usage;
      (t.0 + u.knownCalls, t.1 + u.missingCalls, AddTokens(t.2, u.known))
  }

  function ExpectedUsage(samples: seq<Sample>): Usage {
    var t := Totals(samples);
    Usage(t.0, t.1, t.1 == 0, if t.0 != 0 then Some(t.2) else None)
  }

  function Calls(samples: seq<Sample>): (int, int) {
    if samples == [] then (0, 0)
    else
      var c, s := Calls(samples[..|samples| - 1]), samples[|samples| - 1];
      (c.0 + s.modelCalls, c.1 + s.toolCalls)
  }

  predicate RateOk(s: Summary) {
    if s.attempted == 0 then s.successRate.None?
    else s.attempted > 0 && s.successRate.Some? && s.successRate.value >= 0.0 &&
         var gap := s.successRate.value - s.passed as real / s.attempted as real;
         -0.000000001 <= gap <= 0.000000001
  }

  predicate SummaryOk(start: Start, p: Preflight, samples: seq<Sample>, s: Summary) {
    && s.requested == start.requested && s.attempted == |samples| && s.passed == CountPassed(samples)
    && s.failed == |samples| - CountPassed(samples) && s.skipped >= 0 && s.attempted + s.skipped == s.requested
    && (s.complete ==> s.attempted == s.requested && s.skipped == 0)
    && (start.preflightOnly == Some(true) ==> samples == [] && !s.complete)
    && (start.pilotOnly == Some(true) ==> !s.complete && s.attempted <= 1 && (!p.passed ==> s.attempted == 0))
    && s.durations == ExpectedDurations(samples) && RateOk(s)
    && UsageOk(s.usage) && s.usage == ExpectedUsage(samples)
    && (s.modelCalls.Some? ==> s.modelCalls.value == Calls(samples).0)
    && (s.toolCalls.Some? ==> s.toolCalls.value == Calls(samples).1)
    && s.complete == (p.passed && |samples| == s.requested)
  }

  // ---------------------------------------------------------------- accepting and finishing

  function Accept(r: Report, e: Event): Option<Report> {
    if r.summary.Some? then None
    else match e
      case StartEvent(s) =>
        if r.start.None? && StartOk(r.config, s) then Some(r.(start := Some(s), error := None)) else None
      case ErrorEvent(f) => if r.error.None? && ValidFailure(f) then Some(r.(error := Some(f))) else None
      case PreflightEvent(p) =>
        if r.start.Some? && r.preflight.None? && r.samples == [] && PreflightOk(r.config, r.start.value, p)
        then Some(r.(preflight := Some(p))) else None
      case SampleEvent(s) =>
        if r.start.Some? && r.start.value.preflightOnly != Some(true) && r.preflight.Some? && r.preflight.value.passed &&
           SampleOk(r.config, r.start.value, r.samples, s)
        then Some(r.(samples := r.samples + [s])) else None
      case SummaryEvent(s) =>
        if r.start.Some? && r.preflight.Some? && SummaryOk(r.start.value, r.preflight.value, r.samples, s)
        then Some(r.(summary := Some(s))) else None
      case UnknownEvent => None
  }

  function AcceptAll(r: Report, events: seq<Event>): Option<Report> {
    if events == [] then Some(r)
    else match AcceptAll(r, events[..|events| - 1])
      case None => None
      case Some(m) => Accept(m, events[|events| - 1])
  }

  function FailureStatus(code: Code): ReportStatus {
    if code == CancelledByUser then Interrupted
    else if code in {BuildFailed, InteractiveTtyRequired, HiddenInputUnavailable, InvalidApiKey, LauncherIoFailed} then FailedRun
    else Incomplete
  }

  const PROTOCOL := OtherCode("protocol")

  /** The status, and the failure the launcher itself adds when the exit code contradicts the report. */
  function Conclude(r: Report, exit: Option<int>): (ReportStatus, Option<Failure>) {
    match r.summary
    case None =>
      if r.error.Some? && r.samples == [] && (exit == Some(1) || exit == Some(2)) then (FailedRun, None)
      else (Incomplete, Some(Failure(PROTOCOL, MissingSummary)))
    case Some(s) =>
      var passed := r.preflight.Some? && r.preflight.value.passed;
      var failed := r.preflight.Some? && !r.preflight.value.passed;
      if r.start.Some? && r.start.value.preflightOnly == Some(true) then
        if exit == Some(0) && passed then (PreflightOnlyPassed, None)
        else if exit == Some(1) && failed then (FailedRun, None)
        else (Incomplete, Some(Failure(PROTOCOL, ExitPreflightMismatch)))
      else if r.start.Some? && r.start.value.pilotOnly == Some(true) then
        if exit == Some(0) && passed && s.attempted == 1 && s.passed == 1 then (PilotPassed, None)
        else if exit == Some(1) && failed && s.attempted == 0 then (FailedRun, None)
        else if exit == Some(1) && passed && s.attempted == 1 && s.failed == 1 then (PilotFailed, None)
        else (Incomplete, Some(Failure(PROTOCOL, ExitPilotMismatch)))
      else
        var all := s.complete && s.requested == s.passed && s.skipped == 0;
        if (exit == Some(0)) != all then (Incomplete, Some(Failure(PROTOCOL, ExitSummaryMismatch)))
        else if all then (Passed, None)
        else if s.complete || failed then (FailedRun, None)
        else (Incomplete, None)
  }

  function Finish(r: Report, exit: Option<int>, failure: Option<Failure>): Report {
    if failure.Some? then
      r.(finished := true, exitCode := exit, failure := failure, status := FailureStatus(failure.value.code))
    else
      var c := Conclude(r, exit);
      r.(finished := true, exitCode := exit, failure := c.1, status := c.0)
  }

  // ---------------------------------------------------------------- reading a report back

  function OptionalAccept(r: Option<Report>, e: Event): Option<Report> {
    if r.None? then None else Accept(r.value, e)
  }

  function AcceptSamples(r: Option<Report>, samples: seq<Sample>): Option<Report> {
    if samples == [] then r
    else OptionalAccept(AcceptSamples(r, samples[..|samples| - 1]), SampleEvent(samples[|samples| - 1]))
  }

  /** The saved report as events, in canonical order: start, preflight, samples, error, summary. */
  function Rebuild(r: Report): Option<Report> {
    var r0 := Some(NewReport(r.config));
    var r1 := if r.start.Some? then OptionalAccept(r0, StartEvent(r.start.value)) else r0;
    var r2 := if r.preflight.Some? then OptionalAccept(r1, PreflightEvent(r.preflight.value)) else r1;
    var r3 := AcceptSamples(r2, r.samples);
    var r4 := if r.error.Some? then OptionalAccept(r3, ErrorEvent(r.error.value)) else r3;
    if r.summary.Some? then OptionalAccept(r4, SummaryEvent(r.summary.value)) else r4
  }

  function Floor(ceiling: int): int {
    if ceiling < SERVICE_INPUT_TOKENS then ceiling else SERVICE_INPUT_TOKENS
  }

  predicate HasCeiling(start: Start) {
    start.profile.maxInputTokens.Some? && start.profile.maxInputTokens.value >= 1
  }

  predicate Valid(r: Report) {
    && (r.start.Some? ==> HasCeiling(r.start.value))
    && ConfigOk(r.config, if r.start.Some? then Some(Floor(r.start.value.profile.maxInputTokens.value)) else None)
    && Rebuild(r).Some? && (r.failure.Some? ==> ValidFailure(r.failure.value))
    && (if r.status == InProgress then !r.finished else Finish(Rebuild(r).value, r.exitCode, r.failure).status == r.status)
  }

  /** Each part of a report was acceptable when it arrived, given the parts it depends on. */
  ghost predicate Built(r: Report) {
    && (r.start.Some? ==> StartOk(r.config, r.start.value)) && (r.error.Some? ==> ValidFailure(r.error.value))
    && (r.preflight.Some? ==> r.start.Some? && PreflightOk(r.config, r.start.value, r.preflight.value))
    && (r.samples != [] ==>
          r.start.Some? && r.start.value.preflightOnly != Some(true) && r.preflight.Some? && r.preflight.value.passed)
    && (forall i :: 0 <= i < |r.samples| ==> SampleOk(r.config, r.start.value, r.samples[..i], r.samples[i]))
    && (r.summary.Some? ==>
          r.start.Some? && r.preflight.Some? && SummaryOk(r.start.value, r.preflight.value, r.samples, r.summary.value))
  }

  lemma AcceptBuilt(r: Report, e: Event)
    requires Built(r) && Accept(r, e).Some?
    ensures Built(Accept(r, e).value) && Accept(r, e).value.config == r.config
  {
    hide StartOk, PreflightOk, SampleOk, SummaryOk, ValidFailure;
    if e.SampleEvent? {
      var samples := r.samples + [e.sample];
      forall i | 0 <= i < |samples| ensures SampleOk(r.config, r.start.value, samples[..i], samples[i]) {
        assert samples[..i] == r.samples[..i];
        assert i == |r.samples| ==> r.samples[..i] == r.samples;
      }
    }
  }

  lemma {:induction false} AcceptAllBuilt(config: Config, events: seq<Event>)
    requires AcceptAll(NewReport(config), events).Some?
    ensures Built(AcceptAll(NewReport(config), events).value)
    ensures AcceptAll(NewReport(config), events).value.config == config
  {
    hide Accept, Built;
    if events == [] {
      NewBuilt(config);
    } else {
      AcceptAllBuilt(config, events[..|events| - 1]);
      AcceptBuilt(AcceptAll(NewReport(config), events[..|events| - 1]).value, events[|events| - 1]);
    }
  }

  lemma NewBuilt(config: Config)
    ensures Built(NewReport(config))
  {
  }

  /** The samples are accepted again one by one, each after exactly the samples that preceded it. */
  lemma {:induction false} SamplesAgain(r: Report, base: Report, n: nat)
    requires Built(r) && n <= |r.samples|
    requires base.config == r.config && base.start == r.start && base.preflight == r.preflight
    requires base.samples == [] && base.summary.None?
    ensures AcceptSamples(Some(base), r.samples[..n]) == Some(base.(samples := r.samples[..n]))
  {
    hide StartOk, PreflightOk, SampleOk, SummaryOk, ValidFailure;
    if n > 0 {
      assert r.samples[..n][..n - 1] == r.samples[..n - 1];
      SamplesAgain(r, base, n - 1);
      assert SampleOk(r.config, r.start.value, r.samples[..n - 1], r.samples[n - 1]);
      assert r.samples[..n - 1] + [r.samples[n - 1]] == r.samples[..n];
    }
  }

  function Unfinished(r: Report): Report {
    r.(status := InProgress, exitCode := None, failure := None, finished := false)
  }

  /** Replaying a report in canonical order rebuilds exactly what was accepted. */
  lemma RebuildExact(r: Report)
    requires Built(r)
    ensures Rebuild(r) == Some(Unfinished(r))
  {
    hide StartOk, PreflightOk, SampleOk, SummaryOk, ValidFailure, AcceptSamples;
    var base := NewReport(r.config).(start := r.start, preflight := r.preflight);
    SamplesAgain(r, base, |r.samples|);
    assert r.samples[..|r.samples|] == r.samples;
  }

  lemma FinishBuilt(r: Report, exit: Option<int>, failure: Option<Failure>)
    requires Built(r)
    ensures Built(Finish(r, exit, failure)) && Unfinished(Finish(r, exit, failure)) == Unfinished(r)
  {
    hide StartOk, PreflightOk, SampleOk, SummaryOk, ValidFailure, Conclude;
  }

  /** Closing the rebuilt report again, with the failure the first closing recorded, gives the same status. */
  lemma FinishAgain(r: Report, exit: Option<int>, failure: Option<Failure>)
    ensures Finish(Unfinished(r), exit, Finish(r, exit, failure).failure).status == Finish(r, exit, failure).status
    ensures failure.None? && Finish(r, exit, None).failure.Some? ==> ValidFailure(Finish(r, exit, None).failure.value)
  {
    assert Conclude(Unfinished(r), exit) == Conclude(r, exit);
    ProtocolValid();
  }

  lemma ProtocolValid()
    ensures ValidCode(PROTOCOL)
  {
    var t := "protocol";
    assert t[0] == 'p' && t[1] == 'r' && t[2] == 'o' && t[3] == 't' && t[4] == 'o' && t[5] == 'c' && t[6] == 'o' && t[7] == 'l';
  }

  /** A report produced by any accepted sequence of events and closed by the launcher is accepted again
      with the same status exactly when it never started or its profile records a positive input
      ceiling, wherever in the sequence the error event fell. */
  lemma ReportReplays(config: Config, events: seq<Event>, exit: Option<int>, failure: Option<Failure>)
    requires ConfigOk(config, Some(SERVICE_INPUT_TOKENS)) && (failure.Some? ==> ValidFailure(failure.value))
    requires AcceptAll(NewReport(config), events).Some?
    ensures var r := Finish(AcceptAll(NewReport(config), events).value, exit, failure);
            Valid(r) <==> (r.start.Some? ==> HasCeiling(r.start.value))
  {
    hide AcceptAll, Built, Rebuild, ValidFailure, Conclude;
    var accepted := AcceptAll(NewReport(config), events).value;
    var r := Finish(accepted, exit, failure);
    AcceptAllBuilt(config, events);
    FinishBuilt(accepted, exit, failure);
    RebuildExact(r);
    FinishAgain(accepted, exit, failure);
    NeverRunning(accepted, exit, failure);
  }

  const CONFIG := Config(OpenAI, "https://api.openai.com", "model", 10000, 1000, 1, false, None, false)

  /** A child's start event that is acceptable whatever ceiling its profile records. */
  function Started(ceiling: Option<int>): Start {
    Start(1, "v1", "hash", Profile(ceiling, false, ""), 2, None, None, None, CONFIG)
  }

  /** Counterexample to "a report the launcher wrote is accepted again": one start event whose profile
      records no input ceiling is accepted, and the report it makes is not, however the launcher closes it.
      With a ceiling in the same event the report is accepted. */
  lemma NoCeilingNotReplayed(exit: Option<int>, failure: Option<Failure>)
    requires failure.Some? ==> ValidFailure(failure.value)
    ensures var events := [StartEvent(Started(None))];
            && ConfigOk(CONFIG, Some(SERVICE_INPUT_TOKENS)) && AcceptAll(NewReport(CONFIG), events).Some?
            && !Valid(Finish(AcceptAll(NewReport(CONFIG), events).value, exit, failure))
    ensures var events := [StartEvent(Started(Some(SERVICE_INPUT_TOKENS)))];
            && AcceptAll(NewReport(CONFIG), events).Some?
            && Valid(Finish(AcceptAll(NewReport(CONFIG), events).value, exit, failure))
  {
    StartAccepted(None);
    StartAccepted(Some(SERVICE_INPUT_TOKENS));
    hide AcceptAll, Valid, ValidFailure, Conclude;
    ReportReplays(CONFIG, [StartEvent(Started(None))], exit, failure);
    ReportReplays(CONFIG, [StartEvent(Started(Some(SERVICE_INPUT_TOKENS)))], exit, failure);
  }

  lemma StartAccepted(ceiling: Option<int>)
    ensures AcceptAll(NewReport(CONFIG), [StartEvent(Started(ceiling))]).Some?
    ensures AcceptAll(NewReport(CONFIG), [StartEvent(Started(ceiling))]).value.start == Some(Started(ceiling))
  {
    var events := [StartEvent(Started(ceiling))];
    assert events[..0] == [];
    assert AcceptAll(NewReport(CONFIG), events[..0]) == Some(NewReport(CONFIG));
    assert StartOk(CONFIG, Started(ceiling));
  }

  lemma NeverRunning(r: Report, exit: Option<int>, failure: Option<Failure>)
    ensures Finish(r, exit, failure).status != InProgress && Finish(r, exit, failure).finished
    ensures failure.Some? ==> Finish(r, exit, failure).failure == failure
  {
  }

  /** An error reported before the start is forgotten by it, so a later error is not a duplicate. */
  lemma StartForgetsError(r: Report, f: Failure, g: Failure, s: Start)
    requires r.summary.None? && r.start.None? && r.error.None? && ValidFailure(f) && ValidFailure(g) && StartOk(r.config, s)
    ensures var started := OptionalAccept(Some(r), StartEvent(s));
            && OptionalAccept(OptionalAccept(Some(r), ErrorEvent(f)), StartEvent(s)) == started
            && OptionalAccept(started, ErrorEvent(g)).Some?
            && OptionalAccept(OptionalAccept(started, ErrorEvent(f)), ErrorEvent(g)).None?
  {
    hide StartOk, ValidFailure;
  }

  // ---------------------------------------------------------------- what "passed" means

  function Pairs(samples: seq<Sample>): set<(Case, int)> {
    set i | 0 <= i < |samples| :: (samples[i].caseId, samples[i].repetition)
  }

  function Grid(cases: set<Case>, repetitions: int): set<(Case, int)> {
    set c, n | c in cases && 1 <= n <= repetitions :: (c, n)
  }

  ghost predicate AllDistinct(samples: seq<Sample>) {
    forall i, j :: 0 <= i < j < |samples| ==>
      samples[i].id != samples[j].id && (samples[i].caseId != samples[j].caseId || samples[i].repetition != samples[j].repetition)
  }

  lemma {:induction false} PairsSize(samples: seq<Sample>)
    requires AllDistinct(samples)
    ensures |Pairs(samples)| == |samples|
  {
    if samples != [] {
      var front, last := samples[..|samples| - 1], samples[|samples| - 1];
      PairsSize(front);
      assert Pairs(samples) == Pairs(front) + {(last.caseId, last.repetition)};
      assert (last.caseId, last.repetition) !in Pairs(front);
    }
  }

  lemma {:induction false} RowSize(c: Case, repetitions: int)
    requires repetitions >= 0
    ensures |Grid({c}, repetitions)| == repetitions
  {
    if repetitions == 0 {
      assert Grid({c}, 0) == {};
    } else {
      RowSize(c, repetitions - 1);
      assert Grid({c}, repetitions) == Grid({c}, repetitions - 1) + {(c, repetitions)};
    }
  }

  lemma GridSplit(cases: set<Case>, c: Case, repetitions: int)
    requires c in cases
    ensures Grid(cases, repetitions) == Grid(cases - {c}, repetitions) + Grid({c}, repetitions)
    ensures Grid(cases - {c}, repetitions) !! Grid({c}, repetitions)
  {
  }

  lemma OneMore(n: int, k: int)
    ensures (n + 1) * k == n * k + k
  {
  }

  lemma {:induction false} GridSize(cases: set<Case>, repetitions: int)
    requires repetitions >= 0
    ensures |Grid(cases, repetitions)| == |cases| * repetitions
  {
    if cases == {} {
      assert Grid(cases, repetitions) == {};
    } else {
      hide Grid;
      var c :| c in cases;
      GridSize(cases - {c}, repetitions);
      RowSize(c, repetitions);
      GridSplit(cases, c, repetitions);
      OneMore(|cases - {c}|, repetitions);
    }
  }

  function QualityGroups(groups: int, numbers: int): set<Case> {
    set g, n | 0 <= g < groups && 1 <= n <= numbers :: Quality(g, n)
  }

  function QualityGroup(g: int, numbers: int): set<Case> {
    set n | 1 <= n <= numbers :: Quality(g, n)
  }

  lemma {:induction false} GroupSize(g: int, numbers: int)
    requires numbers >= 0
    ensures |QualityGroup(g, numbers)| <= numbers
  {
    if numbers == 0 {
      assert QualityGroup(g, 0) == {};
    } else {
      GroupSize(g, numbers - 1);
      assert QualityGroup(g, numbers) == QualityGroup(g, numbers - 1) + {Quality(g, numbers)};
    }
  }

  lemma {:induction false} QualitySize(groups: int)
    requires groups >= 0
    ensures |QualityGroups(groups, 8)| <= 8 * groups
  {
    if groups == 0 {
      assert QualityGroups(0, 8) == {};
    } else {
      QualitySize(groups - 1);
      GroupSize(groups - 1, 8);
      assert QualityGroups(groups, 8) == QualityGroups(groups - 1, 8) + QualityGroup(groups - 1, 8);
    }
  }

  /** What one accepted sample says about its place among the others. */
  lemma SampleAt(r: Report, i: nat)
    requires Built(r) && i < |r.samples|
    ensures r.start.Some? && 1 <= r.samples[i].repetition <= r.config.repetitions
    ensures forall k | 0 <= k < i :: r.samples[k].id != r.samples[i].id &&
              (r.samples[k].caseId != r.samples[i].caseId || r.samples[k].repetition != r.samples[i].repetition)
    ensures if r.config.quality then QualityCase(r.samples[i].caseId)
            else |Cases(r.samples[..i]) + {r.samples[i].caseId}| <= LEGACY_CASES
    ensures (r.samples[i].passed ==> r.samples[i].oraclePassed) && ReceiptsOk(r.samples[i])
  {
    hide StartOk, PreflightOk, SummaryOk, ValidFailure, ReceiptsOk, UsageOk, Cases;
    var before := r.samples[..i];
    assert SampleOk(r.config, r.start.value, before, r.samples[i]);
    assert forall k :: 0 <= k < i ==> r.samples[k] == before[k];
  }

  lemma DistinctSamples(r: Report)
    requires Built(r)
    ensures AllDistinct(r.samples) && Pairs(r.samples) <= Grid(Cases(r.samples), r.config.repetitions)
  {
    hide Built, ReceiptsOk, QualityCase;
    forall i | 0 <= i < |r.samples| ensures 1 <= r.samples[i].repetition <= r.config.repetitions { SampleAt(r, i); }
    forall i, j | 0 <= i < j < |r.samples|
      ensures r.samples[i].id != r.samples[j].id &&
              (r.samples[i].caseId != r.samples[j].caseId || r.samples[i].repetition != r.samples[j].repetition)
    {
      SampleAt(r, j);
    }
  }

  /** Accepted samples name no more cases than the suite has. */
  lemma CasesInSuite(r: Report)
    requires Built(r)
    ensures r.config.quality ==> Cases(r.samples) <= QualityGroups(5, 8)
    ensures |Cases(r.samples)| <= CaseCount(r.config)
  {
    hide Built, ReceiptsOk;
    if r.config.quality {
      forall i | 0 <= i < |r.samples| ensures QualityCase(r.samples[i].caseId) { SampleAt(r, i); }
      assert Cases(r.samples) <= QualityGroups(5, 8);
      QualitySize(5);
      SubsetSize(Cases(r.samples), QualityGroups(5, 8));
    } else if r.samples != [] {
      var n := |r.samples| - 1;
      SampleAt(r, n);
      assert Cases(r.samples) == Cases(r.samples[..n]) + {r.samples[n].caseId};
    }
  }

  lemma {:induction false} AllPassed(samples: seq<Sample>)
    ensures CountPassed(samples) <= |samples|
    ensures CountPassed(samples) == |samples| ==> forall i :: 0 <= i < |samples| ==> samples[i].passed
  {
    if samples != [] { AllPassed(samples[..|samples| - 1]); }
  }

  lemma CancelFactor(a: int, b: int, k: int)
    requires k >= 1 && a * k >= b * k
    ensures a >= b
  {
    assert a * k - b * k == (a - b) * k;
  }

  /** As many distinct pairs as the grid can hold fill the grid, and leave no case out. */
  lemma FullGrid(pairs: set<(Case, int)>, cases: set<Case>, repetitions: int, count: nat)
    requires repetitions >= 1 && pairs <= Grid(cases, repetitions) && |cases| <= count && |pairs| == count * repetitions
    ensures pairs == Grid(cases, repetitions) && |cases| == count
  {
    GridSize(cases, repetitions);
    SubsetSize(pairs, Grid(cases, repetitions));
    CancelFactor(|cases|, count, repetitions);
    SubsetEqual(pairs, Grid(cases, repetitions));
  }

  /** The status alone already fixes the exit code and the number of samples, and that all of them passed. */
  lemma PassedFacts(r: Report, exit: Option<int>)
    requires Built(r) && Conclude(r, exit).0 == Passed
    ensures exit == Some(0) && |r.samples| == CaseCount(r.config) * r.config.repetitions
    ensures forall i :: 0 <= i < |r.samples| ==> r.samples[i].passed
  {
    hide PreflightOk, SampleOk, RateOk, UsageOk, ExpectedDurations, ExpectedUsage, Calls, CountPassed;
    AllPassed(r.samples);
  }

  /** A report that says "passed" means it: the child exited with zero, every sample passed with its full
      evidence, the suite's number of cases was met, and every case ran once in every repetition; for the
      quality suite these are exactly the forty cases of the corpus. */
  lemma PassedMeans(config: Config, events: seq<Event>, exit: Option<int>)
    requires ConfigOk(config, Some(SERVICE_INPUT_TOKENS)) && AcceptAll(NewReport(config), events).Some?
    requires Finish(AcceptAll(NewReport(config), events).value, exit, None).status == Passed
    ensures var r := AcceptAll(NewReport(config), events).value;
            && exit == Some(0) && |r.samples| == CaseCount(config) * config.repetitions && AllDistinct(r.samples)
            && (forall i :: 0 <= i < |r.samples| ==> r.samples[i].passed && r.samples[i].oraclePassed && ReceiptsOk(r.samples[i]))
            && |Cases(r.samples)| == CaseCount(config) && Pairs(r.samples) == Grid(Cases(r.samples), config.repetitions)
            && (config.quality ==> Cases(r.samples) == QualityGroups(5, 8))
  {
    hide AcceptAll, Built, Conclude, ReceiptsOk, Cases, Pairs, Grid, QualityGroups, AllDistinct;
    var r := AcceptAll(NewReport(config), events).value;
    AcceptAllBuilt(config, events);
    PassedFacts(r, exit);
    DistinctSamples(r);
    CasesInSuite(r);
    PairsSize(r.samples);
    FullGrid(Pairs(r.samples), Cases(r.samples), config.repetitions, CaseCount(config));
    forall i | 0 <= i < |r.samples| ensures r.samples[i].oraclePassed && ReceiptsOk(r.samples[i]) { SampleAt(r, i); }
    if config.quality {
      QualitySize(5);
      SubsetEqual(Cases(r.samples), QualityGroups(5, 8));
    }
  }

  /** What the other closing statuses mean when the launcher itself did not fail. */
  lemma StatusMeans(config: Config, events: seq<Event>, exit: Option<int>)
    requires AcceptAll(NewReport(config), events).Some?
    ensures var r := AcceptAll(NewReport(config), events).value;
            var status := Finish(r, exit, None).status;
            && (status == PreflightOnlyPassed ==>
                  exit == Some(0) && r.samples == [] && r.preflight.Some? && r.preflight.value.passed)
            && (status == PilotPassed ==>
                  exit == Some(0) && |r.samples| == 1 && r.samples[0].passed && r.samples[0].caseId == PILOT)
            && (status == PilotFailed ==> exit == Some(1) && |r.samples| == 1 && !r.samples[0].passed)
            && (status == FailedRun ==> exit != Some(0))
  {
    hide AcceptAll, PreflightOk, ReceiptsOk, RateOk, UsageOk, ExpectedDurations, ExpectedUsage, Calls, Cases, StartOk;
    var r := AcceptAll(NewReport(config), events).value;
    AcceptAllBuilt(config, events);
    if |r.samples| == 1 {
      assert SampleOk(r.config, r.start.value, r.samples[..0], r.samples[0]);
      assert r.samples[..0] == [] && CountPassed(r.samples) == if r.samples[0].passed then 1 else 0;
    }
  }

  // ---------------------------------------------------------------- the mutable report

  class Journal {
    const config: Config
    var start: Option<Start>
    var error: Option<Failure>
    var preflight: Option<Preflight>
    var samples: seq<Sample>
    var summary: Option<Summary>
    var status: ReportStatus
    var exitCode: Option<int>
    var failure: Option<Failure>
    var finished: bool

    function View(): Report
      reads this
    {
      Report(config, start, error, preflight, samples, summary, status, exitCode, failure, finished)
    }

    constructor (c: Config)
      ensures View() == NewReport(c)
    {
      config := c;
      start, error, preflight, samples, summary := None, None, None, [], None;
      status, exitCode, failure, finished := InProgress, None, None, false;
    }

    /** An event that is refused changes nothing. */
    method AcceptEvent(e: Event) returns (ok: bool)
      modifies this
      ensures ok <==> Accept(old(View()), e).Some?
      ensures View() == if ok then Accept(old(View()), e).value else old(View())
    {
      hide StartOk, PreflightOk, SampleOk, SummaryOk, ValidFailure;
      if summary.Some? { return false; }
      match e {
        case StartEvent(s) =>
          if start.Some? || !StartOk(config, s) { return false; }
          start := Some(s);
          error := None;
        case ErrorEvent(f) =>
          if !ValidFailure(f) || error.Some? { return false; }
          error := Some(f);
        case PreflightEvent(p) =>
          if start.None? || preflight.Some? || samples != [] || !PreflightOk(config, start.value, p) { return false; }
          preflight := Some(p);
        case SampleEvent(s) =>
          if start.None? || start.value.preflightOnly == Some(true) { return false; }
          if preflight.None? || !preflight.value.passed { return false; }
          if !SampleOk(config, start.value, samples, s) { return false; }
          samples := samples + [s];
        case SummaryEvent(s) =>
          if start.None? || preflight.None? || !SummaryOk(start.value, preflight.value, samples, s) { return false; }
          summary := Some(s);
        case UnknownEvent => return false;
      }
      return true;
    }

    method FinishReport(exit: Option<int>, cause: Option<Failure>)
      modifies this
      ensures View() == Finish(old(View()), exit, cause)
    {
      hide Conclude;
      finished, exitCode, failure := true, exit, cause;
      if cause.Some? {
        status := FailureStatus(cause.value.code);
      } else {
        var concluded := Conclude(View(), exit);
        SameConclusion(View(), old(View()), exit);
        status, failure := concluded.0, concluded.1;
      }
    }
  }

  lemma SameConclusion(a: Report, b: Report, exit: Option<int>)
    requires Unfinished(a) == Unfinished(b)
    ensures Conclude(a, exit) == Conclude(b, exit)
  {
    assert a.start == Unfinished(a).start && b.start == Unfinished(b).start;
    assert a.error == Unfinished(a).error && b.error == Unfinished(b).error;
    assert a.preflight == Unfinished(a).preflight && b.preflight == Unfinished(b).preflight;
    assert a.samples == Unfinished(a).samples && b.samples == Unfinished(b).samples;
    assert a.summary == Unfinished(a).summary && b.summary == Unfinished(b).summary;
  }

  /** Reads a saved report back by replaying it into a new one. */
  method ValidateReport(r: Report) returns (ok: bool)
    ensures ok <==> Valid(r)
  {
    hide Rebuild, ValidFailure, ConfigOk, Conclude;
    var floor := None;
    if r.start.Some? {
      if !HasCeiling(r.start.value) { return false; }
      floor := Some(Floor(r.start.value.profile.maxInputTokens.value));
    }
    if !ConfigOk(r.config, floor) { return false; }
    var rebuilt, accepted := Replay(r);
    if !accepted || (r.failure.Some? && !ValidFailure(r.failure.value)) { return false; }
    if r.status == InProgress { return !r.finished; }
    rebuilt.FinishReport(r.exitCode, r.failure);
    return rebuilt.status == r.status;
  }

  method Replay(r: Report) returns (rebuilt: Journal, ok: bool)
    ensures fresh(rebuilt) && (ok <==> Rebuild(r).Some?) && (ok ==> rebuilt.View() == Rebuild(r).value)
  {
    hide Accept, AcceptSamples;
    rebuilt := new Journal(r.config);
    ok := true;
    if r.start.Some? { ok := rebuilt.AcceptEvent(StartEvent(r.start.value)); }
    if ok && r.preflight.Some? { ok := rebuilt.AcceptEvent(PreflightEvent(r.preflight.value)); }
    ok := ReplaySamples(rebuilt, r.samples, ok, if ok then Some(rebuilt.View()) else None);
    if ok && r.error.Some? { ok := rebuilt.AcceptEvent(ErrorEvent(r.error.value)); }
    if ok && r.summary.Some? { ok := rebuilt.AcceptEvent(SummaryEvent(r.summary.value)); }
  }

  method ReplaySamples(rebuilt: Journal, samples: seq<Sample>, soFar: bool, ghost base: Option<Report>) returns (ok: bool)
    requires soFar == base.Some? && (soFar ==> base.value == rebuilt.View())
    modifies rebuilt
    ensures ok <==> AcceptSamples(base, samples).Some?
    ensures ok ==> rebuilt.View() == AcceptSamples(base, samples).value
  {
    hide Accept;
    ok := soFar;
    for i := 0 to |samples|
      invariant ok <==> AcceptSamples(base, samples[..i]).Some?
      invariant ok ==> rebuilt.View() == AcceptSamples(base, samples[..i]).value
    {
      assert samples[..i + 1][..i] == samples[..i];
      if ok { ok := rebuilt.AcceptEvent(SampleEvent(samples[i])); }
    }
    assert samples[..|samples|] == samples;
  }
}
