/** A whole evaluation report: what the gate recomputes of it, and what it then decides
    (evaluation/gate.py, evaluation/graders.py).

    Rates, percentages and costs are exact. */
module Report {
  import opened Domain
  import opened Evidence
  import opened Gate
  import Grader
  import opened Percentile

  datatype Entry = Entry(
    scenarioId: string, version: nat, path: string, sha: string,
    frozen: Frozen, expectedTools: seq<Tool>, expectedOutcome: Code, declared: seq<Fault>)

  datatype Identity = Identity(scenarioId: string, version: nat, path: string, sha: string)

  /** The counters of a case that the gate recomputes. */
  datatype Tally = Tally(
    matched: nat, denominator: nat, unnecessary: nat, logicalCalls: nat,
    attempts: nat, retries: nat, verified: nat, recovered: nat,
    accepted: nat, invalidAccepted: nat, detected: nat, rejected: nat, malformed: nat)

  /** What a case took: measured nanoseconds, and estimated tokens and cost. */
  datatype Usage = Usage(latency: int, inputTokens: int, outputTokens: int, cost: real)

  /** `claims` are the fields that repeat what the trace says. */
  datatype CaseResult = CaseResult(
    id: Identity, runId: nat, evidence: Case, logicalActions: seq<LogicalAction>, claims: Claims,
    expectedOutcome: Code, observedOutcome: Code, correct: bool, terminalSuccess: bool,
    expectedTools: seq<Tool>, declared: seq<Fault>, tally: Tally, storeRuns: nat, usage: Usage)

  // ---------------------------------------------------------------- recomputing one case

  function TerminalOutcome(status: Status, result: RunResult): Code {
    if status.Succeeded? then if result.Outcome? then result.outcome else MissingTerminalOutcome
    else if result.Failure? then result.code else MissingTerminalOutcome
  }

  function Count<T>(s: seq<T>, holds: T -> bool): nat {
    if s == [] then 0 else Count(s[..|s| - 1], holds) + (if holds(s[|s| - 1]) then 1 else 0)
  }

  predicate Fails(fault: Fault, a: Attempt) {
    a.id == fault.id && a.closing.ClosedError? && a.code == Some(FaultCode(fault.kind))
        && a.transient == Some(Transient(fault.kind))
  }

  predicate Recovers(fault: Fault, a: Attempt) {
    a.id.step == fault.id.step && a.id.tool == fault.id.tool && a.id.attempt > fault.id.attempt && a.closing.ClosedOk?
  }

  predicate Recovered(attempts: seq<Attempt>, correct: bool, fault: Fault) {
    correct && exists i :: 0 <= i < |attempts| && Recovers(fault, attempts[i])
  }

  /** The attempts of each call beyond its first, summed. */
  function Retries(attempts: seq<Attempt>): nat {
    if attempts == [] then 0
    else
      var before, a := attempts[..|attempts| - 1], attempts[|attempts| - 1];
      Retries(before) + (if OfCall(before, CallOf(a.id)) == [] then 0 else 1)
  }

  function TransientFaults(faults: seq<Fault>): seq<Fault> {
    if faults == [] then []
    else
      var rest := TransientFaults(faults[..|faults| - 1]);
      if Transient(faults[|faults| - 1].kind) then rest + [faults[|faults| - 1]] else rest
  }

  function TallyOf(expected: seq<Tool>, claims: Claims, correct: bool): Tally {
    var transient := TransientFaults(claims.faults);
    Tally(
      Grader.Longest(expected, claims.tools),
      if |expected| > |claims.tools| then |expected| else |claims.tools|,
      Grader.UnnecessaryCalls(expected, claims.tools),
      |claims.tools|,
      |claims.attempts|,
      Retries(claims.attempts),
      |transient|,
      Count(transient, fault => Recovered(claims.attempts, correct, fault)),
      |claims.accepted|,
      Count(claims.accepted, (a: Accepted) => !ValidOutput(a.tool, a.output)),
      |claims.rejections|,
      |claims.rejections|,
      Count(claims.faults, (fault: Fault) => fault.kind.MalformedOutput?))
  }

  /** Per call, the attempt numbers are 1, 2, ... in some order, and codes fit the closings. */
  predicate AttemptsContiguous(attempts: seq<Attempt>) {
    && (forall i :: 0 <= i < |attempts| ==>
      && (attempts[i].closing.ClosedOk? ==> attempts[i].code.None? && attempts[i].transient.None?)
      && (attempts[i].closing.ClosedError? ==> attempts[i].code.Some? && attempts[i].transient.Some?))
    && (forall i :: 0 <= i < |attempts| ==>
      var own := OfCall(attempts, CallOf(attempts[i].id));
      forall n :: 1 <= n <= |own| ==> HasNumber(own, n))
  }

  predicate HasNumber(own: seq<Attempt>, n: nat) {
    exists j :: 0 <= j < |own| && own[j].id.attempt == n
  }

  function InvalidIds(attempts: seq<Attempt>): seq<AttemptId> {
    if attempts == [] then []
    else
      var rest, a := InvalidIds(attempts[..|attempts| - 1]), attempts[|attempts| - 1];
      if a.closing.ClosedError? && a.code == Some(InvalidOutput) then rest + [a.id] else rest
  }

  /** The golden suite, known to the gate independently of any manifest. */
  type Catalogue = map<string, (seq<Action>, Context)>

  predicate Golden(catalogue: Catalogue, entry: Entry) {
    && entry.scenarioId in catalogue
    && |entry.frozen.actions| == |catalogue[entry.scenarioId].0|
    && (forall i :: 0 <= i < |entry.frozen.actions| ==>
        entry.frozen.actions[i].payload == catalogue[entry.scenarioId].0[i])
    && entry.frozen.context == catalogue[entry.scenarioId].1
  }

  /** `_case_evidence_errors` finds nothing. */
  predicate CaseIntact(catalogue: Catalogue, c: CaseResult, entry: Entry) {
    var claims := ClaimsOf(c.evidence, entry.frozen);
    && Golden(catalogue, entry) && claims.Some? && c.claims == claims.value
    && c.logicalActions == entry.frozen.actions && c.expectedOutcome == entry.expectedOutcome
    && c.expectedTools == entry.expectedTools && c.declared == entry.declared
    && c.terminalSuccess == c.claims.status.Succeeded?
    && c.observedOutcome == TerminalOutcome(c.claims.status, c.claims.result)
    && c.correct == (c.observedOutcome == entry.expectedOutcome)
    && c.tally == TallyOf(c.expectedTools, c.claims, c.correct)
    && multiset(entry.declared) == multiset(c.claims.faults)
    && (forall i :: 0 <= i < |c.claims.faults| ==> Count(c.claims.attempts, a => Fails(c.claims.faults[i], a)) == 1)
    && AttemptsContiguous(c.claims.attempts)
    && multiset(c.claims.rejections) == multiset(InvalidIds(c.claims.attempts))
    && (c.claims.reconstructed ==> entry.frozen.approvalSupplied && c.evidence.preWrites == 0 && c.evidence.writes == 1)
  }

  // ---------------------------------------------------------------- aggregating cases

  /** What one case adds to the metrics of its mode; the sequence score is a rate. */
  datatype Totals = Totals(
    correct: int, success: int, sequence: real, recovered: int, verified: int, invalidAccepted: int, accepted: int,
    detected: int, rejected: int, malformed: int, unnecessary: int, retries: int)

  const ZERO := Totals(0, 0, 0.0, 0, 0, 0, 0, 0, 0, 0, 0, 0)

  function Plus(a: Totals, b: Totals): Totals {
    Totals(a.correct + b.correct, a.success + b.success, a.sequence + b.sequence, a.recovered + b.recovered,
           a.verified + b.verified, a.invalidAccepted + b.invalidAccepted, a.accepted + b.accepted,
           a.detected + b.detected, a.rejected + b.rejected, a.malformed + b.malformed,
           a.unnecessary + b.unnecessary, a.retries + b.retries)
  }

  function Ratio(numerator: int, denominator: int): real {
    if denominator == 0 then 0.0 else numerator as real / denominator as real
  }

  function Score(c: CaseResult): Totals {
    Totals(if c.correct then 1 else 0, if c.terminalSuccess then 1 else 0,
           if c.tally.denominator == 0 then 1.0 else Ratio(c.tally.matched, c.tally.denominator),
           c.tally.recovered, c.tally.verified, c.tally.invalidAccepted, c.tally.accepted,
           c.tally.detected, c.tally.rejected, c.tally.malformed, c.tally.unnecessary, c.tally.retries)
  }

  function Total(cases: seq<CaseResult>): Totals {
    if cases == [] then ZERO else Plus(Total(cases[..|cases| - 1]), Score(cases[|cases| - 1]))
  }

  datatype Metrics = Metrics(
    count: nat, totals: Totals, correctness: real, sequenceAccuracy: real, recovery: Option<real>, invalidRate: real)

  function Aggregate(cases: seq<CaseResult>): Metrics {
    var n, t := |cases|, Total(cases);
    Metrics(n, t, Ratio(t.correct, n), if n == 0 then 0.0 else t.sequence / n as real,
            if t.verified == 0 then None
                else Some(Ratio(t.recovered, t.verified)), Ratio(t.invalidAccepted, t.accepted))
  }

  function Latencies(cases: seq<CaseResult>): seq<int> {
    if cases == [] then [] else Latencies(cases[..|cases| - 1]) + [cases[|cases| - 1].usage.latency]
  }

  /** The sums over the cases; latencies are not summed. */
  function Used(cases: seq<CaseResult>): Usage {
    if cases == [] then Usage(0, 0, 0, 0.0)
    else
      var rest, last := Used(cases[..|cases| - 1]), cases[|cases| - 1].usage;
      Usage(0, rest.inputTokens + last.inputTokens, rest.outputTokens + last.outputTokens, rest.cost + last.cost)
  }

  /** The fields that depend on the machine and on estimates: latencies in milliseconds. */
  datatype Spending = Spending(p50: real, p95: real, inputTokens: int, outputTokens: int, cost: real)

  function Millis(values: seq<int>, percent: int): real
    requires 0 < percent <= 100
  {
    NearestRank(values, percent).value as real / 1000000.0
  }

  function Spent(cases: seq<CaseResult>): Spending {
    var used, latencies := Used(cases), Latencies(cases);
    Spending(Millis(latencies, 50), Millis(latencies, 95), used.inputTokens, used.outputTokens, used.cost)
  }

  /** The loop of `aggregate_cases`, one pass over the cases. */
  method AggregateCases(cases: seq<CaseResult>) returns (metrics: Metrics, spent: Spending)
    ensures metrics == Aggregate(cases) && spent == Spent(cases)
  {
    var totals, used, latencies := ZERO, Usage(0, 0, 0, 0.0), [];
    assert cases[..0] == [];
    for i := 0 to |cases|
      invariant totals == Total(cases[..i]) && used == Used(cases[..i]) && latencies == Latencies(cases[..i])
    {
      assert cases[..i + 1][..i] == cases[..i];
      var one := cases[i].usage;
      totals := Plus(totals, Score(cases[i]));
      used := Usage(0, used.inputTokens + one.inputTokens, used.outputTokens + one.outputTokens, used.cost + one.cost);
      latencies := latencies + [one.latency];
    }
    assert cases[..|cases|] == cases;
    var n := |cases|;
    metrics := Metrics(n, totals, Ratio(totals.correct, n), if n == 0 then 0.0 else totals.sequence / n as real,
                       if totals.verified == 0 then None else Some(Ratio(totals.recovered, totals.verified)),
                       Ratio(totals.invalidAccepted, totals.accepted));
    spent := Spending(Millis(latencies, 50), Millis(latencies, 95), used.inputTokens, used.outputTokens, used.cost);
  }

  // ---------------------------------------------------------------- a report

  datatype ModeResult = ModeResult(mode: Mode, cases: seq<CaseResult>, metrics: Metrics, spent: Spending)

  datatype SuiteDigest = OfManifest(entries: multiset<Entry>) | OtherSuite(text: string)

  datatype EvaluationReport = EvaluationReport(
    revision: string, dirty: bool, suite: SuiteDigest, manifest: seq<Entry>, configuration: string, modes: map<Mode,
        ModeResult>,
    comparison: Option<Comparison>)

  /** Resilient minus fragile, and the scenarios that only the resilient mode gets right. */
  datatype Comparison = Comparison(
    correctness: real, recovery: Option<real>, sequence: real, invalid: real, unnecessary: int, retries: int,
    p50: real, p95: real, worse: set<string>)

  function IdOf(entry: Entry): Identity {
    Identity(entry.scenarioId, entry.version, entry.path, entry.sha)
  }

  /** `{entry.scenario_id: entry}`. */
  function ById(manifest: seq<Entry>): map<string, Entry> {
    if manifest == [] then map[]
    else ById(manifest[..|manifest| - 1])[manifest[|manifest| - 1].scenarioId := manifest[|manifest| - 1]]
  }

  predicate Hex40(s: string) {
    |s| == 40 && forall i :: 0 <= i < 40 ==> '0' <= s[i] <= '9' || 'a' <= s[i] <= 'f'
  }

  /** The cases of a mode are those of the manifest, each once. */
  predicate CoversManifest(manifest: seq<Entry>, mode: Mode, result: ModeResult) {
    && result.mode == mode
    && (forall i :: 0 <= i < |result.cases| ==> result.cases[i].evidence.mode == mode)
    && (forall i, j :: 0 <= i < j < |result.cases| ==> result.cases[i].id != result.cases[j].id)
    && (forall i :: 0 <= i < |result.cases| ==> Listed(manifest, result.cases[i].id))
    && (forall k :: 0 <= k < |manifest| ==> Reported(result.cases, IdOf(manifest[k])))
  }

  predicate Listed(manifest: seq<Entry>, id: Identity) {
    exists k :: 0 <= k < |manifest| && IdOf(manifest[k]) == id
  }

  predicate Reported(cases: seq<CaseResult>, id: Identity) {
    exists i :: 0 <= i < |cases| && cases[i].id == id
  }

  predicate ModeIntact(catalogue: Catalogue, manifest: seq<Entry>, mode: Mode, result: ModeResult) {
    && result.metrics == Aggregate(result.cases) && result.spent == Spent(result.cases)
    && CoversManifest(manifest, mode, result)
    && (forall i :: 0 <= i < |result.cases| ==>
      && result.cases[i].id.scenarioId in ById(manifest)
      && CaseIntact(catalogue, result.cases[i], ById(manifest)[result.cases[i].id.scenarioId]))
  }

  // ---------------------------------------------------------------- checks between the modes

  function RunIds(cases: seq<CaseResult>): seq<nat> {
    if cases == [] then [] else RunIds(cases[..|cases| - 1]) + [cases[|cases| - 1].runId]
  }

  function TraceIds(cases: seq<CaseResult>): seq<nat> {
    if cases == [] then [] else TraceIds(cases[..|cases| - 1]) + [cases[|cases| - 1].evidence.traceId]
  }

  function ItemIds(items: seq<Item>): seq<nat> {
    if items == [] then [] else ItemIds(items[..|items| - 1]) + [items[|items| - 1].eventId]
  }

  function EventIds(cases: seq<CaseResult>): seq<nat> {
    if cases == [] then [] else EventIds(cases[..|cases| - 1]) + ItemIds(cases[|cases| - 1].evidence.items)
  }

  predicate Unique(ids: seq<nat>) {
    forall i, j :: 0 <= i < j < |ids| ==> ids[i] != ids[j]
  }

  /** `{case.scenario_id: case}`. */
  function CaseById(cases: seq<CaseResult>): map<string, CaseResult> {
    if cases == [] then map[]
    else CaseById(cases[..|cases| - 1])[cases[|cases| - 1].id.scenarioId := cases[|cases| - 1]]
  }

  predicate SameSemantics(a: CaseResult, b: CaseResult) {
    && a.claims == b.claims && a.expectedOutcome == b.expectedOutcome && a.observedOutcome == b.observedOutcome
    && a.correct == b.correct && a.terminalSuccess == b.terminalSuccess
    && a.evidence.preWrites == b.evidence.preWrites && a.evidence.writes == b.evidence.writes
    && a.storeRuns == b.storeRuns
  }

  /** Both modes ran the same frozen case, and agree on everything if nothing could be retried. */
  predicate Paired(fragile: CaseResult, resilient: CaseResult) {
    && fragile.logicalActions == resilient.logicalActions && fragile.expectedOutcome == resilient.expectedOutcome
    && fragile.expectedTools == resilient.expectedTools && fragile.declared == resilient.declared
    && (TransientFaults(fragile.declared) == [] ==> SameSemantics(fragile, resilient))
  }

  /** `compare_modes`: None where it raises. */
  function CompareModes(fragile: ModeResult, resilient: ModeResult): Option<Comparison> {
    var left, right := CaseById(fragile.cases), CaseById(resilient.cases);
    if left.Keys != right.Keys then None
    else Some(Comparison(
      resilient.metrics.correctness - fragile.metrics.correctness,
      if fragile.metrics.recovery.None? || resilient.metrics.recovery.None? then None
      else Some(resilient.metrics.recovery.value - fragile.metrics.recovery.value),
      resilient.metrics.sequenceAccuracy - fragile.metrics.sequenceAccuracy,
      resilient.metrics.invalidRate - fragile.metrics.invalidRate,
      resilient.metrics.totals.unnecessary - fragile.metrics.totals.unnecessary,
      resilient.metrics.totals.retries - fragile.metrics.totals.retries,
      resilient.spent.p50 - fragile.spent.p50, resilient.spent.p95 - fragile.spent.p95,
      set id | id in right && id in left && right[id].tally.recovered > 0 && !left[id].correct && right[id].correct))
  }

  /** `_integrity_errors` finds nothing. */
  predicate Intact(catalogue: Catalogue, r: EvaluationReport) {
    && Hex40(r.revision) && !r.dirty
    && r.modes.Keys == {Fragile, Resilient}
    && r.suite == OfManifest(multiset(r.manifest))
    && (forall i, j :: 0 <= i < j < |r.manifest| ==> IdOf(r.manifest[i]) != IdOf(r.manifest[j]))
    && (forall mode :: mode in r.modes ==> ModeIntact(catalogue, r.manifest, mode, r.modes[mode]))
    && ModesIntact(r, r.modes[Fragile], r.modes[Resilient])
  }

  predicate ModesIntact(r: EvaluationReport, fragile: ModeResult, resilient: ModeResult) {
    && Unique(RunIds(fragile.cases) + RunIds(resilient.cases))
    && Unique(TraceIds(fragile.cases) + TraceIds(resilient.cases))
    && Unique(EventIds(fragile.cases) + EventIds(resilient.cases))
    && (forall id :: id in CaseById(fragile.cases) && id in CaseById(resilient.cases) ==>
          Paired(CaseById(fragile.cases)[id], CaseById(resilient.cases)[id]))
    && r.comparison.Some? && CompareModes(fragile, resilient) == r.comparison
  }

  // ---------------------------------------------------------------- the thresholds

  datatype Failing = Correctness | NoDenominator | Recovery | AcceptedInvalid | Regression

  datatype GateResult = Broken | Incomparable | Judged(failures: set<Failing>)

  predicate Comparable(current: EvaluationReport, baseline: EvaluationReport) {
    && current.suite == baseline.suite && current.manifest == baseline.manifest
    && current.configuration == baseline.configuration && current.modes.Keys == baseline.modes.Keys
  }

  function Judge(m: Metrics, baseline: Option<Metrics>): set<Failing> {
    var correctness := Ratio(m.totals.correct, m.count);
    (if correctness < 0.8 then {Correctness} else {})
    + (if m.totals.verified == 0 then {NoDenominator}
       else if Ratio(m.totals.recovered, m.totals.verified) < 0.75 then {Recovery} else {})
    + (if m.totals.invalidAccepted != 0 then {AcceptedInvalid} else {})
    + (if baseline.Some? && Ratio(baseline.value.totals.correct, baseline.value.count) - correctness > 0.05
        then {Regression} else {})
  }

  /** `enforce_gate`. */
  function EnforceGate(catalogue: Catalogue, r: EvaluationReport, baseline: Option<EvaluationReport>): GateResult {
    if !Intact(catalogue, r) || (baseline.Some? && !Intact(catalogue, baseline.value)) then Broken
    else if baseline.Some? && !Comparable(r, baseline.value) then Incomparable
    else Judged(Judge(r.modes[Resilient].metrics, if baseline.Some? then Some(baseline.value.modes[Resilient].metrics)
        else None))
  }
}

/** Grading leaves no freedom: intact reports on the same evidence have the same metrics. */
module ReportDetermined {
  import opened Domain
  import opened Evidence
  import opened Gate
  import opened Report

  /** The same trace for every case the two reports share. */
  predicate SameEvidence(a: seq<CaseResult>, b: seq<CaseResult>) {
    forall i, j :: 0 <= i < |a| && 0 <= j < |b| && a[i].id == b[j].id ==>
      a[i].evidence.traceId == b[j].evidence.traceId && a[i].evidence.items == b[j].evidence.items
  }

  lemma CyclesIgnoreWrites(c: Case, d: Case, frozen: Frozen, g: State)
    requires ApprovalCycles(c, frozen, g).Some? && ApprovalCycles(d, frozen, g).Some?
    ensures ApprovalCycles(c, frozen, g) == ApprovalCycles(d, frozen, g)
  {
    hide CycleOk, GatedSteps;
  }

  /** The write counters can only refuse a case; they do not change its claims. */
  lemma ClaimsIgnoreWrites(c: Case, d: Case, frozen: Frozen)
    requires c.items == d.items && c.traceId == d.traceId && c.mode == d.mode
    requires ClaimsOf(c, frozen).Some? && ClaimsOf(d, frozen).Some?
    ensures ClaimsOf(c, frozen) == ClaimsOf(d, frozen)
  {
    var g := Fold(ByStep(frozen.actions), frozen.context, c.mode, Events(c.items)).state;
    hide Fold, ByStep, HeaderOk, FrozenOk, ApprovalCycles, Settled, PositionsOk, AttemptSemantics;
    CyclesIgnoreWrites(c, d, frozen, g);
  }

  /** An intact case has no free field that its metrics read. */
  lemma ScoreIsDetermined(catalogue: Catalogue, entry: Entry, a: CaseResult, b: CaseResult)
    requires CaseIntact(catalogue, a, entry) && CaseIntact(catalogue, b, entry)
    requires a.evidence.traceId == b.evidence.traceId && a.evidence.items == b.evidence.items
    requires a.evidence.mode == b.evidence.mode
    ensures Score(a) == Score(b) && a.claims == b.claims && a.tally == b.tally && a.correct == b.correct
  {
    ClaimsIgnoreWrites(a.evidence, b.evidence, entry.frozen);
    hide ClaimsOf, TallyOf, Golden, AttemptsContiguous, InvalidIds, TerminalOutcome;
  }

  // ---------------------------------------------------------------- the order of the cases does not matter

  datatype Graded = Graded(id: Identity, score: Totals)

  function Grades(cases: seq<CaseResult>): (grades: seq<Graded>)
    ensures |grades| == |cases|
    ensures forall i :: 0 <= i < |cases| ==> grades[i] == Graded(cases[i].id, Score(cases[i]))
  {
    if cases == [] then []
    else Grades(cases[..|cases| - 1]) + [Graded(cases[|cases| - 1].id, Score(cases[|cases| - 1]))]
  }

  function Sum(grades: seq<Graded>): Totals {
    if grades == [] then ZERO else Plus(Sum(grades[..|grades| - 1]), grades[|grades| - 1].score)
  }

  lemma {:induction false} TotalIsSum(cases: seq<CaseResult>)
    ensures Total(cases) == Sum(Grades(cases))
  {
    hide Score, Plus;
    if cases != [] {
      TotalIsSum(cases[..|cases| - 1]);
      assert Grades(cases)[..|cases| - 1] == Grades(cases[..|cases| - 1]);
    }
  }

  lemma {:induction false} SumWithout(grades: seq<Graded>, j: nat)
    requires j < |grades|
    ensures Sum(grades) == Plus(Sum(grades[..j] + grades[j + 1..]), grades[j].score)
  {
    var last := |grades| - 1;
    if j < last {
      var before := grades[..last];
      SumWithout(before, j);
      var rest := grades[..j] + grades[j + 1..];
      assert rest[..|rest| - 1] == before[..j] + before[j + 1..];
      assert rest[|rest| - 1] == grades[last];
    } else {
      assert grades[..j] + grades[j + 1..] == grades[..last];
    }
  }

  predicate Distinct(grades: seq<Graded>) {
    forall i, j :: 0 <= i < j < |grades| ==> grades[i].id != grades[j].id
  }

  predicate Within(a: seq<Graded>, b: seq<Graded>) {
    forall i :: 0 <= i < |a| ==> a[i] in b
  }

  lemma Inhabited(a: seq<Graded>, b: seq<Graded>)
    requires a != [] && Within(a, b)
    ensures b != []
  {
    assert a[0] in b;
  }

  /** Lists with the same members, each once, have the same sum. */
  lemma {:induction false} SameSums(a: seq<Graded>, b: seq<Graded>)
    requires Distinct(a) && Distinct(b) && Within(a, b) && Within(b, a)
    ensures Sum(a) == Sum(b) && |a| == |b|
  {
    if b != [] {
      Inhabited(b, a);
    }
    if a != [] {
      var last := a[|a| - 1];
      assert last in b;
      var j :| 0 <= j < |b| && b[j] == last;
      var a', b' := a[..|a| - 1], b[..j] + b[j + 1..];
      WithoutOne(a, b, j);
      SameSums(a', b');
      SumWithout(b, j);
      hide Plus, Sum, Within;
    }
  }

  /** Taking the same member out of both keeps what `SameSums` needs. */
  lemma WithoutOne(a: seq<Graded>, b: seq<Graded>, j: nat)
    requires Distinct(a) && Distinct(b) && Within(a, b) && Within(b, a)
    requires a != [] && j < |b| && b[j] == a[|a| - 1]
    ensures var a', b' := a[..|a| - 1], b[..j] + b[j + 1..];
            Distinct(a') && Distinct(b') && Within(a', b') && Within(b', a')
  {
    var a', b' := a[..|a| - 1], b[..j] + b[j + 1..];
    forall i | 0 <= i < |a'|
      ensures a'[i] in b'
    {
      assert a[i] in b;
      var k :| 0 <= k < |b| && b[k] == a[i];
      assert b'[if k < j then k else k - 1] == a'[i];
    }
    forall i | 0 <= i < |b'|
      ensures b'[i] in a'
    {
      var from := if i < j then i else i + 1;
      assert b'[i] == b[from] && b[from] in a;
      var k :| 0 <= k < |a| && a[k] == b[from];
      assert a'[k] == b'[i];
    }
  }

  /** A case of one report is graded alike in the other. */
  lemma GradedAgain(catalogue: Catalogue, manifest: seq<Entry>, mode: Mode, a: ModeResult, b: ModeResult, i: nat)
    requires ModeIntact(catalogue, manifest, mode, a) && ModeIntact(catalogue, manifest, mode, b)
    requires SameEvidence(a.cases, b.cases) && i < |a.cases|
    ensures Grades(a.cases)[i] in Grades(b.cases)
  {
    hide CaseIntact, Score, Aggregate, Spent;
    var id := a.cases[i].id;
    assert Listed(manifest, id);
    var k :| 0 <= k < |manifest| && IdOf(manifest[k]) == id;
    assert Reported(b.cases, id);
    var j :| 0 <= j < |b.cases| && b.cases[j].id == id;
    ScoreIsDetermined(catalogue, ById(manifest)[id.scenarioId], a.cases[i], b.cases[j]);
    assert Grades(b.cases)[j] == Grades(a.cases)[i];
  }

  lemma CoversWithin(catalogue: Catalogue, manifest: seq<Entry>, mode: Mode, a: ModeResult, b: ModeResult)
    requires ModeIntact(catalogue, manifest, mode, a) && ModeIntact(catalogue, manifest, mode, b)
    requires SameEvidence(a.cases, b.cases)
    ensures Distinct(Grades(a.cases)) && Within(Grades(a.cases), Grades(b.cases))
  {
    DistinctGrades(manifest, mode, a);
    hide ModeIntact, SameEvidence, Grades, Distinct;
    forall i | 0 <= i < |Grades(a.cases)|
      ensures Grades(a.cases)[i] in Grades(b.cases)
    {
      GradedAgain(catalogue, manifest, mode, a, b, i);
    }
  }

  lemma DistinctGrades(manifest: seq<Entry>, mode: Mode, a: ModeResult)
    requires CoversManifest(manifest, mode, a)
    ensures Distinct(Grades(a.cases)) && |Grades(a.cases)| == |a.cases|
  {
    hide Score;
  }

  lemma ModeIsDetermined(catalogue: Catalogue, manifest: seq<Entry>, mode: Mode, a: ModeResult, b: ModeResult)
    requires ModeIntact(catalogue, manifest, mode, a) && ModeIntact(catalogue, manifest, mode, b)
    requires SameEvidence(a.cases, b.cases) && SameEvidence(b.cases, a.cases)
    ensures a.metrics == b.metrics
  {
    assert a.metrics == Aggregate(a.cases) && b.metrics == Aggregate(b.cases);
    hide ModeIntact, SameEvidence, Grades, Sum, Total, Distinct, Within, Ratio;
    CoversWithin(catalogue, manifest, mode, a, b);
    CoversWithin(catalogue, manifest, mode, b, a);
    TotalIsSum(a.cases);
    TotalIsSum(b.cases);
    SameSums(Grades(a.cases), Grades(b.cases));
  }

  /** Two intact reports with the same manifest and, case by case, the same trace evidence have
      equal metrics in both modes, however their cases are ordered and whatever else they say. */
  lemma GradingHasNoFreeChoice(catalogue: Catalogue, a: EvaluationReport, b: EvaluationReport, mode: Mode)
    requires Intact(catalogue, a) && Intact(catalogue, b) && a.manifest == b.manifest
    requires forall m :: m in a.modes && m in b.modes ==> SameEvidence(a.modes[m].cases, b.modes[m].cases)
    ensures mode in a.modes && mode in b.modes && a.modes[mode].metrics == b.modes[mode].metrics
  {
    assert a.modes.Keys == {Fragile, Resilient} && b.modes.Keys == {Fragile, Resilient};
    assert mode.Fragile? || mode.Resilient?;
    assert mode in a.modes.Keys && mode in b.modes.Keys;
    assert ModeIntact(catalogue, a.manifest, mode, a.modes[mode])
        && ModeIntact(catalogue, a.manifest, mode, b.modes[mode]);
    hide Intact, ModeIntact;
    EvidenceIsMutual(a.modes[mode].cases, b.modes[mode].cases);
    hide SameEvidence;
    ModeIsDetermined(catalogue, a.manifest, mode, a.modes[mode], b.modes[mode]);
  }

  lemma EvidenceIsMutual(a: seq<CaseResult>, b: seq<CaseResult>)
    requires SameEvidence(a, b)
    ensures SameEvidence(b, a)
  {
  }

  /** So the gate's judgement of them is the same, with or without a baseline. */
  lemma VerdictHasNoFreeChoice(catalogue: Catalogue, a: EvaluationReport, b: EvaluationReport,
      baseline: Option<EvaluationReport>)
    requires Intact(catalogue, a) && Intact(catalogue, b) && a.manifest == b.manifest
    requires a.configuration == b.configuration
    requires forall m :: m in a.modes && m in b.modes ==> SameEvidence(a.modes[m].cases, b.modes[m].cases)
    ensures EnforceGate(catalogue, a, baseline) == EnforceGate(catalogue, b, baseline)
  {
    hide *;
    GradingHasNoFreeChoice(catalogue, a, b, Resilient);
    IntactView(catalogue, a);
    IntactView(catalogue, b);
    SameMetricsSameVerdict(catalogue, a, b, baseline);
  }

  lemma IntactView(catalogue: Catalogue, r: EvaluationReport)
    requires Intact(catalogue, r)
    ensures r.suite == OfManifest(multiset(r.manifest)) && r.modes.Keys == {Fragile, Resilient}
  {
    hide ModeIntact, ModesIntact;
  }

  /** Beyond intactness, the gate reads the suite, the configuration and the resilient metrics. */
  lemma SameMetricsSameVerdict(catalogue: Catalogue, a: EvaluationReport, b: EvaluationReport,
      baseline: Option<EvaluationReport>)
    requires Intact(catalogue, a) && Intact(catalogue, b)
    requires a.suite == b.suite && a.manifest == b.manifest && a.configuration == b.configuration
    requires a.modes.Keys == b.modes.Keys
    requires Resilient in a.modes && Resilient in b.modes && a.modes[Resilient].metrics == b.modes[Resilient].metrics
    ensures EnforceGate(catalogue, a, baseline) == EnforceGate(catalogue, b, baseline)
  {
    hide Intact, Judge;
  }
}
