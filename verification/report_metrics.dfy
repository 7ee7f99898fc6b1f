/** What the numbers of a report mean: each metric in terms of the cases, each counter of a case in
    terms of its claims, and the verdict in terms of both. */
module ReportMetrics {
  import opened Domain
  import opened Evidence
  import opened Gate
  import GO = GateOutputs
  import Grader
  import opened Report
  import opened Percentile

  // ---------------------------------------------------------------- what is counted

  predicate IsCorrect(c: CaseResult) { c.correct }
  predicate Ended(c: CaseResult) { c.terminalSuccess }

  function RecoveredOf(c: CaseResult): int { c.tally.recovered }
  function VerifiedOf(c: CaseResult): int { c.tally.verified }
  function InvalidOf(c: CaseResult): int { c.tally.invalidAccepted }
  function AcceptedOf(c: CaseResult): int { c.tally.accepted }
  function DetectedOf(c: CaseResult): int { c.tally.detected }
  function RejectedOf(c: CaseResult): int { c.tally.rejected }
  function MalformedOf(c: CaseResult): int { c.tally.malformed }
  function UnnecessaryOf(c: CaseResult): int { c.tally.unnecessary }
  function RetriesOf(c: CaseResult): int { c.tally.retries }

  function SumOf(cases: seq<CaseResult>, field: CaseResult -> int): int {
    if cases == [] then 0 else SumOf(cases[..|cases| - 1], field) + field(cases[|cases| - 1])
  }

  /** The sequence score of a case: matched calls over the longer sequence, and 1 if both are empty. */
  function Accuracy(c: CaseResult): real {
    if c.tally.denominator == 0 then 1.0 else c.tally.matched as real / c.tally.denominator as real
  }

  function AccuracySum(cases: seq<CaseResult>): real {
    if cases == [] then 0.0 else AccuracySum(cases[..|cases| - 1]) + Accuracy(cases[|cases| - 1])
  }

  ghost function Where(cases: seq<CaseResult>, holds: CaseResult -> bool): set<int> {
    set i | 0 <= i < |cases| && holds(cases[i])
  }

  /** How many cases satisfy the predicate. */
  ghost function Cases(cases: seq<CaseResult>, holds: CaseResult -> bool): nat {
    |Where(cases, holds)|
  }

  lemma WhereOneMore(cases: seq<CaseResult>, holds: CaseResult -> bool)
    requires cases != []
    ensures var k := |cases| - 1;
            Cases(cases, holds) == Cases(cases[..k], holds) + (if holds(cases[k]) then 1 else 0)
  {
    var k := |cases| - 1;
    if holds(cases[k]) {
      assert Where(cases, holds) == Where(cases[..k], holds) + {k};
    } else {
      assert Where(cases, holds) == Where(cases[..k], holds);
    }
  }

  lemma {:induction false} CountIsCases(cases: seq<CaseResult>, holds: CaseResult -> bool)
    ensures Count(cases, holds) == Cases(cases, holds)
  {
    if cases != [] {
      hide Cases;
      CountIsCases(cases[..|cases| - 1], holds);
      WhereOneMore(cases, holds);
    }
  }

  /** The counters of the metrics are sums over the cases, each of its own field. */
  predicate Counts(cases: seq<CaseResult>, t: Totals) {
    && t.correct == Count(cases, IsCorrect) && t.success == Count(cases, Ended) && t.sequence == AccuracySum(cases)
    && t.recovered == SumOf(cases, RecoveredOf) && t.verified == SumOf(cases, VerifiedOf)
    && t.invalidAccepted == SumOf(cases, InvalidOf) && t.accepted == SumOf(cases, AcceptedOf)
    && t.detected == SumOf(cases, DetectedOf) && t.rejected == SumOf(cases, RejectedOf)
    && t.malformed == SumOf(cases, MalformedOf)
    && t.unnecessary == SumOf(cases, UnnecessaryOf) && t.retries == SumOf(cases, RetriesOf)
  }

  lemma {:induction false} TotalsCount(cases: seq<CaseResult>)
    ensures Counts(cases, Total(cases))
  {
    if cases != [] {
      TotalsCount(cases[..|cases| - 1]);
    }
  }

  /** The rates are what they divide, without division: each times its denominator is its numerator,
      and the recovery rate is missing exactly if no transient fault was verified. */
  lemma {:induction false} MetricsAreRates(cases: seq<CaseResult>)
    ensures var m := Aggregate(cases);
            && m.count == |cases| && Counts(cases, m.totals)
            && m.totals.correct == Cases(cases, IsCorrect) && m.totals.success == Cases(cases, Ended)
            && m.correctness * |cases| as real == m.totals.correct as real
            && m.sequenceAccuracy * |cases| as real == AccuracySum(cases)
            && (m.recovery.None? <==> SumOf(cases, VerifiedOf) == 0)
            && (m.recovery.Some? ==>
                 m.recovery.value * SumOf(cases, VerifiedOf) as real == SumOf(cases, RecoveredOf) as real)
            && (SumOf(cases, AcceptedOf) != 0 ==>
                 m.invalidRate * SumOf(cases, AcceptedOf) as real == SumOf(cases, InvalidOf) as real)
            && (SumOf(cases, AcceptedOf) == 0 ==> m.invalidRate == 0.0)
  {
    TotalsCount(cases);
    CountIsCases(cases, IsCorrect);
    CountIsCases(cases, Ended);
    hide Counts, Total, Cases, Count, SumOf;
    assert Counts(cases, Total(cases));
    CountsMean(cases, Total(cases));
  }

  lemma {:induction false} CountsMean(cases: seq<CaseResult>, t: Totals)
    requires Counts(cases, t)
    ensures t.correct == Count(cases, IsCorrect) && t.success == Count(cases, Ended) && t.sequence == AccuracySum(cases)
    ensures t.recovered == SumOf(cases, RecoveredOf) && t.verified == SumOf(cases, VerifiedOf)
    ensures t.invalidAccepted == SumOf(cases, InvalidOf) && t.accepted == SumOf(cases, AcceptedOf)
    ensures cases == [] ==> t.correct == 0 && t.sequence == 0.0
  {
  }

  function InputOf(c: CaseResult): int { c.usage.inputTokens }
  function OutputOf(c: CaseResult): int { c.usage.outputTokens }

  function CostSum(cases: seq<CaseResult>): real {
    if cases == [] then 0.0 else CostSum(cases[..|cases| - 1]) + cases[|cases| - 1].usage.cost
  }

  lemma {:induction false} UsageAdds(cases: seq<CaseResult>)
    ensures Used(cases) == Usage(0, SumOf(cases, InputOf), SumOf(cases, OutputOf), CostSum(cases))
    ensures |Latencies(cases)| == |cases| && forall i :: 0 <= i < |cases| ==>
            Latencies(cases)[i] == cases[i].usage.latency
  {
    if cases != [] {
      UsageAdds(cases[..|cases| - 1]);
    }
  }

  /** Tokens and costs are sums over the cases; the percentiles are the measured latencies of nearest
      rank 50 and 95, in milliseconds. */
  lemma {:induction false} SpendingAddsUp(cases: seq<CaseResult>)
    ensures var spent := Spent(cases);
            && spent.inputTokens == SumOf(cases, InputOf) && spent.outputTokens == SumOf(cases, OutputOf)
            && spent.cost == CostSum(cases)
    ensures cases == [] ==> Spent(cases).p50 == 0.0 && Spent(cases).p95 == 0.0
    ensures cases != [] ==>
              var values := Latencies(cases);
              exists median, high: int ::
                && Ranked(values, Rank(50, |cases|), median) && Spent(cases).p50 * 1000000.0 == median as real
                && Ranked(values, Rank(95, |cases|), high) && Spent(cases).p95 * 1000000.0 == high as real
  {
    UsageAdds(cases);
    var values := Latencies(cases);
    hide Used, SumOf, Latencies, Ranked, Rank, NearestRank, Millis;
    if cases != [] {
      var median := MillisAreRanked(values, 50);
      var high := MillisAreRanked(values, 95);
    } else {
      NoMillis();
    }
  }

  lemma MillisAreRanked(values: seq<int>, percent: nat) returns (v: int)
    requires values != [] && 1 <= percent <= 100
    ensures Ranked(values, Rank(percent, |values|), v) && Millis(values, percent) * 1000000.0 == v as real
  {
    RankFits(percent, |values|);
    SortCounts(values, 0);
    v := NearestRank(values, percent).value;
    NearestRankIsMet(values, percent, v);
    hide Ranked, Rank, NearestRank;
  }

  lemma NoMillis()
    ensures Latencies([]) == [] && Millis([], 50) == 0.0 && Millis([], 95) == 0.0
  {
  }

  // ---------------------------------------------------------------- the counters of one case

  predicate IsTransient(fault: Fault) { Transient(fault.kind) }
  predicate IsInvalid(a: Accepted) { !ValidOutput(a.tool, a.output) }
  predicate IsMalformed(fault: Fault) { fault.kind.MalformedOutput? }

  lemma {:induction false} TransientCounted(faults: seq<Fault>)
    ensures |TransientFaults(faults)| == Count(faults, IsTransient)
  {
    if faults != [] {
      TransientCounted(faults[..|faults| - 1]);
    }
  }

  lemma {:induction false} CountFits<T>(s: seq<T>, holds: T -> bool)
    ensures Count(s, holds) <= |s|
  {
    if s != [] {
      CountFits(s[..|s| - 1], holds);
    }
  }

  /** The calls that were attempted. */
  function Calls(attempts: seq<Attempt>): set<Call> {
    set i | 0 <= i < |attempts| :: CallOf(attempts[i].id)
  }

  lemma {:induction false} OfCallMeans(attempts: seq<Attempt>, call: Call)
    ensures OfCall(attempts, call) == [] <==> call !in Calls(attempts)
  {
    if attempts != [] {
      var before, last := attempts[..|attempts| - 1], attempts[|attempts| - 1];
      OfCallMeans(before, call);
      assert Calls(attempts) == Calls(before) + {CallOf(last.id)};
    } else {
      assert Calls(attempts) == {};
    }
  }

  /** Retries are the attempts beyond the first one of each call. */
  lemma {:induction false} RetriesAreExtra(attempts: seq<Attempt>)
    ensures Retries(attempts) + |Calls(attempts)| == |attempts|
  {
    if attempts != [] {
      var before, last := attempts[..|attempts| - 1], attempts[|attempts| - 1];
      RetriesAreExtra(before);
      OfCallMeans(before, CallOf(last.id));
      assert Calls(attempts) == Calls(before) + {CallOf(last.id)};
      if CallOf(last.id) in Calls(before) {
        assert Calls(attempts) == Calls(before);
      }
      hide OfCall;
    } else {
      assert Calls(attempts) == {};
    }
  }

  /** A fault was recovered: the case is correct, and a later attempt of the same call succeeded. */
  ghost predicate RecoveredIn(claims: Claims, correct: bool, fault: Fault) {
    correct && exists i :: 0 <= i < |claims.attempts| && claims.attempts[i].closing.ClosedOk?
                && claims.attempts[i].id.step == fault.id.step && claims.attempts[i].id.tool == fault.id.tool
                && claims.attempts[i].id.attempt > fault.id.attempt
  }

  lemma RecoveredMeans(claims: Claims, correct: bool, fault: Fault)
    ensures Recovered(claims.attempts, correct, fault) <==> RecoveredIn(claims, correct, fault)
  {
    if Recovered(claims.attempts, correct, fault) {
      var i :| 0 <= i < |claims.attempts| && Recovers(fault, claims.attempts[i]);
    }
    if RecoveredIn(claims, correct, fault) {
      var i :| 0 <= i < |claims.attempts| && claims.attempts[i].closing.ClosedOk?
                && claims.attempts[i].id.step == fault.id.step && claims.attempts[i].id.tool == fault.id.tool
                && claims.attempts[i].id.attempt > fault.id.attempt;
      assert Recovers(fault, claims.attempts[i]);
    }
  }

  ghost function RecoveredAt(faults: seq<Fault>, claims: Claims, correct: bool): set<int> {
    set i | 0 <= i < |faults| && RecoveredIn(claims, correct, faults[i])
  }

  /** How many of these faults were recovered. */
  ghost function RecoveredAmong(faults: seq<Fault>, claims: Claims, correct: bool): nat {
    |RecoveredAt(faults, claims, correct)|
  }

  lemma RecoveredOneMore(faults: seq<Fault>, claims: Claims, correct: bool)
    requires faults != []
    ensures var k := |faults| - 1;
            RecoveredAmong(faults, claims, correct)
            == RecoveredAmong(faults[..k], claims, correct) + (if RecoveredIn(claims, correct, faults[k]) then 1 else 0)
  {
    hide RecoveredIn;
    var k := |faults| - 1;
    if RecoveredIn(claims, correct, faults[k]) {
      assert RecoveredAt(faults, claims, correct) == RecoveredAt(faults[..k], claims, correct) + {k};
    } else {
      assert RecoveredAt(faults, claims, correct) == RecoveredAt(faults[..k], claims, correct);
    }
  }

  lemma {:induction false} RecoveredCounted(faults: seq<Fault>, claims: Claims, correct: bool)
    ensures Count(faults, fault => Recovered(claims.attempts, correct, fault))
            == RecoveredAmong(faults, claims, correct)
  {
    hide RecoveredIn, Recovered;
    if faults != [] {
      RecoveredCounted(faults[..|faults| - 1], claims, correct);
      RecoveredMeans(claims, correct, faults[|faults| - 1]);
      RecoveredOneMore(faults, claims, correct);
      hide RecoveredAmong;
    }
  }

  /** What each counter of a case counts in its claims. */
  lemma {:induction false} TalliesCount(expected: seq<Tool>, claims: Claims, correct: bool)
    ensures var t := TallyOf(expected, claims, correct);
            && t.matched == Grader.Longest(expected, claims.tools) && t.matched <= t.denominator
            && t.denominator >= |expected| && t.denominator >= |claims.tools|
            && (t.denominator == |expected| || t.denominator == |claims.tools|)
            && t.matched + t.unnecessary <= |claims.tools| == t.logicalCalls
            && t.attempts == |claims.attempts| && t.retries + |Calls(claims.attempts)| == |claims.attempts|
            && t.verified == Count(claims.faults, IsTransient)
            && t.recovered == RecoveredAmong(TransientFaults(claims.faults), claims, correct)
            && t.recovered <= t.verified && (!correct ==> t.recovered == 0)
            && t.accepted == |claims.accepted| && t.invalidAccepted == Count(claims.accepted, IsInvalid) <= t.accepted
            && t.detected == |claims.rejections| && t.rejected == |claims.rejections|
            && t.malformed == Count(claims.faults, IsMalformed)
  {
    var transient := TransientFaults(claims.faults);
    TransientCounted(claims.faults);
    RetriesAreExtra(claims.attempts);
    RecoveredCounted(transient, claims, correct);
    CountFits(transient, fault => Recovered(claims.attempts, correct, fault));
    CountFits(claims.accepted, (a: Accepted) => !ValidOutput(a.tool, a.output));
    MalformedCounted(claims.faults);
    InvalidCounted(claims.accepted);
    Grader.LongestIsLongestCommon(expected, claims.tools);
    Grader.FullMarksMeanEqual(Grader.Longest(expected, claims.tools), expected, claims.tools);
    Grader.MatchedAndUnnecessaryFit(Grader.Longest(expected, claims.tools), expected, claims.tools);
    hide Grader.Longest, Grader.UnnecessaryCalls, Retries, Calls, Recovered, Grader.LongestCommon;
    assert !correct ==> RecoveredAmong(transient, claims, correct) == 0 by {
      if !correct {
        assert RecoveredAt(transient, claims, correct) == {};
      }
    }
  }

  lemma {:induction false} InvalidCounted(accepted: seq<Accepted>)
    ensures Count(accepted, (a: Accepted) => !ValidOutput(a.tool, a.output)) == Count(accepted, IsInvalid)
  {
    if accepted != [] {
      InvalidCounted(accepted[..|accepted| - 1]);
    }
  }

  lemma {:induction false} MalformedCounted(faults: seq<Fault>)
    ensures Count(faults, (fault: Fault) => fault.kind.MalformedOutput?) == Count(faults, IsMalformed)
  {
    if faults != [] {
      MalformedCounted(faults[..|faults| - 1]);
    }
  }

  // ---------------------------------------------------------------- intact cases

  lemma {:induction false} NoneInvalid(accepted: seq<Accepted>)
    requires forall i :: 0 <= i < |accepted| ==> ValidOutput(accepted[i].tool, accepted[i].output)
    ensures Count(accepted, (a: Accepted) => !ValidOutput(a.tool, a.output)) == 0
  {
    if accepted != [] {
      NoneInvalid(accepted[..|accepted| - 1]);
    }
  }

  lemma {:induction false} PlanEntry(entries: seq<LogicalAction>, k: nat)
    requires k in ByStep(entries)
    ensures exists i :: 0 <= i < |entries| && entries[i] == ByStep(entries)[k]
  {
    var last := entries[|entries| - 1];
    if last.step != k {
      PlanEntry(entries[..|entries| - 1], k);
      var i :| 0 <= i < |entries| - 1 && entries[..|entries| - 1][i] == ByStep(entries)[k];
      assert entries[i] == ByStep(entries)[k];
    }
  }

  lemma ExpectedIsValid(entry: LogicalAction, a: Accepted)
    requires EntryOk(entry) && entry.tool == Some(a.tool) && entry.expected == Some(OfOutput(a.output))
    ensures ValidOutput(a.tool, a.output)
  {
  }

  /** What the gate accepts is what the fixture answers, so an intact case accepted nothing invalid. */
  lemma AcceptedAreValid(c: Case, frozen: Frozen)
    requires ClaimsOf(c, frozen).Some?
    ensures forall i :: 0 <= i < |ClaimsOf(c, frozen).value.accepted| ==>
              ValidOutput(ClaimsOf(c, frozen).value.accepted[i].tool, ClaimsOf(c, frozen).value.accepted[i].output)
  {
    GO.AcceptedOutputsAreTheSuccesses(c, frozen);
    assert FrozenOk(frozen) by { hide Fold, Conclude, HeaderOk, FrozenOk; }
    assert forall i :: 0 <= i < |frozen.actions| ==> EntryOk(frozen.actions[i]);
    hide ClaimsOf, ByStep, FrozenOk, GO.SuccessEvidence, ValidOutput, EntryOk;
    var accepted := ClaimsOf(c, frozen).value.accepted;
    forall i | 0 <= i < |accepted|
      ensures ValidOutput(accepted[i].tool, accepted[i].output)
    {
      PlanEntry(frozen.actions, accepted[i].step);
      var k :| 0 <= k < |frozen.actions| && frozen.actions[k] == ByStep(frozen.actions)[accepted[i].step];
      ExpectedIsValid(frozen.actions[k], accepted[i]);
    }
  }

  /** The outcome that a run's result stands for. */
  predicate HasOutcome(status: Status, result: RunResult, code: Code) {
    match result
    case Outcome(outcome, _, _) => code == if status.Succeeded? then outcome else MissingTerminalOutcome
    case Failure(failure, _) => code == if status.Succeeded? then MissingTerminalOutcome else failure
    case OtherResult(_) => code == MissingTerminalOutcome
  }

  /** What an intact case says of itself: its claims are the gate's; it is correct exactly if the outcome
      of its claims is the expected one; the faults it declared are those that were injected, each
      failing exactly one attempt; the rejections are the failures for an invalid output; and its
      counters are those of its claims. */
  lemma IntactCasesMean(catalogue: Catalogue, c: CaseResult, entry: Entry)
    requires CaseIntact(catalogue, c, entry)
    ensures ClaimsOf(c.evidence, entry.frozen) == Some(c.claims)
    ensures HasOutcome(c.claims.status, c.claims.result, c.observedOutcome)
    ensures c.correct <==> HasOutcome(c.claims.status, c.claims.result, entry.expectedOutcome)
    ensures c.terminalSuccess <==> c.claims.status.Succeeded?
    ensures multiset(entry.declared) == multiset(c.claims.faults) && c.declared == entry.declared
    ensures c.expectedTools == entry.expectedTools && c.expectedOutcome == entry.expectedOutcome
    ensures c.logicalActions == entry.frozen.actions
    ensures forall i :: 0 <= i < |c.claims.faults| ==> Count(c.claims.attempts, a => Fails(c.claims.faults[i], a)) == 1
    ensures multiset(c.claims.rejections) == multiset(InvalidIds(c.claims.attempts))
    ensures forall i :: 0 <= i < |c.claims.attempts| ==>
              var a := c.claims.attempts[i];
              && (a.closing.ClosedOk? ==> a.code.None? && a.transient.None?)
              && (a.closing.ClosedError? ==> a.code.Some? && a.transient.Some?)
    ensures c.tally == TallyOf(entry.expectedTools, c.claims, c.correct) && c.tally.invalidAccepted == 0
    ensures c.claims.reconstructed ==>
            entry.frozen.approvalSupplied && c.evidence.preWrites == 0 && c.evidence.writes == 1
    ensures entry.scenarioId in catalogue && |entry.frozen.actions| == |catalogue[entry.scenarioId].0|
            && entry.frozen.context == catalogue[entry.scenarioId].1
            && forall i :: 0 <= i < |entry.frozen.actions| ==>
                entry.frozen.actions[i].payload == catalogue[entry.scenarioId].0[i]
  {
    AcceptedAreValid(c.evidence, entry.frozen);
    hide ClaimsOf, AttemptsContiguous, InvalidIds, Grader.Longest, Grader.UnnecessaryCalls, ValidOutput;
    NoneInvalid(c.claims.accepted);
    assert c.tally.invalidAccepted == 0;
  }

  /** Every case of the report is intact against the entry of its own scenario. */
  predicate CasesIntact(catalogue: Catalogue, manifest: seq<Entry>, cases: seq<CaseResult>) {
    forall i :: 0 <= i < |cases| ==>
      && cases[i].id.scenarioId in ById(manifest)
      && CaseIntact(catalogue, cases[i], ById(manifest)[cases[i].id.scenarioId])
  }

  lemma {:induction false} IntactSums(catalogue: Catalogue, manifest: seq<Entry>, cases: seq<CaseResult>)
    requires CasesIntact(catalogue, manifest, cases)
    ensures 0 <= SumOf(cases, RecoveredOf) <= SumOf(cases, VerifiedOf)
    ensures SumOf(cases, InvalidOf) == 0 && SumOf(cases, AcceptedOf) >= 0
    ensures 0.0 <= AccuracySum(cases) <= |cases| as real
  {
    hide CaseIntact;
    if cases != [] {
      var before, c := cases[..|cases| - 1], cases[|cases| - 1];
      IntactSums(catalogue, manifest, before);
      var entry := ById(manifest)[c.id.scenarioId];
      assert CaseIntact(catalogue, c, entry);
      IntactCasesMean(catalogue, c, entry);
      TalliesCount(entry.expectedTools, c.claims, c.correct);
      hide TallyOf, Count, RecoveredAmong, Calls;
      AccuracyIsRate(c);
    }
  }

  lemma AccuracyIsRate(c: CaseResult)
    requires c.tally.matched <= c.tally.denominator
    ensures 0.0 <= Accuracy(c) <= 1.0
  {
    if c.tally.denominator > 0 {
      var m, d := c.tally.matched as real, c.tally.denominator as real;
      assert 0.0 <= m / d <= 1.0;
    }
  }

  lemma RateIsBounded(rate: real, part: real, whole: real)
    requires rate * whole == part && 0.0 <= part <= whole && 0.0 < whole
    ensures 0.0 <= rate <= 1.0
  {
  }

  /** On intact cases all rates lie between 0 and 1, and no invalid output was accepted. */
  lemma IntactRates(catalogue: Catalogue, manifest: seq<Entry>, cases: seq<CaseResult>)
    requires CasesIntact(catalogue, manifest, cases)
    ensures var m := Aggregate(cases);
            && 0.0 <= m.correctness <= 1.0 && 0.0 <= m.sequenceAccuracy <= 1.0
            && (m.recovery.Some? ==> 0.0 <= m.recovery.value <= 1.0)
            && m.totals.invalidAccepted == 0 && m.invalidRate == 0.0
  {
    hide CasesIntact, SumOf, AccuracySum, Count, Counts, Cases;
    IntactSums(catalogue, manifest, cases);
    MetricsAreRates(cases);
    var m := Aggregate(cases);
    CountsMean(cases, m.totals);
    CountFits(cases, IsCorrect);
    hide Aggregate;
    if cases != [] {
      RateIsBounded(m.correctness, m.totals.correct as real, |cases| as real);
      RateIsBounded(m.sequenceAccuracy, AccuracySum(cases), |cases| as real);
    } else {
      EmptyRates();
    }
    if m.recovery.Some? {
      RateIsBounded(m.recovery.value, SumOf(cases, RecoveredOf) as real, SumOf(cases, VerifiedOf) as real);
    }
    NoInvalid(m.invalidRate, SumOf(cases, AcceptedOf) as real);
  }

  lemma EmptyRates()
    ensures Aggregate([]).correctness == 0.0 && Aggregate([]).sequenceAccuracy == 0.0
  {
  }

  lemma NoInvalid(rate: real, whole: real)
    requires whole != 0.0 ==> rate * whole == 0.0
    requires whole == 0.0 ==> rate == 0.0
    ensures rate == 0.0
  {
  }

  // ---------------------------------------------------------------- the verdict

  lemma RatioBelow(n: int, d: int, p: int, q: int)
    requires d > 0 && q > 0
    ensures Ratio(n, d) < p as real / q as real <==> n * q < p * d
  {
    var r := Ratio(n, d);
    assert r * d as real == n as real;
    assert (p as real / q as real) * q as real == p as real;
    if n * q < p * d {
      assert (n * q) as real < (p * d) as real;
      assert n as real * q as real < p as real * d as real;
    } else {
      assert n as real * q as real >= p as real * d as real;
    }
  }

  /** Each failure stands for one comparison of counters. */
  lemma VerdictsAreThresholds(m: Metrics, baseline: Option<Metrics>)
    ensures var verdict := Judge(m, baseline);
            && (Correctness in verdict <==> m.count == 0 || 5 * m.totals.correct < 4 * m.count)
            && (NoDenominator in verdict <==> m.totals.verified == 0)
            && (m.totals.verified > 0 ==> (Recovery in verdict <==> 4 * m.totals.recovered < 3 * m.totals.verified))
            && (m.totals.verified == 0 ==> Recovery !in verdict)
            && (AcceptedInvalid in verdict <==> m.totals.invalidAccepted != 0)
            && (baseline.None? ==> Regression !in verdict)
            && (baseline.Some? ==>
                 var before := Ratio(baseline.value.totals.correct, baseline.value.count);
                 (Regression in verdict <==> before > Ratio(m.totals.correct, m.count) + 0.05))
  {
    if m.count != 0 {
      RatioBelow(m.totals.correct, m.count, 4, 5);
    }
    if m.totals.verified > 0 {
      RatioBelow(m.totals.recovered, m.totals.verified, 3, 4);
    }
  }

  lemma ModeCases(catalogue: Catalogue, r: EvaluationReport, mode: Mode)
    requires Intact(catalogue, r) && mode in r.modes
    ensures r.modes[mode].metrics == Aggregate(r.modes[mode].cases)
    ensures CasesIntact(catalogue, r.manifest, r.modes[mode].cases)
  {
    hide ModesIntact, CaseIntact, Aggregate, Spent, ById;
    assert ModeIntact(catalogue, r.manifest, mode, r.modes[mode]);
  }

  /** The counters of a mode of an intact report, in terms of its cases. */
  lemma ModeReads(catalogue: Catalogue, r: EvaluationReport, mode: Mode)
    requires Intact(catalogue, r) && mode in r.modes
    ensures var m, cases := r.modes[mode].metrics, r.modes[mode].cases;
            && m.count == |cases| && m.totals.correct == Cases(cases, IsCorrect) && m.totals.invalidAccepted == 0
            && m.totals.verified == SumOf(cases, VerifiedOf) >= 0 && m.totals.recovered == SumOf(cases, RecoveredOf)
  {
    hide Intact, CasesIntact, SumOf, Cases, Counts, Aggregate;
    ModeCases(catalogue, r, mode);
    var cases := r.modes[mode].cases;
    MetricsAreRates(cases);
    CountsMean(cases, Aggregate(cases).totals);
    IntactSums(catalogue, r.manifest, cases);
  }

  lemma IntactModes(catalogue: Catalogue, r: EvaluationReport)
    requires Intact(catalogue, r)
    ensures Resilient in r.modes
  {
    hide ModeIntact, ModesIntact;
  }

  /** A report passes the gate exactly if it and its baseline are intact and comparable, at least four
      fifths of the resilient cases are correct, transient faults were injected and at least three
      quarters of them recovered, and correctness fell by at most a twentieth. */
  lemma PassingMeans(catalogue: Catalogue, r: EvaluationReport, baseline: Option<EvaluationReport>)
    ensures EnforceGate(catalogue, r, baseline) == Judged({})
            <==>
              && Intact(catalogue, r)
              && (baseline.Some? ==> Intact(catalogue, baseline.value) && Comparable(r, baseline.value))
              && Resilient in r.modes && (baseline.Some? ==> Resilient in baseline.value.modes)
              && var cases := r.modes[Resilient].cases;
                 && cases != [] && 5 * Cases(cases, IsCorrect) >= 4 * |cases|
                 && SumOf(cases, VerifiedOf) > 0 && 4 * SumOf(cases, RecoveredOf) >= 3 * SumOf(cases, VerifiedOf)
                 && (baseline.Some? ==>
                      var before := baseline.value.modes[Resilient].cases;
                      Ratio(Cases(before, IsCorrect), |before|) <= Ratio(Cases(cases, IsCorrect), |cases|) + 0.05)
  {
    hide Intact, Judge, SumOf, Cases, Ratio, Comparable;
    if Intact(catalogue, r) {
      IntactModes(catalogue, r);
      ModeReads(catalogue, r, Resilient);
      if baseline.Some? && Intact(catalogue, baseline.value) {
        IntactModes(catalogue, baseline.value);
        ModeReads(catalogue, baseline.value, Resilient);
      }
      var before := if baseline.Some? && Resilient in baseline.value.modes
                    then Some(baseline.value.modes[Resilient].metrics) else None;
      VerdictsAreThresholds(r.modes[Resilient].metrics, before);
      JudgeIsWithin(r.modes[Resilient].metrics, before);
    }
  }

  lemma JudgeIsWithin(m: Metrics, baseline: Option<Metrics>)
    ensures Judge(m, baseline) == {}
            <==> (Correctness !in Judge(m, baseline) && NoDenominator !in Judge(m, baseline)
                  && Recovery !in Judge(m, baseline)
                  && AcceptedInvalid !in Judge(m, baseline) && Regression !in Judge(m, baseline))
  {
    var all := Judge(m, baseline);
    if all != {} {
      var f :| f in all;
    }
  }

  /** Which verdicts there are: an intact report is compared with an intact baseline exactly if both come
      from one manifest under one configuration. */
  lemma ComparedOnlyWithinOneSuite(catalogue: Catalogue, r: EvaluationReport, baseline: Option<EvaluationReport>)
    ensures var verdict := EnforceGate(catalogue, r, baseline);
            && (verdict.Broken? <==> !Intact(catalogue, r) || (baseline.Some? && !Intact(catalogue, baseline.value)))
            && (!verdict.Broken? ==>
                 (verdict.Incomparable? <==>
                   baseline.Some? && (r.manifest != baseline.value.manifest
                                      || r.configuration != baseline.value.configuration)))
  {
    hide Judge, Intact;
    if Intact(catalogue, r) {
      IntactHead(catalogue, r);
      if baseline.Some? && Intact(catalogue, baseline.value) {
        IntactHead(catalogue, baseline.value);
      }
    }
  }

  /** What an intact report says of its origin. */
  lemma IntactHead(catalogue: Catalogue, r: EvaluationReport)
    requires Intact(catalogue, r)
    ensures |r.revision| == 40 && (forall c :: c in r.revision ==> '0' <= c <= '9' || 'a' <= c <= 'f') && !r.dirty
    ensures r.suite == OfManifest(multiset(r.manifest)) && r.modes.Keys == {Fragile, Resilient}
    ensures forall i, j :: 0 <= i < j < |r.manifest| ==> IdOf(r.manifest[i]) != IdOf(r.manifest[j])
  {
    hide ModeIntact, ModesIntact;
  }

  /** Positions of one sequence, one for each element of another that has no repetition. */
  lemma {:induction false} DistinctFit(ids: seq<Identity>, among: seq<Identity>)
    requires forall i, j :: 0 <= i < j < |ids| ==> ids[i] != ids[j]
    requires forall i :: 0 <= i < |ids| ==> ids[i] in among
    ensures |ids| <= |among|
  {
    if ids != [] {
      var last := ids[|ids| - 1];
      var k :| 0 <= k < |among| && among[k] == last;
      var rest := among[..k] + among[k + 1..];
      forall i | 0 <= i < |ids| - 1
        ensures ids[i] in rest
      {
        var j :| 0 <= j < |among| && among[j] == ids[i];
        assert j < k ==> rest[j] == ids[i];
        assert j > k ==> rest[j - 1] == ids[i];
      }
      DistinctFit(ids[..|ids| - 1], rest);
    }
  }

  predicate HasCase(cases: seq<CaseResult>, id: Identity) {
    exists i :: 0 <= i < |cases| && cases[i].id == id
  }

  function CaseIds(cases: seq<CaseResult>): seq<Identity> {
    seq(|cases|, i requires 0 <= i < |cases| => cases[i].id)
  }

  function EntryIds(manifest: seq<Entry>): seq<Identity> {
    seq(|manifest|, i requires 0 <= i < |manifest| => IdOf(manifest[i]))
  }

  /** Both modes of an intact report have exactly one case for each entry of the manifest and no other,
      run in that mode; its metrics and its spending are those of its cases. */
  lemma EveryEntryIsRunOnce(catalogue: Catalogue, r: EvaluationReport, mode: Mode)
    requires Intact(catalogue, r) && mode in r.modes
    ensures var result := r.modes[mode];
            && result.mode == mode && |result.cases| == |r.manifest|
            && (forall i :: 0 <= i < |result.cases| ==> result.cases[i].evidence.mode == mode)
            && (forall k :: 0 <= k < |r.manifest| ==> HasCase(result.cases, IdOf(r.manifest[k])))
            && (forall i, j :: 0 <= i < j < |result.cases| ==> result.cases[i].id != result.cases[j].id)
            && result.metrics == Aggregate(result.cases) && result.spent == Spent(result.cases)
  {
    hide Intact, IdOf, CoversManifest, Aggregate, Spent;
    IntactHead(catalogue, r);
    ModeHead(catalogue, r, mode);
    CoveredOnce(r.manifest, mode, r.modes[mode]);
    EntriesReported(r.manifest, mode, r.modes[mode]);
  }

  lemma ModeHead(catalogue: Catalogue, r: EvaluationReport, mode: Mode)
    requires Intact(catalogue, r) && mode in r.modes
    ensures CoversManifest(r.manifest, mode, r.modes[mode])
    ensures r.modes[mode].metrics == Aggregate(r.modes[mode].cases) && r.modes[mode].spent == Spent(r.modes[mode].cases)
  {
    hide ModesIntact, CaseIntact, Aggregate, Spent, ById, CoversManifest;
    assert ModeIntact(catalogue, r.manifest, mode, r.modes[mode]);
  }

  lemma EntriesReported(manifest: seq<Entry>, mode: Mode, result: ModeResult)
    requires CoversManifest(manifest, mode, result)
    ensures result.mode == mode && forall i :: 0 <= i < |result.cases| ==> result.cases[i].evidence.mode == mode
    ensures forall i, j :: 0 <= i < j < |result.cases| ==> result.cases[i].id != result.cases[j].id
    ensures forall k :: 0 <= k < |manifest| ==> HasCase(result.cases, IdOf(manifest[k]))
  {
    hide IdOf, Listed;
    forall k | 0 <= k < |manifest|
      ensures HasCase(result.cases, IdOf(manifest[k]))
    {
      assert Reported(result.cases, IdOf(manifest[k]));
    }
  }

  lemma CoveredOnce(manifest: seq<Entry>, mode: Mode, result: ModeResult)
    requires CoversManifest(manifest, mode, result)
    requires forall i, j :: 0 <= i < j < |manifest| ==> IdOf(manifest[i]) != IdOf(manifest[j])
    ensures |result.cases| == |manifest|
  {
    hide IdOf;
    var cases := result.cases;
    forall i | 0 <= i < |cases|
      ensures cases[i].id in EntryIds(manifest)
    {
      assert Listed(manifest, cases[i].id);
      var k :| 0 <= k < |manifest| && IdOf(manifest[k]) == cases[i].id;
      assert EntryIds(manifest)[k] == cases[i].id;
    }
    forall k | 0 <= k < |manifest|
      ensures IdOf(manifest[k]) in CaseIds(cases)
    {
      assert Reported(cases, IdOf(manifest[k]));
      var i :| 0 <= i < |cases| && cases[i].id == IdOf(manifest[k]);
      assert CaseIds(cases)[i] == IdOf(manifest[k]);
    }
    DistinctFit(CaseIds(cases), EntryIds(manifest));
    DistinctFit(EntryIds(manifest), CaseIds(cases));
  }

  /** Where a scenario id stands twice, the last entry of the manifest is the one that its cases are held
      against, and the last case of a mode the one that the modes are compared by. */
  lemma {:induction false} LastEntryIsUsed(manifest: seq<Entry>, k: nat)
    requires k < |manifest|
    requires forall j :: k < j < |manifest| ==> manifest[j].scenarioId != manifest[k].scenarioId
    ensures manifest[k].scenarioId in ById(manifest) && ById(manifest)[manifest[k].scenarioId] == manifest[k]
  {
    if k < |manifest| - 1 {
      LastEntryIsUsed(manifest[..|manifest| - 1], k);
    }
  }

  lemma {:induction false} LastCaseIsCompared(cases: seq<CaseResult>, k: nat)
    requires k < |cases|
    requires forall j :: k < j < |cases| ==> cases[j].id.scenarioId != cases[k].id.scenarioId
    ensures cases[k].id.scenarioId in CaseById(cases) && CaseById(cases)[cases[k].id.scenarioId] == cases[k]
  {
    if k < |cases| - 1 {
      LastCaseIsCompared(cases[..|cases| - 1], k);
    }
  }

  // ---------------------------------------------------------------- between the modes

  /** No scenario id occurs twice. */
  predicate Separate(cases: seq<CaseResult>) {
    forall i, j :: 0 <= i < j < |cases| ==> cases[i].id.scenarioId != cases[j].id.scenarioId
  }

  lemma {:induction false} FoundOnce(cases: seq<CaseResult>, i: nat)
    requires Separate(cases) && i < |cases|
    ensures cases[i].id.scenarioId in CaseById(cases) && CaseById(cases)[cases[i].id.scenarioId] == cases[i]
  {
    hide CaseById;
    LastCaseIsCompared(cases, i);
  }

  /** The comparison of an intact report adds to the fragile rates and counters what the resilient ones
      have more, and names the scenarios that recovered a fault and that only the resilient mode
      got right. */
  lemma ComparisonsMean(catalogue: Catalogue, r: EvaluationReport)
    requires Intact(catalogue, r)
    ensures r.comparison.Some? && r.modes.Keys == {Fragile, Resilient}
    ensures var c, fragile, resilient := r.comparison.value, r.modes[Fragile].metrics, r.modes[Resilient].metrics;
            && fragile.correctness + c.correctness == resilient.correctness
            && fragile.sequenceAccuracy + c.sequence == resilient.sequenceAccuracy
            && fragile.invalidRate + c.invalid == resilient.invalidRate
            && fragile.totals.unnecessary + c.unnecessary == resilient.totals.unnecessary
            && fragile.totals.retries + c.retries == resilient.totals.retries
            && r.modes[Fragile].spent.p50 + c.p50 == r.modes[Resilient].spent.p50
            && r.modes[Fragile].spent.p95 + c.p95 == r.modes[Resilient].spent.p95
            && (c.recovery.Some? <==> fragile.recovery.Some? && resilient.recovery.Some?)
            && (c.recovery.Some? ==> fragile.recovery.value + c.recovery.value == resilient.recovery.value)
    ensures var fragile, resilient := r.modes[Fragile].cases, r.modes[Resilient].cases;
            Separate(fragile) && Separate(resilient) ==>
              forall i, j :: 0 <= i < |fragile| && 0 <= j < |resilient|
                             && fragile[i].id.scenarioId == resilient[j].id.scenarioId ==>
                (resilient[j].id.scenarioId in r.comparison.value.worse
                 <==> resilient[j].tally.recovered > 0 && !fragile[i].correct && resilient[j].correct)
  {
    hide ModeIntact, Unique, Paired, CaseById;
    var fragile, resilient := r.modes[Fragile].cases, r.modes[Resilient].cases;
    if Separate(fragile) && Separate(resilient) {
      forall i, j | 0 <= i < |fragile| && 0 <= j < |resilient| && fragile[i].id.scenarioId == resilient[j].id.scenarioId
        ensures resilient[j].id.scenarioId in r.comparison.value.worse
                <==> resilient[j].tally.recovered > 0 && !fragile[i].correct && resilient[j].correct
      {
        FoundOnce(fragile, i);
        FoundOnce(resilient, j);
      }
    }
  }

  /** In an intact report a scenario that declares no transient fault has the same claims, the same
      verdict and the same share in the metrics in both modes. */
  lemma UnretriedCasesAgree(catalogue: Catalogue, r: EvaluationReport, i: nat, j: nat)
    requires Intact(catalogue, r) && r.modes.Keys == {Fragile, Resilient}
    requires var fragile, resilient := r.modes[Fragile].cases, r.modes[Resilient].cases;
             && Separate(fragile) && Separate(resilient) && i < |fragile| && j < |resilient|
             && fragile[i].id.scenarioId == resilient[j].id.scenarioId
    requires TransientFaults(r.modes[Fragile].cases[i].declared) == []
    ensures var a, b := r.modes[Fragile].cases[i], r.modes[Resilient].cases[j];
            && a.claims == b.claims && a.correct == b.correct && a.observedOutcome == b.observedOutcome
            && a.terminalSuccess == b.terminalSuccess && a.logicalActions == b.logicalActions
            && a.evidence.preWrites == b.evidence.preWrites && a.evidence.writes == b.evidence.writes
            && a.tally == b.tally && Score(a) == Score(b) && a.storeRuns == b.storeRuns
  {
    hide ModeIntact, Unique, CaseById, CompareModes, CaseIntact, TallyOf, Aggregate, ById, Spent;
    ModeCases(catalogue, r, Fragile);
    ModeCases(catalogue, r, Resilient);
    var a, b := r.modes[Fragile].cases[i], r.modes[Resilient].cases[j];
    FoundOnce(r.modes[Fragile].cases, i);
    FoundOnce(r.modes[Resilient].cases, j);
    assert Paired(a, b);
    hide Intact;
    var entry := ById(r.manifest)[a.id.scenarioId];
    TalliesAre(catalogue, a, entry);
    TalliesAre(catalogue, b, entry);
  }

  lemma TalliesAre(catalogue: Catalogue, c: CaseResult, entry: Entry)
    requires CaseIntact(catalogue, c, entry)
    ensures c.tally == TallyOf(entry.expectedTools, c.claims, c.correct)
  {
    hide ClaimsOf, TallyOf, AttemptsContiguous, InvalidIds, Golden;
  }

  lemma {:induction false} IdsListed(cases: seq<CaseResult>, i: nat)
    requires i < |cases|
    ensures |RunIds(cases)| == |cases| == |TraceIds(cases)|
    ensures RunIds(cases)[i] == cases[i].runId && TraceIds(cases)[i] == cases[i].evidence.traceId
  {
    if |cases| > 1 {
      IdsListed(cases[..|cases| - 1], if i < |cases| - 1 then i else 0);
    }
  }

  lemma {:induction false} ItemListed(items: seq<Item>, k: nat)
    requires k < |items|
    ensures |ItemIds(items)| == |items| && ItemIds(items)[k] == items[k].eventId
  {
    if |items| > 1 {
      ItemListed(items[..|items| - 1], if k < |items| - 1 then k else 0);
    }
  }

  lemma {:induction false} EventListed(cases: seq<CaseResult>, i: nat, k: nat) returns (at: nat)
    requires i < |cases| && k < |cases[i].evidence.items|
    ensures at < |EventIds(cases)| && EventIds(cases)[at] == cases[i].evidence.items[k].eventId
  {
    var before, last := cases[..|cases| - 1], cases[|cases| - 1];
    if i < |before| {
      at := EventListed(before, i, k);
    } else {
      ItemListed(last.evidence.items, k);
      at := |EventIds(before)| + k;
    }
  }

  lemma ApartIn(a: seq<nat>, b: seq<nat>, i: nat, j: nat)
    requires Unique(a + b) && i < |a| && j < |b|
    ensures a[i] != b[j]
  {
    assert (a + b)[i] == a[i] && (a + b)[|a| + j] == b[j];
  }

  /** The modes of an intact report share no run, no trace and no event. */
  lemma ModesAreApart(catalogue: Catalogue, r: EvaluationReport, i: nat, j: nat)
    requires Intact(catalogue, r) && r.modes.Keys == {Fragile, Resilient}
    requires i < |r.modes[Fragile].cases| && j < |r.modes[Resilient].cases|
    ensures var a, b := r.modes[Fragile].cases[i], r.modes[Resilient].cases[j];
            && a.runId != b.runId && a.evidence.traceId != b.evidence.traceId
            && forall k, l :: 0 <= k < |a.evidence.items| && 0 <= l < |b.evidence.items| ==>
                 a.evidence.items[k].eventId != b.evidence.items[l].eventId
  {
    hide ModeIntact, Unique, CaseById, CompareModes, RunIds, TraceIds, EventIds;
    var fragile, resilient := r.modes[Fragile].cases, r.modes[Resilient].cases;
    IdsListed(fragile, i);
    IdsListed(resilient, j);
    ApartIn(RunIds(fragile), RunIds(resilient), i, j);
    ApartIn(TraceIds(fragile), TraceIds(resilient), i, j);
    forall k, l | 0 <= k < |fragile[i].evidence.items| && 0 <= l < |resilient[j].evidence.items|
      ensures fragile[i].evidence.items[k].eventId != resilient[j].evidence.items[l].eventId
    {
      var p := EventListed(fragile, i, k);
      var q := EventListed(resilient, j, l);
      ApartIn(EventIds(fragile), EventIds(resilient), p, q);
    }
  }
}
