/**
 * js/api/simulation.js: the scenario table, the additive adjustment rules
 * for risk reduction and response time, the recommendation list, single and
 * batch runs with the run history (most recent first, at most 50 entries),
 * and the summary of a batch.
 */
module Simulation {
  import opened Wrappers
  import opened Lists

  /** The number of history entries `saveHistory` keeps. */
  const HistoryCap: nat := 50

  // ---------------------------------------------------------------- the scenario table

  /**
   * The scenario parameters the rules read; a scenario without the key has
   * `None`, and every comparison with an absent value is false.
   */
  datatype Parameters = Parameters(
    trafficDensity: Option<real>,
    pedestrianDensity: Option<real>,
    accidentProbability: Option<real>,
    vehiclesInvolved: Option<real>,
    weatherCondition: Option<string>,
    enforcementPresence: Option<string>,
    emergencyResponse: Option<string>)

  const NoParameters: Parameters := Parameters(None, None, None, None, None, None, None)

  datatype Scenario = Scenario(key: string, name: string, parameters: Parameters)

  /** `SimulationService.scenarios`, in key order. */
  const Scenarios: seq<Scenario> := [
    Scenario("rush_hour", "Rush Hour",
      NoParameters.(trafficDensity := Some(95.0), accidentProbability := Some(0.15))),
    Scenario("school_zone", "School Zone",
      NoParameters.(pedestrianDensity := Some(80.0))),
    Scenario("weekend_night", "Weekend Night",
      NoParameters.(enforcementPresence := Some("reduced"))),
    Scenario("weather_emergency", "Weather Emergency",
      NoParameters.(weatherCondition := Some("heavy_rain"))),
    Scenario("highway_accident", "Highway Accident",
      NoParameters.(vehiclesInvolved := Some(3.0), emergencyResponse := Some("required")))
  ]

  /** `Object.keys(this.scenarios)` */
  const ScenarioKeys: seq<string> :=
    ["rush_hour", "school_zone", "weekend_night", "weather_emergency", "highway_accident"]

  /** The index of the scenario with the key, or -1 when the table has none. */
  function ScenarioIndex(key: string): (k: int)
    ensures -1 <= k < |Scenarios|
    ensures k == -1 <==> forall i :: 0 <= i < |Scenarios| ==> Scenarios[i].key != key
    ensures 0 <= k ==> Scenarios[k].key == key
  {
    FindFirst(Scenarios, (s: Scenario) => s.key == key)
  }

  /** Every listed key names its own row of the table. */
  lemma ScenarioKeysIndexed()
    ensures |ScenarioKeys| == |Scenarios|
    ensures forall i :: 0 <= i < |ScenarioKeys| ==> ScenarioIndex(ScenarioKeys[i]) == i
  {
    forall i | 0 <= i < |ScenarioKeys|
      ensures ScenarioIndex(ScenarioKeys[i]) == i
    {
      var k := ScenarioIndex(ScenarioKeys[i]);
      assert Scenarios[i].key == ScenarioKeys[i];
      assert forall j :: 0 <= j < |Scenarios| && j != i ==> Scenarios[j].key != ScenarioKeys[i];
    }
  }

  // ---------------------------------------------------------------- adjustment rules

  /** `value > bound`, false for an absent value. */
  predicate Above(v: Option<real>, bound: real) { v.Some? && v.value > bound }

  /** `value === s`, false for an absent value. */
  predicate Is(v: Option<string>, s: string) { v.Some? && v.value == s }

  /** The adjustment `calculateRiskReduction` adds to its base value. */
  function RiskAdjustment(p: Parameters): (adj: real)
    ensures 0.0 <= adj <= 0.35
    ensures adj == 0.0 <==>
      !Above(p.trafficDensity, 90.0) && !Above(p.pedestrianDensity, 70.0)
      && !Is(p.weatherCondition, "heavy_rain") && !Above(p.vehiclesInvolved, 2.0)
  {
    (if Above(p.trafficDensity, 90.0) then 0.05 else 0.0)
    + (if Above(p.pedestrianDensity, 70.0) then 0.08 else 0.0)
    + (if Is(p.weatherCondition, "heavy_rain") then 0.1 else 0.0)
    + (if Above(p.vehiclesInvolved, 2.0) then 0.12 else 0.0)
  }

  /** `calculateRiskReduction` as a fraction: base plus adjustment, capped at 0.95. */
  function CalculateRiskReduction(s: Scenario, base: real): (r: real)
    ensures r <= 0.95 && r <= base + RiskAdjustment(s.parameters)
    ensures r == base + RiskAdjustment(s.parameters) || r == 0.95
  {
    var v := base + RiskAdjustment(s.parameters);
    if v < 0.95 then v else 0.95
  }

  /** With a base drawn from [0.6, 0.9) the result lies in [0.6, 0.95] and never falls below the base. */
  lemma RiskReductionRange(s: Scenario, base: real)
    requires 0.6 <= base < 0.9
    ensures 0.6 <= base <= CalculateRiskReduction(s, base) <= 0.95
  {
  }

  /** The adjustment `calculateResponseTime` adds to its base value. */
  function ResponseAdjustment(p: Parameters): (adj: real)
    ensures -1.5 <= adj <= 2.0
  {
    (if Above(p.accidentProbability, 0.1) then -1.0 else 0.0)
    + (if Is(p.enforcementPresence, "reduced") then 2.0 else 0.0)
    + (if Is(p.emergencyResponse, "required") then -0.5 else 0.0)
  }

  /** `calculateResponseTime`: base plus adjustment, never below 3 seconds. */
  function CalculateResponseTime(s: Scenario, base: real): (r: real)
    ensures r >= 3.0 && r >= base + ResponseAdjustment(s.parameters)
    ensures r == base + ResponseAdjustment(s.parameters) || r == 3.0
  {
    var v := base + ResponseAdjustment(s.parameters);
    if v > 3.0 then v else 3.0
  }

  /** With a base drawn from [5, 10) the response time lies in [3, 12). */
  lemma ResponseTimeRange(s: Scenario, base: real)
    requires 5.0 <= base < 10.0
    ensures 3.0 <= CalculateResponseTime(s, base) < 12.0
  {
  }

  /** What the rules add for each row of the table. */
  lemma TableAdjustments()
    ensures RiskAdjustment(Scenarios[0].parameters) == 0.05 && ResponseAdjustment(Scenarios[0].parameters) == -1.0
    ensures RiskAdjustment(Scenarios[1].parameters) == 0.08 && ResponseAdjustment(Scenarios[1].parameters) == 0.0
    ensures RiskAdjustment(Scenarios[2].parameters) == 0.0 && ResponseAdjustment(Scenarios[2].parameters) == 2.0
    ensures RiskAdjustment(Scenarios[3].parameters) == 0.1 && ResponseAdjustment(Scenarios[3].parameters) == 0.0
    ensures RiskAdjustment(Scenarios[4].parameters) == 0.12 && ResponseAdjustment(Scenarios[4].parameters) == -0.5
  {
  }

  // ---------------------------------------------------------------- recommendations

  /** The two messages for the risk-reduction bucket (at least 80, at least 70, below). */
  function BucketMessages(riskPercent: real): (ms: seq<string>)
    ensures |ms| == 2
  {
    if riskPercent >= 80.0 then
      ["Excellent risk reduction - protocol highly effective",
       "Consider deploying this strategy in real situations"]
    else if riskPercent >= 70.0 then
      ["Good performance - minor optimizations needed",
       "Review response time for further improvements"]
    else
      ["Performance needs improvement",
       "Analyze bottlenecks in response protocol"]
  }

  /** The scenario-specific pairs, in rule order: traffic, pedestrians, heavy rain. */
  function ScenarioMessages(p: Parameters): (ms: seq<string>)
    ensures |ms| <= 6 && |ms| % 2 == 0
  {
    (if Above(p.trafficDensity, 80.0) then
       ["Implement dynamic lane management", "Adjust traffic signal coordination"] else [])
    + (if Above(p.pedestrianDensity, 60.0) then
         ["Increase pedestrian crossing time", "Deploy additional crossing guards"] else [])
    + (if Is(p.weatherCondition, "heavy_rain") then
         ["Activate weather response protocol immediately", "Reduce speed limits by 30%"] else [])
  }

  /**
   * `generateScenarioRecommendations`: the bucket pair first, then the
   * scenario pairs in order, at most five messages in all.
   */
  function GenerateScenarioRecommendations(s: Scenario, riskPercent: real): (r: seq<string>)
    ensures 2 <= |r| <= 5
    ensures r[..2] == BucketMessages(riskPercent)
    ensures |r| == Min(2 + |ScenarioMessages(s.parameters)|, 5)
    ensures r[2..] == ScenarioMessages(s.parameters)[..|r| - 2]
  {
    var all := BucketMessages(riskPercent) + ScenarioMessages(s.parameters);
    var r := Take(all, 5);
    assert r[..2] == all[..2];
    r
  }

  // ---------------------------------------------------------------- runs

  /** The three `Math.random()` draws of one `executeSimulation` and its clock reading. */
  datatype RunInputs = RunInputs(riskDraw: real, responseDraw: real, accuracyDraw: real, timestamp: string)

  predicate ValidInputs(d: RunInputs) {
    0.0 <= d.riskDraw < 1.0 && 0.0 <= d.responseDraw < 1.0 && 0.0 <= d.accuracyDraw < 1.0
  }

  /** The result object of a successful run; risk reduction in percent, response time in seconds. */
  datatype Outcome = Outcome(
    scenario: string,
    riskReduction: real,
    responseTime: real,
    accuracy: real,
    recommendations: seq<string>,
    parameters: Parameters,
    timestamp: string)

  /** An entry of the batch result: a successful run, or `{ scenario, success: false, error }`. */
  datatype RunResult = Success(outcome: Outcome) | Failure(key: string, error: string)

  predicate IsSuccess(r: RunResult) { r.Success? }

  /** `executeSimulation` (without the processing delay). */
  function ExecuteSimulation(s: Scenario, d: RunInputs): (o: Outcome)
    requires ValidInputs(d)
    ensures o.scenario == s.name && o.parameters == s.parameters && o.timestamp == d.timestamp
    ensures 60.0 <= o.riskReduction <= 95.0
    ensures 3.0 <= o.responseTime < 12.0
    ensures 0.85 <= o.accuracy < 0.95
    ensures o.recommendations == GenerateScenarioRecommendations(s, o.riskReduction)
  {
    var baseRisk := 0.6 + d.riskDraw * 0.3;
    var baseResponse := 5.0 + d.responseDraw * 5.0;
    RiskReductionRange(s, baseRisk);
    ResponseTimeRange(s, baseResponse);
    var risk := CalculateRiskReduction(s, baseRisk) * 100.0;
    Outcome(s.name, risk, CalculateResponseTime(s, baseResponse), 0.85 + d.accuracyDraw * 0.1,
            GenerateScenarioRecommendations(s, risk), s.parameters, d.timestamp)
  }

  /** What one `runScenario` call inside `runAllScenarios` contributes to the results. */
  function RunOne(key: string, d: RunInputs): (r: RunResult)
    requires ValidInputs(d)
    ensures r.Success? <==> ScenarioIndex(key) != -1
    ensures r.Failure? ==> r == Failure(key, "Unknown scenario: " + key)
    ensures r.Success? ==> r.outcome == ExecuteSimulation(Scenarios[ScenarioIndex(key)], d)
  {
    var k := ScenarioIndex(key);
    if k == -1 then Failure(key, "Unknown scenario: " + key) else Success(ExecuteSimulation(Scenarios[k], d))
  }

  predicate AllValid(inputs: seq<RunInputs>) {
    forall i :: 0 <= i < |inputs| ==> ValidInputs(inputs[i])
  }

  /** An entry of `resultsHistory`. */
  datatype HistoryEntry = HistoryEntry(scenario: string, timestamp: string, results: Outcome)

  /** The history entry a successful run adds. */
  function EntryFor(o: Outcome): HistoryEntry { HistoryEntry(o.scenario, o.timestamp, o) }

  /** The history after a batch with these results: each success prepends its entry and caps. */
  function Recorded(h: seq<HistoryEntry>, rs: seq<RunResult>): seq<HistoryEntry> {
    if |rs| == 0 then h
    else
      var prev := Recorded(h, rs[..|rs| - 1]);
      match rs[|rs| - 1]
      case Success(o) => Take([EntryFor(o)] + prev, HistoryCap)
      case Failure(_, _) => prev
  }

  /** The entries of the successful results, in run order. */
  function Entries(rs: seq<RunResult>): (es: seq<HistoryEntry>)
    ensures |es| == Count(rs, IsSuccess)
  {
    if |rs| == 0 then []
    else
      var front := rs[..|rs| - 1];
      CountAppend(front, [rs[|rs| - 1]], IsSuccess);
      assert front + [rs[|rs| - 1]] == rs;
      assert [rs[|rs| - 1]][1..] == [];
      Entries(front) + (match rs[|rs| - 1] case Success(o) => [EntryFor(o)] case Failure(_, _) => [])
  }

  /** One more result: a success is recorded in front, a failure leaves the list as it was. */
  lemma RecordedAppend(h: seq<HistoryEntry>, rs: seq<RunResult>, res: RunResult)
    ensures Recorded(h, rs + [res])
         == if res.Success? then Take([EntryFor(res.outcome)] + Recorded(h, rs), HistoryCap) else Recorded(h, rs)
    ensures Entries(rs + [res]) == [] <==> Entries(rs) == [] && res.Failure?
  {
    assert (rs + [res])[..|rs|] == rs;
  }

  /** The batch history is the successful runs' entries pushed one by one. */
  lemma {:induction false} RecordedIsPushAll(h: seq<HistoryEntry>, rs: seq<RunResult>)
    ensures Recorded(h, rs) == PushAll(h, Entries(rs), HistoryCap)
  {
    if |rs| > 0 {
      var front := rs[..|rs| - 1];
      RecordedIsPushAll(h, front);
      match rs[|rs| - 1]
      case Success(o) =>
        assert Entries(rs) == Entries(front) + [EntryFor(o)];
        PushAllAppend(h, Entries(front), EntryFor(o), HistoryCap);
      case Failure(_, _) =>
        assert Entries(rs) == Entries(front);
        assert Recorded(h, rs) == Recorded(h, front);
    }
  }

  /**
   * After a batch the history holds the new entries most recent first,
   * followed by the earlier history, capped at 50 once anything was added.
   */
  lemma HistoryRecentFirst(h: seq<HistoryEntry>, rs: seq<RunResult>)
    ensures var es := Entries(rs);
      Recorded(h, rs) == (if es == [] then h else Take(Reverse(es) + h, HistoryCap))
      && (es != [] ==> |Recorded(h, rs)| == Min(|es| + |h|, HistoryCap))
  {
    RecordedIsPushAll(h, rs);
    PushAllIsRecentFirst(h, Entries(rs), HistoryCap);
  }

  /** Run number `i` of a batch: key `i` with draw `i`. */
  function RunAt(keys: seq<string>, inputs: seq<RunInputs>): nat --> RunResult {
    (i: nat) requires i < |keys| && i < |inputs| && ValidInputs(inputs[i]) => RunOne(keys[i], inputs[i])
  }

  /** `results` of `runAllScenarios` after the first `n` keys: one entry per run, in order. */
  function ResultsUpTo(keys: seq<string>, inputs: seq<RunInputs>, n: nat): (rs: seq<RunResult>)
    requires n <= |keys| == |inputs| && AllValid(inputs)
    ensures |rs| == n
  {
    MapIndex(n, RunAt(keys, inputs))
  }

  /** One more key: its run is appended to the results so far. */
  lemma ResultsUpToStep(keys: seq<string>, inputs: seq<RunInputs>, i: nat)
    requires i < |keys| == |inputs| && AllValid(inputs)
    ensures ResultsUpTo(keys, inputs, i + 1) == ResultsUpTo(keys, inputs, i) + [RunOne(keys[i], inputs[i])]
  {
  }

  /** Entry `i` of the results is the outcome of running key `i`. */
  lemma ResultsUpToPointwise(keys: seq<string>, inputs: seq<RunInputs>, n: nat)
    requires n <= |keys| == |inputs| && AllValid(inputs)
    ensures forall i :: 0 <= i < n ==> ResultsUpTo(keys, inputs, n)[i] == RunOne(keys[i], inputs[i])
  {
    MapIndexPointwise(n, RunAt(keys, inputs));
  }

  /** Running every key of the table succeeds, in table order. */
  lemma TableRunsSucceed(inputs: seq<RunInputs>)
    requires |inputs| == |ScenarioKeys| && AllValid(inputs)
    ensures var rs := ResultsUpTo(ScenarioKeys, inputs, |ScenarioKeys|);
      (forall i :: 0 <= i < |rs| ==> rs[i].Success? && rs[i].outcome.scenario == Scenarios[i].name)
      && Count(rs, IsSuccess) == |Scenarios|
  {
    var rs := ResultsUpTo(ScenarioKeys, inputs, |ScenarioKeys|);
    ScenarioKeysIndexed();
    ResultsUpToPointwise(ScenarioKeys, inputs, |ScenarioKeys|);
    forall i | 0 <= i < |rs|
      ensures rs[i].Success? && rs[i].outcome.scenario == Scenarios[i].name
    {
      assert rs[i] == RunOne(ScenarioKeys[i], inputs[i]);
      assert ScenarioIndex(ScenarioKeys[i]) == i;
    }
    assert forall i :: 0 <= i < |rs| ==> IsSuccess(rs[i]);
    assert Filter(rs, IsSuccess) == rs;
  }

  // ---------------------------------------------------------------- summary

  datatype Rating = Excellent | Good | Fair | Poor

  /** The effectiveness bucket of an average risk reduction in percent. */
  function Rate(average: real): Rating {
    if average >= 80.0 then Excellent
    else if average >= 70.0 then Good
    else if average >= 60.0 then Fair
    else Poor
  }

  function RatingRank(r: Rating): nat {
    match r
    case Poor => 0
    case Fair => 1
    case Good => 2
    case Excellent => 3
  }

  /** A higher average never gets a lower rating. */
  lemma RateMonotone(a: real, b: real)
    requires a <= b
    ensures RatingRank(Rate(a)) <= RatingRank(Rate(b))
  {
  }

  /**
   * The summary object; `failed`, `bestScenario` and `worstScenario` are
   * absent when nothing succeeded.
   */
  datatype Summary = Summary(
    totalScenarios: nat,
    successful: nat,
    failed: Option<nat>,
    averageRiskReduction: real,
    averageResponseTime: real,
    overallEffectiveness: Rating,
    bestScenario: Option<string>,
    worstScenario: Option<string>)

  /** `results.filter(r => r.success)`, as outcomes. */
  function Outcomes(results: seq<RunResult>): (os: seq<Outcome>)
    ensures |os| == Count(results, IsSuccess)
    ensures forall o :: o in os ==> Success(o) in results
  {
    if |results| == 0 then []
    else (if results[0].Success? then [results[0].outcome] else []) + Outcomes(results[1..])
  }

  /**
   * The outcomes keep the runs' order: the outcome of a successful run lands
   * at the index given by how many runs before it succeeded.
   */
  lemma {:induction false} OutcomeAt(results: seq<RunResult>, i: nat)
    requires i < |results| && IsSuccess(results[i])
    ensures Count(results[..i], IsSuccess) < |Outcomes(results)|
      && Outcomes(results)[Count(results[..i], IsSuccess)] == results[i].outcome
    decreases i
  {
    var t := results[1..];
    var pre := if results[0].Success? then [results[0].outcome] else [];
    assert Outcomes(results) == pre + Outcomes(t);
    if i == 0 {
      assert results[..0] == [];
    } else {
      assert t[i - 1] == results[i];
      OutcomeAt(t, i - 1);
      CountPrefixStep(results, IsSuccess, i);
      var k := Count(t[..i - 1], IsSuccess);
      assert Outcomes(results)[|pre| + k] == Outcomes(t)[k];
    }
  }

  /** Every success's outcome appears, and in run order. */
  lemma OutcomesPositions(results: seq<RunResult>)
    ensures forall i :: 0 <= i < |results| && IsSuccess(results[i]) ==>
      Count(results[..i], IsSuccess) < |Outcomes(results)|
      && Outcomes(results)[Count(results[..i], IsSuccess)] == results[i].outcome
  {
    forall i | 0 <= i < |results| && IsSuccess(results[i])
      ensures Count(results[..i], IsSuccess) < |Outcomes(results)|
        && Outcomes(results)[Count(results[..i], IsSuccess)] == results[i].outcome
    {
      OutcomeAt(results, i);
    }
  }

  function TotalRisk(os: seq<Outcome>): real {
    if |os| == 0 then 0.0 else os[0].riskReduction + TotalRisk(os[1..])
  }

  function TotalResponse(os: seq<Outcome>): real {
    if |os| == 0 then 0.0 else os[0].responseTime + TotalResponse(os[1..])
  }

  /**
   * The index `reduce` with a strict `>` ends on among the first `n`
   * outcomes: a maximum, and the first one reaching it.
   */
  function BestIndex(os: seq<Outcome>, n: nat): (b: nat)
    requires 0 < n <= |os|
    ensures b < n
    ensures forall j :: 0 <= j < n ==> os[j].riskReduction <= os[b].riskReduction
    ensures forall j :: 0 <= j < b ==> os[j].riskReduction < os[b].riskReduction
  {
    if n == 1 then 0
    else
      var b := BestIndex(os, n - 1);
      if os[n - 1].riskReduction > os[b].riskReduction then n - 1 else b
  }

  /** The index `reduce` with a strict `<` ends on: a minimum, and the first one reaching it. */
  function WorstIndex(os: seq<Outcome>, n: nat): (w: nat)
    requires 0 < n <= |os|
    ensures w < n
    ensures forall j :: 0 <= j < n ==> os[w].riskReduction <= os[j].riskReduction
    ensures forall j :: 0 <= j < w ==> os[w].riskReduction < os[j].riskReduction
  {
    if n == 1 then 0
    else
      var w := WorstIndex(os, n - 1);
      if os[n - 1].riskReduction < os[w].riskReduction then n - 1 else w
  }

  /** The average risk reduction of the successful runs. */
  function MeanRisk(os: seq<Outcome>): real
    requires |os| > 0
  {
    TotalRisk(os) / (|os| as real)
  }

  /** The average response time of the successful runs. */
  function MeanResponse(os: seq<Outcome>): real
    requires |os| > 0
  {
    TotalResponse(os) / (|os| as real)
  }

  /** `generateSummaryReport` */
  function GenerateSummaryReport(results: seq<RunResult>): (s: Summary)
    ensures s.totalScenarios == |results| && s.successful == Count(results, IsSuccess)
    ensures s.successful == 0 ==> s == Summary(|results|, 0, None, 0.0, 0.0, Poor, None, None)
    ensures s.successful > 0 ==>
      s.failed == Some(|results| - s.successful)
      && s.overallEffectiveness == Rate(s.averageRiskReduction)
      && s.averageRiskReduction == MeanRisk(Outcomes(results))
      && s.averageResponseTime == MeanResponse(Outcomes(results))
      && s.bestScenario.Some? && s.worstScenario.Some?
  {
    var os := Outcomes(results);
    if |os| == 0 then Summary(|results|, 0, None, 0.0, 0.0, Poor, None, None)
    else
      var avgRisk := MeanRisk(os);
      Summary(|results|, |os|, Some(|results| - |os|), avgRisk, MeanResponse(os), Rate(avgRisk),
              Some(os[BestIndex(os, |os|)].scenario), Some(os[WorstIndex(os, |os|)].scenario))
  }

  lemma {:induction false} TotalRiskWithinBounds(os: seq<Outcome>, lo: real, hi: real)
    requires forall i :: 0 <= i < |os| ==> lo <= os[i].riskReduction <= hi
    ensures lo * (|os| as real) <= TotalRisk(os) <= hi * (|os| as real)
  {
    if |os| > 0 {
      assert forall i :: 0 <= i < |os[1..]| ==> os[1..][i] == os[i + 1];
      TotalRiskWithinBounds(os[1..], lo, hi);
      var m := |os[1..]| as real;
      assert lo * (m + 1.0) == lo * m + lo;
      assert hi * (m + 1.0) == hi * m + hi;
    }
  }

  /**
   * When something succeeded, the best and worst scenarios are the first
   * successful runs with the highest and the lowest risk reduction.
   */
  lemma SummaryBestWorst(results: seq<RunResult>)
    requires Count(results, IsSuccess) > 0
    ensures var os := Outcomes(results); var s := GenerateSummaryReport(results);
      s.bestScenario == Some(os[BestIndex(os, |os|)].scenario)
      && s.worstScenario == Some(os[WorstIndex(os, |os|)].scenario)
  {
  }

  /** The average risk reduction lies between the worst and the best run's. */
  lemma SummaryAverageBetween(results: seq<RunResult>)
    requires Count(results, IsSuccess) > 0
    ensures var os := Outcomes(results);
      os[WorstIndex(os, |os|)].riskReduction
      <= GenerateSummaryReport(results).averageRiskReduction
      <= os[BestIndex(os, |os|)].riskReduction
  {
    var os := Outcomes(results);
    MeanRiskBetween(os, os[WorstIndex(os, |os|)].riskReduction, os[BestIndex(os, |os|)].riskReduction);
  }

  lemma MeanRiskBetween(os: seq<Outcome>, lo: real, hi: real)
    requires |os| > 0
    requires forall i :: 0 <= i < |os| ==> lo <= os[i].riskReduction <= hi
    ensures lo <= MeanRisk(os) <= hi
  {
    TotalRiskWithinBounds(os, lo, hi);
    QuotientWithinBounds(TotalRisk(os), |os| as real, lo, hi);
  }

  lemma {:induction false} TotalResponseWithinBounds(os: seq<Outcome>, lo: real, hi: real)
    requires forall i :: 0 <= i < |os| ==> lo <= os[i].responseTime <= hi
    ensures lo * (|os| as real) <= TotalResponse(os) <= hi * (|os| as real)
  {
    if |os| > 0 {
      assert forall i :: 0 <= i < |os[1..]| ==> os[1..][i] == os[i + 1];
      TotalResponseWithinBounds(os[1..], lo, hi);
      var m := |os[1..]| as real;
      assert lo * (m + 1.0) == lo * m + lo;
      assert hi * (m + 1.0) == hi * m + hi;
    }
  }

  /** The mean response time lies within any bounds of its terms. */
  lemma MeanResponseBetween(os: seq<Outcome>, lo: real, hi: real)
    requires |os| > 0
    requires forall i :: 0 <= i < |os| ==> lo <= os[i].responseTime <= hi
    ensures lo <= MeanResponse(os) <= hi
  {
    TotalResponseWithinBounds(os, lo, hi);
    QuotientWithinBounds(TotalResponse(os), |os| as real, lo, hi);
  }

  /** The reported average response time lies within any bounds of the successful runs' times. */
  lemma SummaryResponseBetween(results: seq<RunResult>, lo: real, hi: real)
    requires Count(results, IsSuccess) > 0
    requires forall i :: 0 <= i < |results| && IsSuccess(results[i]) ==>
      lo <= results[i].outcome.responseTime <= hi
    ensures lo <= GenerateSummaryReport(results).averageResponseTime <= hi
  {
    var os := Outcomes(results);
    forall j | 0 <= j < |os|
      ensures lo <= os[j].responseTime <= hi
    {
      assert os[j] in os;
      var i :| 0 <= i < |results| && results[i] == Success(os[j]);
      assert IsSuccess(results[i]);
    }
    MeanResponseBetween(os, lo, hi);
  }

  /** Every successful run of a batch takes between 3 and 12 time units. */
  lemma ResultsResponseTimes(keys: seq<string>, inputs: seq<RunInputs>, n: nat)
    requires n <= |keys| == |inputs| && AllValid(inputs)
    ensures var rs := ResultsUpTo(keys, inputs, n);
      forall i :: 0 <= i < |rs| && IsSuccess(rs[i]) ==> 3.0 <= rs[i].outcome.responseTime <= 12.0
  {
    var rs := ResultsUpTo(keys, inputs, n);
    ResultsUpToPointwise(keys, inputs, n);
    forall i | 0 <= i < |rs| && IsSuccess(rs[i])
      ensures 3.0 <= rs[i].outcome.responseTime <= 12.0
    {
      assert rs[i] == RunOne(keys[i], inputs[i]);
    }
  }

  /** The table's summary reports an average response time between 3 and 12. */
  lemma TableResponseTimes(inputs: seq<RunInputs>)
    requires |inputs| == |ScenarioKeys| && AllValid(inputs)
    ensures 3.0 <= GenerateSummaryReport(ResultsUpTo(ScenarioKeys, inputs, |ScenarioKeys|)).averageResponseTime <= 12.0
  {
    var rs := ResultsUpTo(ScenarioKeys, inputs, |ScenarioKeys|);
    TableRunsSucceed(inputs);
    ResultsResponseTimes(ScenarioKeys, inputs, |ScenarioKeys|);
    SummaryResponseBetween(rs, 3.0, 12.0);
  }

  lemma QuotientWithinBounds(t: real, n: real, lo: real, hi: real)
    requires n > 0.0 && lo * n <= t <= hi * n
    ensures lo <= t / n <= hi
  {
    assert t / n * n == t;
  }

  // ---------------------------------------------------------------- the service

  /** `currentSimulation`: the scenario and results of the last successful run. */
  datatype CurrentRun = CurrentRun(scenario: Scenario, results: Outcome)

  /**
   * `SimulationService`'s state: the run history, the last run, and the
   * history kept in local storage (`None` when absent).
   */
  class SimulationService {
    var history: seq<HistoryEntry>
    var current: Option<CurrentRun>
    var stored: Option<seq<HistoryEntry>>

    constructor (saved: Option<seq<HistoryEntry>>)
      ensures history == [] && current == None && stored == saved
    {
      history := [];
      current := None;
      stored := saved;
    }

    /** `init` / `loadHistory`: take the saved history when there is one. */
    method Init()
      modifies this
      ensures history == (if stored.Some? then stored.value else old(history))
      ensures current == old(current) && stored == old(stored)
    {
      if stored.Some? {
        history := stored.value;
      }
    }

    /** `saveHistory`: keep the 50 most recent entries, then store them. */
    method SaveHistory()
      modifies this
      ensures history == Take(old(history), HistoryCap) && stored == Some(history)
      ensures current == old(current)
    {
      history := Take(history, HistoryCap);
      stored := Some(history);
    }

    /**
     * `runScenario`: an unknown key throws before any change; otherwise the
     * run becomes current, its entry is prepended to the history, and the
     * history is saved.
     */
    method RunScenario(key: string, d: RunInputs) returns (r: Result<Outcome>)
      requires ValidInputs(d)
      modifies this
      ensures RunOne(key, d) == (if r.Ok? then Success(r.value) else Failure(key, r.message))
      ensures r.Err? ==> history == old(history) && current == old(current) && stored == old(stored)
      ensures r.Ok? ==>
        current == Some(CurrentRun(Scenarios[ScenarioIndex(key)], r.value))
        && history == Take([EntryFor(r.value)] + old(history), HistoryCap)
        && stored == Some(history)
    {
      var k := ScenarioIndex(key);
      if k == -1 {
        return Err("Unknown scenario: " + key);
      }
      var scenario := Scenarios[k];
      var o := ExecuteSimulation(scenario, d);
      current := Some(CurrentRun(scenario, o));
      history := [EntryFor(o)] + history;
      SaveHistory();
      r := Ok(o);
    }

    /**
     * The loop of `runAllScenarios` over a list of keys: every key yields one
     * result, a failing run a failure entry, and the batch goes on.
     */
    method RunEach(keys: seq<string>, inputs: seq<RunInputs>) returns (results: seq<RunResult>)
      requires |keys| == |inputs| && AllValid(inputs)
      modifies this
      ensures results == ResultsUpTo(keys, inputs, |keys|)
      ensures history == Recorded(old(history), results)
      ensures Entries(results) == [] ==> current == old(current) && stored == old(stored)
      ensures Entries(results) != [] ==> current.Some? && stored == Some(history)
    {
      results := [];
      var i := 0;
      while i < |keys|
        invariant 0 <= i <= |keys|
        invariant results == ResultsUpTo(keys, inputs, i)
        invariant history == Recorded(old(history), results)
        invariant Entries(results) == [] ==> current == old(current) && stored == old(stored)
        invariant Entries(results) != [] ==> current.Some? && stored == Some(history)
      {
        var r := RunScenario(keys[i], inputs[i]);
        var res := if r.Ok? then Success(r.value) else Failure(keys[i], r.message);
        RecordedAppend(old(history), results, res);
        ResultsUpToStep(keys, inputs, i);
        results := results + [res];
        i := i + 1;
      }
    }

    /** `runAllScenarios`: one run per table key, in table order, then the summary. */
    method RunAllScenarios(inputs: seq<RunInputs>) returns (results: seq<RunResult>, summary: Summary)
      requires |inputs| == |ScenarioKeys| && AllValid(inputs)
      modifies this
      ensures results == ResultsUpTo(ScenarioKeys, inputs, |ScenarioKeys|)
      ensures forall i :: 0 <= i < |results| ==>
        results[i].Success? && results[i].outcome.scenario == Scenarios[i].name
      ensures history == Recorded(old(history), results)
      ensures summary == GenerateSummaryReport(results)
      ensures summary.successful == |Scenarios| && summary.failed == Some(0)
      ensures 3.0 <= summary.averageResponseTime <= 12.0
      ensures current.Some? && stored == Some(history)
    {
      results := RunEach(ScenarioKeys, inputs);
      TableRunsSucceed(inputs);
      TableResponseTimes(inputs);
      summary := GenerateSummaryReport(results);
    }

    /** `clearHistory`: empty the history and remove it from storage. */
    method ClearHistory()
      modifies this
      ensures history == [] && stored == None && current == old(current)
    {
      history := [];
      stored := None;
    }
  }
}
