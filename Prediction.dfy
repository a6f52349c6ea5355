/**
 * js/ml-integration.js: the rule-based risk prediction (factor tables, the
 * composite score clamped to [0, 1], the category thresholds and the ordered
 * recommendation rules), the lazy initialisation in `predict`, and the
 * training guard with its delayed completion.
 */
module Prediction {
  import opened Wrappers
  import opened Lists

  // ---------------------------------------------------------------- categories

  datatype RiskCategory = LowRisk | MediumRisk | HighRisk | CriticalRisk

  function CategoryRank(c: RiskCategory): nat {
    match c
    case LowRisk => 0
    case MediumRisk => 1
    case HighRisk => 2
    case CriticalRisk => 3
  }

  /** `getRiskCategory`: critical from 0.8, high from 0.6, medium from 0.4, low below. */
  function GetRiskCategory(score: real): (c: RiskCategory)
    ensures c == CriticalRisk <==> score >= 0.8
    ensures c == LowRisk <==> score < 0.4
  {
    if score >= 0.8 then CriticalRisk
    else if score >= 0.6 then HighRisk
    else if score >= 0.4 then MediumRisk
    else LowRisk
  }

  /** A higher score never gets a lower category. */
  lemma RiskCategoryMonotone(a: real, b: real)
    requires a <= b
    ensures CategoryRank(GetRiskCategory(a)) <= CategoryRank(GetRiskCategory(b))
  {
  }

  // ---------------------------------------------------------------- factors

  /** `getTimeOfDayFactor` for the hour of the clock. */
  function GetTimeOfDayFactor(hour: int): (f: real)
    ensures 0.4 <= f <= 0.9
  {
    if 7 <= hour <= 9 then 0.8
    else if 16 <= hour <= 18 then 0.9
    else if hour >= 22 || hour <= 5 then 0.7
    else 0.4
  }

  /** The rush hours score above night hours, and night above the rest of the day. */
  lemma TimeOfDayOrder(rush: int, night: int, day: int)
    requires 7 <= rush <= 9 || 16 <= rush <= 18
    requires 22 <= night <= 23 || 0 <= night <= 5
    requires 10 <= day <= 15 || 19 <= day <= 21 || day == 6
    ensures GetTimeOfDayFactor(day) < GetTimeOfDayFactor(night) < GetTimeOfDayFactor(rush)
  {
  }

  const WeatherFactors: map<string, real> := map[
    "clear" := 0.1, "cloudy" := 0.2, "rain" := 0.6, "heavy_rain" := 0.8, "fog" := 0.7, "storm" := 0.9
  ]

  const LocationFactors: map<string, real> := map[
    "highway" := 0.7, "intersection" := 0.6, "school_zone" := 0.5,
    "residential" := 0.3, "commercial" := 0.4, "rural" := 0.2
  ]

  /** `table[key] || fallback`: every table value is non-zero, so only a missing key falls back. */
  function Lookup(table: map<string, real>, key: Option<string>, fallback: real): (f: real)
    ensures key.Some? && key.value in table && table[key.value] != 0.0 ==> f == table[key.value]
    ensures key.None? || key.value !in table ==> f == fallback
  {
    if key.Some? && key.value in table && table[key.value] != 0.0 then table[key.value] else fallback
  }

  /** `getWeatherFactor`: the table value, 0.3 for anything else. */
  function GetWeatherFactor(weather: Option<string>): real {
    Lookup(WeatherFactors, weather, 0.3)
  }

  /** `getLocationFactor`: the table value, 0.5 for anything else. */
  function GetLocationFactor(locationType: Option<string>): real {
    Lookup(LocationFactors, locationType, 0.5)
  }

  /** Known keys get their table value, unknown ones the fallback; all lie in [0.1, 0.9]. */
  lemma FactorTables(weather: Option<string>, locationType: Option<string>)
    ensures weather.Some? && weather.value in WeatherFactors ==> GetWeatherFactor(weather) == WeatherFactors[weather.value]
    ensures weather.None? || weather.value !in WeatherFactors ==> GetWeatherFactor(weather) == 0.3
    ensures locationType.Some? && locationType.value in LocationFactors ==>
      GetLocationFactor(locationType) == LocationFactors[locationType.value]
    ensures locationType.None? || locationType.value !in LocationFactors ==> GetLocationFactor(locationType) == 0.5
    ensures 0.1 <= GetWeatherFactor(weather) <= 0.9 && 0.2 <= GetLocationFactor(locationType) <= 0.7
  {
  }

  /** The `inputData` object of `predict`; an absent key is `None`. */
  datatype PredictionInput = PredictionInput(
    trafficDensity: Option<real>,
    weather: Option<string>,
    locationType: Option<string>,
    historicalAccidents: Option<real>)

  datatype Factors = Factors(
    trafficDensity: real,
    timeOfDay: real,
    weather: real,
    locationType: real,
    historicalAccidents: real)

  /** `value || fallback` on a number: absent and zero are falsy. */
  function OrNumber(v: Option<real>, fallback: real): (r: real)
    ensures v.Some? && v.value != 0.0 ==> r == v.value
    ensures v.None? || v.value == 0.0 ==> r == fallback
  {
    if v.Some? && v.value != 0.0 then v.value else fallback
  }

  /** The `factors` object of `mockPredict`; a missing or zero traffic density counts as 50. */
  function FactorsOf(input: PredictionInput, hour: int): (f: Factors)
    ensures f.trafficDensity == OrNumber(input.trafficDensity, 50.0) / 100.0
    ensures f.historicalAccidents == OrNumber(input.historicalAccidents, 0.0) / 10.0
    ensures f.timeOfDay == GetTimeOfDayFactor(hour)
    ensures f.weather == GetWeatherFactor(input.weather) && f.locationType == GetLocationFactor(input.locationType)
  {
    Factors(
      OrNumber(input.trafficDensity, 50.0) / 100.0,
      GetTimeOfDayFactor(hour),
      GetWeatherFactor(input.weather),
      GetLocationFactor(input.locationType),
      OrNumber(input.historicalAccidents, 0.0) / 10.0)
  }

  // ---------------------------------------------------------------- the score

  /** The weighted sum before clamping. */
  function RawScore(base: real, f: Factors): real {
    base + f.trafficDensity * 0.3 + f.timeOfDay * 0.2 + f.weather * 0.25
    + f.locationType * 0.15 + f.historicalAccidents * 0.1
  }

  /** `Math.min(Math.max(x, 0), 1)` */
  function Clamp01(x: real): (r: real)
    ensures 0.0 <= r <= 1.0
    ensures 0.0 <= x <= 1.0 ==> r == x
    ensures x < 0.0 ==> r == 0.0
    ensures x > 1.0 ==> r == 1.0
  {
    if x < 0.0 then 0.0 else if x > 1.0 then 1.0 else x
  }

  /** The composite risk score, always in [0, 1]. */
  function RiskScore(base: real, f: Factors): (s: real)
    ensures 0.0 <= s <= 1.0
    ensures 0.0 <= RawScore(base, f) <= 1.0 ==> s == RawScore(base, f)
  {
    Clamp01(RawScore(base, f))
  }

  /** Raising any input of the score never lowers it. */
  lemma RiskScoreMonotone(b1: real, f1: Factors, b2: real, f2: Factors)
    requires b1 <= b2 && f1.trafficDensity <= f2.trafficDensity && f1.timeOfDay <= f2.timeOfDay
    requires f1.weather <= f2.weather && f1.locationType <= f2.locationType
    requires f1.historicalAccidents <= f2.historicalAccidents
    ensures RiskScore(b1, f1) <= RiskScore(b2, f2)
  {
  }

  /** Without negative inputs the score is at least the 0.3 floor of the base draw plus the fixed factors. */
  lemma RiskScoreFloor(u: real, input: PredictionInput, hour: int)
    requires 0.0 <= u < 1.0
    requires input.trafficDensity.None? || input.trafficDensity.value >= 0.0
    requires input.historicalAccidents.None? || input.historicalAccidents.value >= 0.0
    ensures RiskScore(0.3 + u * 0.5, FactorsOf(input, hour)) >= 0.3
  {
  }

  // ---------------------------------------------------------------- recommendations

  const EmergencyMessages: seq<string> := [
    "Dispatch emergency response team",
    "Activate nearby variable message signs",
    "Send alerts to all vehicles in area"
  ]

  const PatrolMessages: seq<string> := ["Increase patrol frequency", "Monitor traffic cameras closely"]

  const TrafficMessages: seq<string> := ["Consider traffic diversion routes", "Adjust traffic signal timing"]

  const WeatherMessages: seq<string> := ["Issue weather advisory", "Reduce speed limits by 20%"]

  /** Every message the rules emit, in rule order, before truncation. */
  function AllRecommendations(score: real, f: Factors): seq<string> {
    (if score > 0.7 then EmergencyMessages else [])
    + (if score > 0.5 then PatrolMessages else [])
    + (if f.trafficDensity > 0.7 then TrafficMessages else [])
    + (if f.weather > 0.5 then WeatherMessages else [])
  }

  /** `generateRecommendations`: the rule messages in order, at most five. */
  function GenerateRecommendations(score: real, f: Factors): (r: seq<string>)
    ensures |r| == Min(|AllRecommendations(score, f)|, 5)
    ensures r == AllRecommendations(score, f)[..|r|]
  {
    Take(AllRecommendations(score, f), 5)
  }

  /**
   * A score above 0.7 yields exactly the emergency triple and the patrol
   * pair: truncation drops the traffic and weather advice.
   */
  lemma HighScoreRecommendations(score: real, f: Factors)
    requires score > 0.7
    ensures GenerateRecommendations(score, f) == EmergencyMessages + PatrolMessages
  {
    var all := AllRecommendations(score, f);
    assert all[..5] == EmergencyMessages + PatrolMessages;
  }

  /** A score of at most 0.5 leaves only the factor rules. */
  lemma LowScoreRecommendations(score: real, f: Factors)
    requires score <= 0.5
    ensures GenerateRecommendations(score, f) ==
      (if f.trafficDensity > 0.7 then TrafficMessages else []) + (if f.weather > 0.5 then WeatherMessages else [])
  {
  }

  // ---------------------------------------------------------------- prediction

  datatype Model = Model(name: string, version: string, loaded: bool, accuracy: real)

  /** The model `loadModel` installs. */
  const LoadedModel: Model := Model("Safety Prediction Model v1.0", "1.0.0", true, 0.92)

  datatype Prediction = Prediction(
    riskLevel: real,
    riskCategory: RiskCategory,
    confidence: real,
    recommendations: seq<string>,
    factors: Factors,
    timestamp: string,
    modelVersion: string)

  /** `this.model?.version || '1.0.0'` */
  function ModelVersion(model: Option<Model>): string {
    if model.Some? && model.value.version != "" then model.value.version else "1.0.0"
  }

  /** `mockPredict` on its two random draws, the hour and the clock reading. */
  function MockPredict(input: PredictionInput, hour: int, baseDraw: real, confidenceDraw: real,
                       timestamp: string, model: Option<Model>): (p: Prediction)
    requires 0.0 <= baseDraw < 1.0 && 0.0 <= confidenceDraw < 1.0
    ensures 0.0 <= p.riskLevel <= 1.0
    ensures p.riskCategory == GetRiskCategory(p.riskLevel)
    ensures p.recommendations == GenerateRecommendations(p.riskLevel, p.factors)
    ensures p.factors == FactorsOf(input, hour)
    ensures p.riskLevel == RiskScore(0.3 + baseDraw * 0.5, p.factors)
    ensures 0.85 <= p.confidence < 0.95
  {
    var f := FactorsOf(input, hour);
    var score := RiskScore(0.3 + baseDraw * 0.5, f);
    Prediction(score, GetRiskCategory(score), 0.85 + confidenceDraw * 0.1,
               GenerateRecommendations(score, f), f, timestamp, ModelVersion(model))
  }

  /** The completion report of `train`. */
  datatype TrainingReport = TrainingReport(
    success: bool, accuracy: real, trainingTime: string, samplesProcessed: nat, message: string)

  /**
   * `MLService`'s state: the loaded model, the training flag, the
   * initialisation flag, and the sample count of the training in progress.
   */
  class MLService {
    var model: Option<Model>
    var isTraining: bool
    var isInitialized: bool
    var pendingSamples: nat

    constructor ()
      ensures model == None && !isTraining && !isInitialized && pendingSamples == 0
    {
      model := None;
      isTraining := false;
      isInitialized := false;
      pendingSamples := 0;
    }

    /** `init`: once only, load the model. */
    method Init()
      modifies this
      ensures isInitialized
      ensures model == (if old(isInitialized) then old(model) else Some(LoadedModel))
      ensures isTraining == old(isTraining) && pendingSamples == old(pendingSamples)
    {
      if isInitialized {
        return;
      }
      model := Some(LoadedModel);
      isInitialized := true;
    }

    /** `predict`: initialise first when needed, then score the input. */
    method Predict(input: PredictionInput, hour: int, baseDraw: real, confidenceDraw: real, timestamp: string)
      returns (p: Prediction)
      requires 0.0 <= baseDraw < 1.0 && 0.0 <= confidenceDraw < 1.0
      modifies this
      ensures isInitialized
      ensures model == (if old(isInitialized) then old(model) else Some(LoadedModel))
      ensures isTraining == old(isTraining) && pendingSamples == old(pendingSamples)
      ensures p == MockPredict(input, hour, baseDraw, confidenceDraw, timestamp, model)
    {
      if !isInitialized {
        Init();
      }
      p := MockPredict(input, hour, baseDraw, confidenceDraw, timestamp, model);
    }

    /** `train`, first step: refuse while a training runs, otherwise start one. */
    method Train(samples: nat) returns (r: Result<()>)
      modifies this
      ensures old(isTraining) ==>
        r == Err("Model is already training") && isTraining && pendingSamples == old(pendingSamples)
      ensures !old(isTraining) ==> r == Ok(()) && isTraining && pendingSamples == samples
      ensures model == old(model) && isInitialized == old(isInitialized)
    {
      if isTraining {
        return Err("Model is already training");
      }
      isTraining := true;
      pendingSamples := samples;
      r := Ok(());
    }

    /**
     * `train`, delayed step: clear the flag and raise the accuracy by
     * `improvementDraw * 0.05`, never above 0.98.
     */
    method CompleteTraining(improvementDraw: real) returns (report: TrainingReport)
      requires isTraining && 0.0 <= improvementDraw < 1.0
      modifies this
      ensures !isTraining && isInitialized == old(isInitialized) && pendingSamples == old(pendingSamples)
      ensures old(model).None? ==> model == None && report.accuracy == 0.92
      ensures old(model).Some? ==>
        model == Some(old(model).value.(accuracy := MinReal(0.98, old(model).value.accuracy + improvementDraw * 0.05)))
      ensures model.Some? ==>
        model.value.accuracy <= 0.98
        && (old(model).value.accuracy <= 0.98 ==> old(model).value.accuracy <= model.value.accuracy)
        && report.accuracy == (if model.value.accuracy != 0.0 then model.value.accuracy else 0.92)
      ensures report.success && report.samplesProcessed == pendingSamples
      ensures report.trainingTime == "2.8s" && report.message == "Model training completed successfully"
    {
      isTraining := false;
      var improvement := improvementDraw * 0.05;
      if model.Some? {
        model := Some(model.value.(accuracy := MinReal(0.98, model.value.accuracy + improvement)));
      }
      var accuracy := if model.Some? && model.value.accuracy != 0.0 then model.value.accuracy else 0.92;
      report := TrainingReport(true, accuracy, "2.8s", pendingSamples, "Model training completed successfully");
    }
  }
}
