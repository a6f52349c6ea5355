/**
 * The in-memory data store of js/data.js: alerts, resources, protocols, the
 * derived metrics record and the playbook record, with the operations that
 * update them in place and recompute the metrics after every change.
 */
module DataStore {
  import opened Wrappers
  import opened Lists

  /** Alert severity, ordered low < medium < high < critical. */
  datatype Severity = Low | Medium | High | Critical

  /** Alert lifecycle: active, then acknowledged or escalated, then resolved. */
  datatype AlertStatus = Active | Acknowledged | Escalated | Resolved

  /** An alert record; `kind` is the source's `type` field. */
  datatype Alert = Alert(
    id: string,
    time: string,
    kind: string,
    protocol: string,
    location: string,
    severity: Severity,
    confidence: real,
    status: AlertStatus,
    description: string)

  /** The `updates` argument of `updateAlert`: each `Some` field overwrites the alert's. */
  datatype AlertUpdate = AlertUpdate(
    id: Option<string>,
    time: Option<string>,
    kind: Option<string>,
    protocol: Option<string>,
    location: Option<string>,
    severity: Option<Severity>,
    confidence: Option<real>,
    status: Option<AlertStatus>,
    description: Option<string>)

  const NoUpdate := AlertUpdate(None, None, None, None, None, None, None, None, None)

  /** `{ status: s }` */
  function StatusUpdate(s: AlertStatus): AlertUpdate { NoUpdate.(status := Some(s)) }

  /** `{ ...a, ...u }`: fields named in `u` replace those of `a`, the others are kept. */
  function Patch(a: Alert, u: AlertUpdate): Alert {
    Alert(
      u.id.GetOr(a.id),
      u.time.GetOr(a.time),
      u.kind.GetOr(a.kind),
      u.protocol.GetOr(a.protocol),
      u.location.GetOr(a.location),
      u.severity.GetOr(a.severity),
      u.confidence.GetOr(a.confidence),
      u.status.GetOr(a.status),
      u.description.GetOr(a.description))
  }

  datatype ResourceKind = Vehicle | Camera | Team | Drone | Sign

  /** Resource lifecycle; `Online` is the source's status `'active'`. */
  datatype ResourceStatus = Available | Online | OnDuty | Charging | Maintenance | Deploying

  datatype Resource = Resource(
    id: string,
    name: string,
    kind: ResourceKind,
    status: ResourceStatus,
    location: string)

  datatype Protocol = Protocol(
    id: string,
    name: string,
    effectiveness: real,
    lastUsed: string,
    triggers: int)

  /**
   * The metrics record. `responseTime` is the number inside the source's
   * `'8.2s'` string. `aiEffectiveness` is `None` when it is the NaN that the
   * mean of an empty protocol list yields.
   */
  datatype Metrics = Metrics(
    activeTriggers: int,
    responseTime: real,
    uptime: string,
    accidentsPrevented: int,
    livesSaved: real,
    economicImpact: string,
    aiEffectiveness: Option<real>)

  datatype Playbook = Playbook(
    effectiveness: real,
    lastTrained: string,
    scenariosTested: int)

  /** The store's `data` record. */
  datatype StoreData = StoreData(
    alerts: seq<Alert>,
    resources: seq<Resource>,
    protocols: seq<Protocol>,
    metrics: Metrics,
    playbook: Playbook)

  /** A parsed snapshot: the top-level keys it holds are `Some`. */
  datatype Snapshot = Snapshot(
    alerts: Option<seq<Alert>>,
    resources: Option<seq<Resource>>,
    protocols: Option<seq<Protocol>>,
    metrics: Option<Metrics>,
    playbook: Option<Playbook>)

  /** The empty `{}` records the store starts with, as zero values. */
  const EmptyMetrics := Metrics(0, 0.0, "", 0, 0.0, "", None)
  const EmptyPlaybook := Playbook(0.0, "", 0)
  const EmptyData := StoreData([], [], [], EmptyMetrics, EmptyPlaybook)

  // ---------------------------------------------------------------- sample data

  const SeedAlerts: seq<Alert> := [
    Alert("alert-001", "14:30:22", "Speed Violation", "SP-001", "M1 Highway, KM 12.5",
          High, 0.92, Active, "Multiple vehicles exceeding speed limit by 40+ km/h"),
    Alert("alert-002", "14:25:15", "Lane Departure", "LD-003", "N1 Northbound, KM 8.2",
          Medium, 0.85, Active, "Commercial vehicle drifting between lanes"),
    Alert("alert-003", "14:15:42", "Congestion", "CG-002", "CBD Intersection",
          Low, 0.78, Active, "Traffic buildup exceeding 1km"),
    Alert("alert-004", "13:45:18", "Weather Hazard", "WH-004", "M2 Eastbound",
          High, 0.95, Active, "Heavy rainfall reducing visibility"),
    Alert("alert-005", "13:30:55", "Accident Detection", "AD-001", "R24 Highway",
          Critical, 0.98, Active, "Two-vehicle collision detected")
  ]

  const SeedResources: seq<Resource> := [
    Resource("res-001", "Patrol Unit A1", Vehicle, Available, "Zone 1"),
    Resource("res-002", "Traffic Camera 12", Camera, Online, "M1-12.5"),
    Resource("res-003", "Response Team B", Team, Available, "HQ"),
    Resource("res-004", "Drone Unit 3", Drone, Charging, "Station 2"),
    Resource("res-005", "Variable Signs 8", Sign, Online, "N1-8.2"),
    Resource("res-006", "Patrol Unit C2", Vehicle, OnDuty, "Zone 3"),
    Resource("res-007", "Traffic Camera 45", Camera, Maintenance, "CBD-5"),
    Resource("res-008", "Response Team D", Team, Available, "Substation")
  ]

  const SeedProtocols: seq<Protocol> := [
    Protocol("SP-001", "Speed Enforcement", 92.0, "14:30", 45),
    Protocol("LD-003", "Lane Discipline", 87.0, "14:25", 28),
    Protocol("CG-002", "Congestion Management", 78.0, "14:15", 62),
    Protocol("WH-004", "Weather Response", 95.0, "13:45", 15),
    Protocol("AD-001", "Accident Response", 88.0, "13:30", 12)
  ]

  const SeedMetrics := Metrics(5, 8.2, "99.8%", 42, 4.2, "R21M", Some(92.5))

  /** The record `initializeData` installs; `now` is the ISO time of `lastTrained`. */
  function SeedData(now: string): StoreData {
    StoreData(SeedAlerts, SeedResources, SeedProtocols, SeedMetrics, Playbook(92.5, now, 42))
  }

  // ---------------------------------------------------------------- metrics

  predicate IsActive(a: Alert) { a.status == Active }

  /** `alerts.filter(a => a.status === 'active').length` */
  function ActiveCount(alerts: seq<Alert>): nat { Count(alerts, IsActive) }

  function TotalEffectiveness(ps: seq<Protocol>): real {
    if |ps| == 0 then 0.0 else ps[0].effectiveness + TotalEffectiveness(ps[1..])
  }

  /** The arithmetic mean of protocol effectiveness; `None` (NaN) for no protocols. */
  function MeanEffectiveness(ps: seq<Protocol>): (r: Option<real>)
    ensures r.None? <==> |ps| == 0
  {
    if |ps| == 0 then None else Some(TotalEffectiveness(ps) / (|ps| as real))
  }

  lemma {:induction false} TotalWithinBounds(ps: seq<Protocol>, lo: real, hi: real)
    requires forall i :: 0 <= i < |ps| ==> lo <= ps[i].effectiveness <= hi
    ensures lo * (|ps| as real) <= TotalEffectiveness(ps) <= hi * (|ps| as real)
  {
    if |ps| > 0 {
      assert forall i :: 0 <= i < |ps[1..]| ==> ps[1..][i] == ps[i + 1];
      TotalWithinBounds(ps[1..], lo, hi);
      var m := |ps[1..]| as real;
      var t := TotalEffectiveness(ps[1..]);
      assert lo * m <= t <= hi * m;
      assert lo <= ps[0].effectiveness <= hi;
      assert TotalEffectiveness(ps) == ps[0].effectiveness + t;
      assert (|ps| as real) == m + 1.0;
      assert lo * (m + 1.0) == lo * m + lo;
      assert hi * (m + 1.0) == hi * m + hi;
    }
  }

  /** The mean lies between any bounds that hold of every protocol. */
  lemma MeanWithinBounds(ps: seq<Protocol>, lo: real, hi: real)
    requires |ps| > 0
    requires forall i :: 0 <= i < |ps| ==> lo <= ps[i].effectiveness <= hi
    ensures lo <= MeanEffectiveness(ps).value <= hi
  {
    TotalWithinBounds(ps, lo, hi);
    var n := |ps| as real;
    var t := TotalEffectiveness(ps);
    assert t / n * n == t;
  }

  /** The metrics are current: counts and mean agree with the alerts and protocols. */
  predicate MetricsCurrent(d: StoreData) {
    d.metrics.activeTriggers == ActiveCount(d.alerts)
    && d.metrics.aiEffectiveness == MeanEffectiveness(d.protocols)
  }

  /** `calculateMetrics` on a value: the two derived fields recomputed, nothing else changed. */
  function Recompute(d: StoreData): (r: StoreData)
    ensures MetricsCurrent(r)
    ensures r == d.(metrics := r.metrics)
    ensures r.metrics == d.metrics.(activeTriggers := r.metrics.activeTriggers,
                                    aiEffectiveness := r.metrics.aiEffectiveness)
  {
    d.(metrics := d.metrics.(activeTriggers := ActiveCount(d.alerts),
                             aiEffectiveness := MeanEffectiveness(d.protocols)))
  }

  /** Prepending an alert raises the active count by one exactly when it is active. */
  lemma ActiveCountPrepend(a: Alert, alerts: seq<Alert>)
    ensures ActiveCount([a] + alerts) == ActiveCount(alerts) + (if IsActive(a) then 1 else 0)
  {
    assert ([a] + alerts)[1..] == alerts;
  }

  /** Seeding yields 5 active triggers and a mean effectiveness of 88, not the seed's 92.5. */
  lemma SeededMetrics(now: string)
    ensures Recompute(SeedData(now)).metrics.activeTriggers == 5
    ensures Recompute(SeedData(now)).metrics.aiEffectiveness == Some(88.0)
  {
    var a := SeedAlerts;
    assert a[4..][1..] == [];
    assert a[3..][1..] == a[4..];
    assert a[2..][1..] == a[3..];
    assert a[1..][1..] == a[2..];
    assert Count(a[4..], IsActive) == 1;
    assert Count(a, IsActive) == 5;
    var p := SeedProtocols;
    assert p[4..][1..] == [];
    assert p[3..][1..] == p[4..];
    assert p[2..][1..] == p[3..];
    assert p[1..][1..] == p[2..];
    assert TotalEffectiveness(p[4..]) == 88.0;
    assert TotalEffectiveness(p) == 440.0;
  }

  // ---------------------------------------------------------------- persistence

  /** `JSON.stringify(this.data)`: every top-level key present. */
  function Capture(d: StoreData): Snapshot {
    Snapshot(Some(d.alerts), Some(d.resources), Some(d.protocols), Some(d.metrics), Some(d.playbook))
  }

  /** `{ ...d, ...s }`: keys present in the snapshot replace the defaults, absent keys keep them. */
  function Merge(d: StoreData, s: Snapshot): (r: StoreData)
    ensures s.alerts.Some? ==> r.alerts == s.alerts.value
    ensures s.alerts.None? ==> r.alerts == d.alerts
    ensures s.resources.Some? ==> r.resources == s.resources.value
    ensures s.resources.None? ==> r.resources == d.resources
    ensures s.protocols.Some? ==> r.protocols == s.protocols.value
    ensures s.protocols.None? ==> r.protocols == d.protocols
    ensures s.metrics.Some? ==> r.metrics == s.metrics.value
    ensures s.metrics.None? ==> r.metrics == d.metrics
    ensures s.playbook.Some? ==> r.playbook == s.playbook.value
    ensures s.playbook.None? ==> r.playbook == d.playbook
  {
    StoreData(
      s.alerts.GetOr(d.alerts),
      s.resources.GetOr(d.resources),
      s.protocols.GetOr(d.protocols),
      s.metrics.GetOr(d.metrics),
      s.playbook.GetOr(d.playbook))
  }

  /**
   * Reloading a saved snapshot reproduces the saved record, whatever the
   * defaults. This checks that `Capture` and `Merge` agree (every key saved
   * is a key restored); JSON serialisation is not modelled.
   */
  lemma ReloadReproducesSaved(defaults: StoreData, saved: StoreData)
    ensures Merge(defaults, Capture(saved)) == saved
  {
  }

  // ---------------------------------------------------------------- lookup by id

  /** `alerts.findIndex(a => a.id === id)` */
  function AlertIndex(alerts: seq<Alert>, id: string): (k: int)
    ensures -1 <= k < |alerts|
    ensures k == -1 <==> forall i :: 0 <= i < |alerts| ==> alerts[i].id != id
    ensures 0 <= k ==> alerts[k].id == id && forall j :: 0 <= j < k ==> alerts[j].id != id
  {
    FindFirst(alerts, (a: Alert) => a.id == id)
  }

  /** `resources.findIndex(r => r.id === id)` */
  function ResourceIndex(resources: seq<Resource>, id: string): (k: int)
    ensures -1 <= k < |resources|
    ensures k == -1 <==> forall i :: 0 <= i < |resources| ==> resources[i].id != id
    ensures 0 <= k ==> resources[k].id == id && forall j :: 0 <= j < k ==> resources[j].id != id
  {
    FindFirst(resources, (r: Resource) => r.id == id)
  }

  /** The list after `updateAlert(id, u)`: the first alert with that id patched. */
  function PatchFirstAlert(alerts: seq<Alert>, id: string, u: AlertUpdate): seq<Alert> {
    var k := AlertIndex(alerts, id);
    if k == -1 then alerts else alerts[k := Patch(alerts[k], u)]
  }

  predicate UniqueAlertIds(alerts: seq<Alert>) {
    forall i, j :: 0 <= i < j < |alerts| ==> alerts[i].id != alerts[j].id
  }

  // ---------------------------------------------------------------- random alerts

  datatype AlertType = AlertType(kind: string, protocol: string, severity: Severity)

  /** The type table of `simulateRandomAlert`. */
  const AlertTypes: seq<AlertType> := [
    AlertType("Speed Violation", "SP-001", High),
    AlertType("Lane Departure", "LD-003", Medium),
    AlertType("Congestion", "CG-002", Low),
    AlertType("Weather Hazard", "WH-004", High),
    AlertType("Accident Detection", "AD-001", Critical)
  ]

  /** `Math.floor(u * n)` for a draw `u` in [0, 1). */
  function DrawIndex(u: real, n: nat): (i: nat)
    requires 0.0 <= u < 1.0 && n > 0
    ensures i < n
  {
    var f := (u * (n as real)).Floor;
    assert (f as real) <= u * (n as real) < n as real;
    f
  }

  /** `toLowerCase` on ASCII letters. */
  function LowerAscii(s: string): (r: string)
    ensures |r| == |s|
    ensures forall i :: 0 <= i < |s| ==> r[i] == if 'A' <= s[i] <= 'Z' then (s[i] as int + 32) as char else s[i]
  {
    if |s| == 0 then []
    else [if 'A' <= s[0] <= 'Z' then (s[0] as int + 32) as char else s[0]] + LowerAscii(s[1..])
  }

  /**
   * The alert `simulateRandomAlert` passes to `addAlert`, for the type draw,
   * the confidence draw and the location text (built from further draws).
   * The id, time and status are placeholders that `addAlert` overwrites.
   */
  function RandomAlertDraft(typeDraw: real, confidenceDraw: real, location: string): (a: Alert)
    requires 0.0 <= typeDraw < 1.0 && 0.0 <= confidenceDraw < 1.0
    ensures exists t :: t in AlertTypes && a.kind == t.kind && a.protocol == t.protocol && a.severity == t.severity
    ensures 0.7 <= a.confidence < 1.0
    ensures a.location == location
  {
    var t := AlertTypes[DrawIndex(typeDraw, |AlertTypes|)];
    Alert("", "", t.kind, t.protocol, location, t.severity, confidenceDraw * 0.3 + 0.7, Active,
          "Simulated " + LowerAscii(t.kind) + " detected")
  }

  /** Each type in the table occurs once, so a type fixes its protocol and severity. */
  lemma AlertTypeFixesRule(a: Alert, t: AlertType)
    requires t in AlertTypes && a.kind == t.kind
    ensures forall u :: u in AlertTypes && u.kind == a.kind ==> u == t
  {
  }

  // ---------------------------------------------------------------- the store

  /** `DataManager`: the static `data` record and the snapshot kept in local storage. */
  class DataManager {
    var data: StoreData
    /** What local storage holds under the data key; `None` when nothing (usable) is there. */
    var stored: Option<Snapshot>

    constructor (saved: Option<Snapshot>)
      ensures data == EmptyData && stored == saved
    {
      data := EmptyData;
      stored := saved;
    }

    /** `init`: load the stored snapshot, then seed if there are no alerts. */
    method Init(now: string)
      modifies this
      ensures var loaded := if old(stored).Some? then Merge(old(data), old(stored).value) else old(data);
        if |loaded.alerts| == 0 then data == Recompute(SeedData(now)) && stored == Some(Capture(data))
        else data == loaded && stored == old(stored)
    {
      LoadFromStorage();
      InitializeData(now);
    }

    /** `loadFromStorage`: a shallow merge of the stored snapshot over the current record. */
    method LoadFromStorage()
      modifies this
      ensures stored == old(stored)
      ensures data == if old(stored).Some? then Merge(old(data), old(stored).value) else old(data)
    {
      if stored.Some? {
        data := Merge(data, stored.value);
      }
    }

    /** `saveToStorage`: overwrite the stored snapshot with the whole record. */
    method SaveToStorage()
      modifies this
      ensures data == old(data) && stored == Some(Capture(data))
    {
      stored := Some(Capture(data));
    }

    /** `initializeData`: seed every collection only when the alert list is empty. */
    method InitializeData(now: string)
      modifies this
      ensures |old(data).alerts| == 0 ==> data == Recompute(SeedData(now)) && stored == Some(Capture(data))
      ensures |old(data).alerts| != 0 ==> data == old(data) && stored == old(stored)
    {
      if |data.alerts| == 0 {
        data := SeedData(now);
        var _ := CalculateMetrics();
        SaveToStorage();
      }
    }

    /** `calculateMetrics`: recompute the active-trigger count and the mean effectiveness. */
    method CalculateMetrics() returns (m: Metrics)
      modifies this
      ensures data == Recompute(old(data)) && stored == old(stored)
      ensures m == data.metrics
    {
      data := data.(metrics := data.metrics.(activeTriggers := ActiveCount(data.alerts),
                                             aiEffectiveness := MeanEffectiveness(data.protocols)));
      m := data.metrics;
    }

    /**
     * `addAlert`: stamp the alert with id `alert-<stamp>`, the time and status
     * active, put it first, recompute the metrics and save (auto-save is on).
     */
    method AddAlert(draft: Alert, stamp: string, time: string) returns (added: Alert)
      modifies this
      ensures added == draft.(id := "alert-" + stamp, time := time, status := Active)
      ensures data == Recompute(old(data).(alerts := [added] + old(data).alerts))
      ensures stored == Some(Capture(data))
      ensures ActiveCount(data.alerts) == ActiveCount(old(data).alerts) + 1
    {
      added := draft.(id := "alert-" + stamp, time := time, status := Active);
      ActiveCountPrepend(added, data.alerts);
      data := data.(alerts := [added] + data.alerts);
      var _ := CalculateMetrics();
      SaveToStorage();
    }

    /**
     * `updateAlert`: patch the first alert with the id, recompute the metrics
     * and save; with no such alert, return `None` and change nothing.
     */
    method UpdateAlert(id: string, u: AlertUpdate) returns (r: Option<Alert>)
      modifies this
      ensures var k := AlertIndex(old(data).alerts, id);
        if k == -1 then r == None && data == old(data) && stored == old(stored)
        else (r == Some(Patch(old(data).alerts[k], u))
              && data == Recompute(old(data).(alerts := old(data).alerts[k := r.value]))
              && stored == Some(Capture(data)))
      ensures data.alerts == PatchFirstAlert(old(data).alerts, id, u)
    {
      var k := AlertIndex(data.alerts, id);
      if k == -1 {
        return None;
      }
      data := data.(alerts := data.alerts[k := Patch(data.alerts[k], u)]);
      var _ := CalculateMetrics();
      SaveToStorage();
      r := Some(data.alerts[k]);
    }

    /**
     * `updateResource`, which the orchestrator calls but js/data.js does not
     * define: modelled on `updateAlert`, it sets the status of the first
     * resource with the id and saves.
     */
    method UpdateResource(id: string, status: ResourceStatus) returns (r: Option<Resource>)
      modifies this
      ensures var k := ResourceIndex(old(data).resources, id);
        if k == -1 then r == None && data == old(data) && stored == old(stored)
        else (r == Some(old(data).resources[k].(status := status))
              && data == old(data).(resources := old(data).resources[k := r.value])
              && stored == Some(Capture(data)))
    {
      var k := ResourceIndex(data.resources, id);
      if k == -1 {
        return None;
      }
      data := data.(resources := data.resources[k := data.resources[k].(status := status)]);
      SaveToStorage();
      r := Some(data.resources[k]);
    }

    /** `simulateRandomAlert`: draw an alert from the type table and add it. */
    method SimulateRandomAlert(typeDraw: real, confidenceDraw: real, location: string,
                               stamp: string, time: string) returns (added: Alert)
      requires 0.0 <= typeDraw < 1.0 && 0.0 <= confidenceDraw < 1.0
      modifies this
      ensures exists t :: t in AlertTypes && added.kind == t.kind && added.protocol == t.protocol
                          && added.severity == t.severity
      ensures added.status == Active && added.id == "alert-" + stamp && added.time == time
      ensures 0.7 <= added.confidence < 1.0 && added.location == location
      ensures data == Recompute(old(data).(alerts := [added] + old(data).alerts))
      ensures data.alerts == [added] + old(data).alerts && MetricsCurrent(data)
      ensures stored == Some(Capture(data))
    {
      var draft := RandomAlertDraft(typeDraw, confidenceDraw, location);
      added := AddAlert(draft, stamp, time);
    }
  }
}
