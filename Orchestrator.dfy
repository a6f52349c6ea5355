/**
 * js/app.js: `PreventionOrchestrator`. It registers modules in a fixed order,
 * tolerating failures. It keeps the list of monitoring interval handles,
 * which emergency mode replaces. It also jitters the response-time stat,
 * improves or resets the playbook, counts the menu badges, maps alerts to
 * training samples and deploys resources.
 */
module Orchestrator {
  import opened Wrappers
  import opened Lists
  import opened DataStore
  import Prediction

  // ---------------------------------------------------------------- modules

  datatype ModuleName =
    | DataManagerModule | MLServiceModule | SimulationServiceModule | TabManagerModule
    | MapManagerModule | NotificationManagerModule | UIManagerModule

  /** The order `initializeModules` walks. */
  const ModuleOrder: seq<ModuleName> := [
    DataManagerModule, MLServiceModule, SimulationServiceModule, TabManagerModule,
    MapManagerModule, NotificationManagerModule, UIManagerModule
  ]

  /** Where a module stands in that order. */
  function Position(m: ModuleName): (i: nat)
    ensures i < |ModuleOrder| && ModuleOrder[i] == m
  {
    match m
    case DataManagerModule => 0
    case MLServiceModule => 1
    case SimulationServiceModule => 2
    case TabManagerModule => 3
    case MapManagerModule => 4
    case NotificationManagerModule => 5
    case UIManagerModule => 6
  }

  /** Each position holds the module whose position it is. */
  lemma PositionInverse(i: nat)
    requires i < |ModuleOrder|
    ensures Position(ModuleOrder[i]) == i
  {
  }

  /**
   * The modules registered once the first `n` have been tried, where `oks[i]`
   * says whether the `init` of the `i`-th one completed.
   */
  function RegisteredUpTo(oks: seq<bool>, n: nat): set<ModuleName>
    requires n <= |oks| == |ModuleOrder|
  {
    if n == 0 then {}
    else RegisteredUpTo(oks, n - 1) + (if oks[n - 1] then {ModuleOrder[n - 1]} else {})
  }

  /** A module is registered exactly when it has been tried and its `init` completed. */
  lemma {:induction false} RegisteredExactly(oks: seq<bool>, n: nat, m: ModuleName)
    requires n <= |oks| == |ModuleOrder|
    ensures m in RegisteredUpTo(oks, n) <==> Position(m) < n && oks[Position(m)]
  {
    if n > 0 {
      RegisteredExactly(oks, n - 1, m);
      PositionInverse(n - 1);
    }
  }

  // ---------------------------------------------------------------- monitoring intervals

  /** What an interval callback does. */
  datatype Task =
    | RefreshDashboard
    | RefreshStats
    | RefreshDashboardAndStats
    | MaybeSimulateAlert(threshold: real)   // fires when a draw exceeds `threshold`

  /** An interval handle as an opaque token, with the callback and the period it was set with. */
  datatype Interval = Interval(handle: nat, task: Task, periodMs: real)

  /** The three intervals `startMonitoring` sets, with handles from `first` on. */
  function MonitoringIntervals(first: nat, periodDraw: real): seq<Interval> {
    [Interval(first, RefreshDashboard, 10000.0),
     Interval(first + 1, MaybeSimulateAlert(0.7), 30000.0 + periodDraw * 30000.0),
     Interval(first + 2, RefreshStats, 5000.0)]
  }

  /** The two intervals emergency mode sets, with handles from `first` on. */
  function EmergencyIntervals(first: nat): seq<Interval> {
    [Interval(first, RefreshDashboardAndStats, 2000.0),
     Interval(first + 1, MaybeSimulateAlert(0.5), 10000.0)]
  }

  /**
   * Emergency mode refreshes more often than either normal refresh, and
   * simulates alerts more often and with a lower threshold.
   */
  lemma EmergencyIsMoreIntensive(first: nat, next: nat, periodDraw: real)
    requires 0.0 <= periodDraw < 1.0
    ensures var normal := MonitoringIntervals(first, periodDraw);
      var emergency := EmergencyIntervals(next);
      emergency[0].periodMs < normal[2].periodMs < normal[0].periodMs
      && emergency[1].periodMs < normal[1].periodMs < 60000.0
      && emergency[1].task.threshold < normal[1].task.threshold
  {
  }

  // ---------------------------------------------------------------- the orchestrator

  class PreventionOrchestrator {
    var isInitialized: bool
    var isEmergencyMode: bool
    var modules: set<ModuleName>
    var intervals: seq<Interval>
    /** The next handle the timer would hand out. */
    var nextHandle: nat

    /** Every live handle was handed out and no two are equal. */
    predicate Valid()
      reads this
    {
      (forall i :: 0 <= i < |intervals| ==> intervals[i].handle < nextHandle)
      && (forall i, j :: 0 <= i < j < |intervals| ==> intervals[i].handle != intervals[j].handle)
    }

    constructor ()
      ensures Valid()
      ensures !isInitialized && !isEmergencyMode && modules == {} && intervals == [] && nextHandle == 0
    {
      isInitialized := false;
      isEmergencyMode := false;
      modules := {};
      intervals := [];
      nextHandle := 0;
    }

    /** `init`: register the modules, start monitoring. */
    method Init(oks: seq<bool>, periodDraw: real)
      requires |oks| == |ModuleOrder| && 0.0 <= periodDraw < 1.0
      requires Valid()
      modifies this
      ensures Valid() && isInitialized && isEmergencyMode == old(isEmergencyMode)
      ensures modules == old(modules) + RegisteredUpTo(oks, |ModuleOrder|)
      ensures intervals == old(intervals) + MonitoringIntervals(old(nextHandle), periodDraw)
      ensures nextHandle == old(nextHandle) + 3
    {
      InitializeModules(oks);
      StartMonitoring(periodDraw);
      isInitialized := true;
    }

    /**
     * `initializeModules`: try each module in order; one whose `init` throws
     * is skipped and the loop goes on.
     */
    method InitializeModules(oks: seq<bool>)
      requires |oks| == |ModuleOrder|
      modifies this
      ensures modules == old(modules) + RegisteredUpTo(oks, |ModuleOrder|)
      ensures forall m :: m in modules <==> m in old(modules) || oks[Position(m)]
      ensures isInitialized == old(isInitialized) && isEmergencyMode == old(isEmergencyMode)
      ensures intervals == old(intervals) && nextHandle == old(nextHandle)
    {
      var i := 0;
      while i < |ModuleOrder|
        invariant 0 <= i <= |ModuleOrder|
        invariant modules == old(modules) + RegisteredUpTo(oks, i)
        invariant isInitialized == old(isInitialized) && isEmergencyMode == old(isEmergencyMode)
        invariant intervals == old(intervals) && nextHandle == old(nextHandle)
      {
        if oks[i] {
          modules := modules + {ModuleOrder[i]};
        }
        i := i + 1;
      }
      forall m: ModuleName
        ensures m in modules <==> m in old(modules) || oks[Position(m)]
      {
        RegisteredExactly(oks, |ModuleOrder|, m);
      }
    }

    /** `startMonitoring`: add the three monitoring intervals to the handle list. */
    method StartMonitoring(periodDraw: real)
      requires 0.0 <= periodDraw < 1.0
      requires Valid()
      modifies this
      ensures Valid()
      ensures intervals == old(intervals) + MonitoringIntervals(old(nextHandle), periodDraw)
      ensures nextHandle == old(nextHandle) + 3
      ensures isInitialized == old(isInitialized) && isEmergencyMode == old(isEmergencyMode)
      ensures modules == old(modules)
    {
      intervals := intervals + MonitoringIntervals(nextHandle, periodDraw);
      nextHandle := nextHandle + 3;
    }

    /**
     * `toggleEmergencyMode(enabled = !this.isEmergencyMode)`: set the flag,
     * clear every interval, then set the two emergency intervals or restart
     * the three monitoring ones.
     */
    method ToggleEmergencyMode(enabled: Option<bool>, periodDraw: real)
      requires 0.0 <= periodDraw < 1.0
      requires Valid()
      modifies this
      ensures Valid()
      ensures isEmergencyMode == enabled.GetOr(!old(isEmergencyMode))
      ensures isEmergencyMode ==> intervals == EmergencyIntervals(old(nextHandle))
      ensures !isEmergencyMode ==> intervals == MonitoringIntervals(old(nextHandle), periodDraw)
      ensures |intervals| == if isEmergencyMode then 2 else 3
      ensures forall i :: 0 <= i < |intervals| ==> old(nextHandle) <= intervals[i].handle
      ensures isInitialized == old(isInitialized) && modules == old(modules)
    {
      isEmergencyMode := enabled.GetOr(!isEmergencyMode);
      intervals := [];
      if isEmergencyMode {
        intervals := EmergencyIntervals(nextHandle);
        nextHandle := nextHandle + 2;
      } else {
        StartMonitoring(periodDraw);
      }
    }

    /**
     * `trainPlaybook`: one sample per alert, handed to the prediction
     * service's `train` when that module is registered.
     */
    method TrainPlaybook(store: DataManager, ml: Prediction.MLService) returns (r: Result<()>)
      modifies ml
      ensures MLServiceModule !in modules ==>
        r == Err("MLService not available") && ml.isTraining == old(ml.isTraining)
        && ml.pendingSamples == old(ml.pendingSamples)
      ensures MLServiceModule in modules && old(ml.isTraining) ==>
        r == Err("Model is already training") && ml.isTraining && ml.pendingSamples == old(ml.pendingSamples)
      ensures MLServiceModule in modules && !old(ml.isTraining) ==>
        r == Ok(()) && ml.isTraining && ml.pendingSamples == |TrainingSamples(store.data.alerts)|
      ensures ml.model == old(ml.model) && ml.isInitialized == old(ml.isInitialized)
    {
      var samples := TrainingSamples(store.data.alerts);
      if MLServiceModule !in modules {
        return Err("MLService not available");
      }
      r := ml.Train(|samples|);
    }
  }

  // ---------------------------------------------------------------- system stats

  /** The jittered response time of `updateSystemStats`, clamped to [4, 12] seconds. */
  function JitteredResponse(current: real, jitterDraw: real): (r: real)
    requires 0.0 <= jitterDraw < 1.0
    ensures 4.0 <= r <= 12.0
    ensures 4.0 <= current <= 12.0 ==> -0.25 <= r - current < 0.25
  {
    MaxReal(4.0, MinReal(12.0, current + (jitterDraw - 0.5) * 0.5))
  }

  /**
   * `updateSystemStats`: jitter the response time and recount the active
   * alerts, writing straight into the store's metrics without saving.
   */
  method UpdateSystemStats(store: DataManager, jitterDraw: real)
    requires 0.0 <= jitterDraw < 1.0
    modifies store
    ensures store.data == old(store.data).(metrics := old(store.data).metrics.(
              responseTime := JitteredResponse(old(store.data).metrics.responseTime, jitterDraw),
              activeTriggers := ActiveCount(old(store.data).alerts)))
    ensures store.stored == old(store.stored)
  {
    var m := store.data.metrics;
    store.data := store.data.(metrics := m.(
      responseTime := JitteredResponse(m.responseTime, jitterDraw),
      activeTriggers := ActiveCount(store.data.alerts)));
  }

  // ---------------------------------------------------------------- playbook

  /** The effectiveness after a simulation with accuracy above 0.9: raised, never above 100. */
  function ImprovedEffectiveness(effectiveness: real, accuracy: real): (r: real)
    requires accuracy > 0.9
    ensures r <= 100.0
    ensures effectiveness < 100.0 ==> effectiveness < r
    ensures effectiveness + (accuracy - 0.9) * 0.5 <= 100.0 ==> r == effectiveness + (accuracy - 0.9) * 0.5
  {
    MinReal(100.0, effectiveness + (accuracy - 0.9) * 0.5)
  }

  /**
   * `handleSimulationComplete`: an accuracy above 0.9 improves the playbook
   * in place; an absent one compares false and changes nothing.
   */
  method HandleSimulationComplete(store: DataManager, accuracy: Option<real>)
    modifies store
    ensures accuracy.Some? && accuracy.value > 0.9 ==>
      store.data == old(store.data).(playbook := old(store.data).playbook.(
        effectiveness := ImprovedEffectiveness(old(store.data).playbook.effectiveness, accuracy.value)))
    ensures accuracy.None? || accuracy.value <= 0.9 ==> store.data == old(store.data)
    ensures store.stored == old(store.stored)
  {
    if accuracy.Some? && accuracy.value > 0.9 {
      var p := store.data.playbook;
      store.data := store.data.(playbook := p.(effectiveness := ImprovedEffectiveness(p.effectiveness, accuracy.value)));
    }
  }

  /** The baseline `resetPlaybook` installs; `now` is the ISO time. */
  const BaselineEffectiveness := 75.0

  /** `resetPlaybook`: back to the baseline, nothing tested, then save. */
  method ResetPlaybook(store: DataManager, now: string)
    modifies store
    ensures store.data == old(store.data).(playbook := Playbook(BaselineEffectiveness, now, 0))
    ensures store.stored == Some(Capture(store.data))
  {
    store.data := store.data.(playbook := Playbook(BaselineEffectiveness, now, 0));
    store.SaveToStorage();
  }

  // ---------------------------------------------------------------- menu badges

  /** A badge's text and whether it is shown. */
  datatype Badge = Badge(count: nat, visible: bool)

  datatype MenuBadges = MenuBadges(alerts: Badge, protocols: Badge)

  /** Protocols below 80% effectiveness count as pending. */
  predicate IsPending(p: Protocol) { p.effectiveness < 80.0 }

  function BadgeFor(n: nat): (b: Badge)
    ensures b.count == n && (b.visible <==> n > 0)
  {
    Badge(n, n > 0)
  }

  /** `updateMenuBadges`: active alerts and pending protocols, each badge hidden at zero. */
  function UpdateMenuBadges(alerts: seq<Alert>, protocols: seq<Protocol>): (b: MenuBadges)
    ensures b.alerts.count == ActiveCount(alerts)
    ensures b.protocols.count == Count(protocols, IsPending)
    ensures b.alerts.visible <==> exists i :: 0 <= i < |alerts| && IsActive(alerts[i])
    ensures b.protocols.visible <==> exists i :: 0 <= i < |protocols| && IsPending(protocols[i])
  {
    CountZero(alerts, IsActive);
    CountZero(protocols, IsPending);
    MenuBadges(BadgeFor(ActiveCount(alerts)), BadgeFor(Count(protocols, IsPending)))
  }

  /** On the seed data both badges show: 5 active alerts and 1 pending protocol. */
  lemma SeedMenuBadges()
    ensures UpdateMenuBadges(SeedAlerts, SeedProtocols) == MenuBadges(Badge(5, true), Badge(1, true))
  {
    SeededMetrics("");
    var p := SeedProtocols;
    assert p[4..][1..] == [];
    assert p[3..][1..] == p[4..];
    assert p[2..][1..] == p[3..];
    assert p[1..][1..] == p[2..];
  }

  // ---------------------------------------------------------------- training samples

  datatype SampleOutcome = SampleSuccess | SamplePending

  /** One training sample: the alert's type, severity and location, and its outcome. */
  datatype Sample = Sample(kind: string, severity: Severity, location: string, outcome: SampleOutcome)

  predicate IsResolved(a: Alert) { a.status == Resolved }
  predicate IsSuccessSample(s: Sample) { s.outcome == SampleSuccess }

  function SampleOf(a: Alert): Sample {
    Sample(a.kind, a.severity, a.location, if a.status == Resolved then SampleSuccess else SamplePending)
  }

  /** The `trainingData` of `trainPlaybook`: one sample per alert, in order. */
  function TrainingSamples(alerts: seq<Alert>): (s: seq<Sample>)
    ensures |s| == |alerts| && forall i :: 0 <= i < |alerts| ==> s[i] == SampleOf(alerts[i])
  {
    seq(|alerts|, i requires 0 <= i < |alerts| => SampleOf(alerts[i]))
  }

  /** A sample succeeds exactly when its alert is resolved, so the counts agree. */
  lemma {:induction false} SuccessSamplesAreResolvedAlerts(alerts: seq<Alert>)
    ensures Count(TrainingSamples(alerts), IsSuccessSample) == Count(alerts, IsResolved)
    ensures forall i :: 0 <= i < |alerts| ==> (IsSuccessSample(TrainingSamples(alerts)[i]) <==> IsResolved(alerts[i]))
  {
    if |alerts| > 0 {
      SuccessSamplesAreResolvedAlerts(alerts[1..]);
      assert TrainingSamples(alerts)[1..] == TrainingSamples(alerts[1..]);
    }
  }

  // ---------------------------------------------------------------- resource deployment

  /** The filter of `deployResources`: status `available` or `active`. */
  predicate IsDeployable(r: Resource) { r.status == Available || r.status == Online }

  /** The resources `deployResources` picks: the first three deployable ones, in list order. */
  function Deployments(resources: seq<Resource>): (d: seq<Resource>)
    ensures |d| == Min(Count(resources, IsDeployable), 3)
    ensures forall x :: x in d ==> x in resources && IsDeployable(x)
    ensures d == Filter(resources, IsDeployable)[..|d|]
  {
    Take(Filter(resources, IsDeployable), 3)
  }

  /**
   * List order decides: a deployable resource with fewer than three
   * deployable ones before it is picked, at the position that count gives.
   */
  lemma DeploymentsInOrder(resources: seq<Resource>)
    ensures var d := Deployments(resources);
      forall i :: 0 <= i < |resources| && IsDeployable(resources[i]) && Count(resources[..i], IsDeployable) < 3 ==>
        Count(resources[..i], IsDeployable) < |d| && d[Count(resources[..i], IsDeployable)] == resources[i]
  {
    FilterPositions(resources, IsDeployable);
  }

  function ResourceIds(rs: seq<Resource>): (ids: seq<string>)
    ensures |ids| == |rs| && forall i :: 0 <= i < |rs| ==> ids[i] == rs[i].id
  {
    Map(rs, (r: Resource) => r.id)
  }

  /** The list after `updateResource(id, { status })`: the first resource with that id changed. */
  function SetFirstStatus(resources: seq<Resource>, id: string, status: ResourceStatus): seq<Resource> {
    var k := ResourceIndex(resources, id);
    if k == -1 then resources else resources[k := resources[k].(status := status)]
  }

  /** The list after `updateResource(id, { status })` for each id in turn. */
  function SetEachStatus(resources: seq<Resource>, ids: seq<string>, status: ResourceStatus): seq<Resource>
    decreases |ids|
  {
    if |ids| == 0 then resources
    else SetFirstStatus(SetEachStatus(resources, ids[..|ids| - 1], status), ids[|ids| - 1], status)
  }

  predicate UniqueResourceIds(rs: seq<Resource>) {
    forall i, j :: 0 <= i < j < |rs| ==> rs[i].id != rs[j].id
  }

  /** With unique ids, setting each id's status sets exactly the resources carrying one. */
  lemma {:induction false} SetEachStatusUnique(resources: seq<Resource>, ids: seq<string>, status: ResourceStatus)
    requires UniqueResourceIds(resources)
    ensures |SetEachStatus(resources, ids, status)| == |resources|
    ensures forall i :: 0 <= i < |resources| ==>
      SetEachStatus(resources, ids, status)[i] ==
        if resources[i].id in ids then resources[i].(status := status) else resources[i]
  {
    if |ids| > 0 {
      var front := ids[..|ids| - 1];
      var last := ids[|ids| - 1];
      SetEachStatusUnique(resources, front, status);
      var mid := SetEachStatus(resources, front, status);
      assert forall i :: 0 <= i < |mid| ==> mid[i].id == resources[i].id;
      assert forall x :: x in ids <==> x in front || x == last;
    }
  }

  /**
   * `deployResources` as written: it calls `DataManager.updateResource`,
   * which js/data.js never defines, so with any resource deployable the call
   * throws a `TypeError` before anything changes.
   */
  function DeployResourcesAsWritten(resources: seq<Resource>): (r: Result<nat>)
    ensures r.Err?
    ensures r.message == "No available resources to deploy" <==> Count(resources, IsDeployable) == 0
  {
    if |Filter(resources, IsDeployable)| == 0 then Err("No available resources to deploy")
    else Err("DataManager.updateResource is not a function")
  }

  /** Five seed resources are deployable. */
  lemma SeedDeployableCount()
    ensures Count(SeedResources, IsDeployable) == 5
  {
    var r := SeedResources;
    assert r[7..][1..] == [];
    assert r[6..][1..] == r[7..];
    assert r[5..][1..] == r[6..];
    assert r[4..][1..] == r[5..];
    assert r[3..][1..] == r[4..];
    assert r[2..][1..] == r[3..];
    assert r[1..][1..] == r[2..];
  }

  /** On the seed resources five are deployable, yet the written code deploys none. */
  lemma SeedDeployAsWrittenFails()
    ensures Count(SeedResources, IsDeployable) == 5
    ensures DeployResourcesAsWritten(SeedResources) == Err("DataManager.updateResource is not a function")
  {
    SeedDeployableCount();
  }

  /** When the first three resources are deployable, exactly those three are picked. */
  lemma DeploymentsTakeLeadingDeployable(resources: seq<Resource>)
    requires |resources| >= 3 && IsDeployable(resources[0]) && IsDeployable(resources[1]) && IsDeployable(resources[2])
    ensures Deployments(resources) == resources[..3]
  {
    FilterPrefix(resources, IsDeployable, 3);
  }

  /** One more id: the status is then set for that id on the list so far. */
  lemma SetEachStatusStep(resources: seq<Resource>, ids: seq<string>, i: nat, status: ResourceStatus)
    requires i < |ids|
    ensures SetEachStatus(resources, ids[..i + 1], status)
         == SetFirstStatus(SetEachStatus(resources, ids[..i], status), ids[i], status)
  {
    assert ids[..i + 1][..i] == ids[..i];
  }

  /** The first resource picked for deployment is found by its id. */
  lemma FirstPickedFound(resources: seq<Resource>)
    ensures |Deployments(resources)| > 0 ==>
      ResourceIndex(resources, ResourceIds(Deployments(resources))[0]) != -1
  {
    var picked := Deployments(resources);
    if |picked| > 0 {
      assert picked[0] in resources;
      var j :| 0 <= j < |resources| && resources[j] == picked[0];
      assert resources[j].id == ResourceIds(picked)[0];
    }
  }

  /**
   * `deployResources` with `updateResource` defined as in the store: mark
   * each picked resource `deploying`, in order, and report how many.
   */
  method DeployResources(store: DataManager) returns (r: Result<nat>)
    modifies store
    ensures var before := old(store.data).resources;
      var picked := Deployments(before);
      if |picked| == 0 then
        r == Err("No available resources to deploy") && store.data == old(store.data)
        && store.stored == old(store.stored)
      else
        (r == Ok(|picked|) && r.value == Min(Count(before, IsDeployable), 3)
         && store.data == old(store.data).(resources := SetEachStatus(before, ResourceIds(picked), Deploying))
         && store.stored == Some(Capture(store.data)))
  {
    var resources := store.data.resources;
    var picked := Deployments(resources);
    if |picked| == 0 {
      return Err("No available resources to deploy");
    }
    var ids := ResourceIds(picked);
    ghost var before := store.data;
    var i := 0;
    FirstPickedFound(resources);
    while i < |ids|
      invariant 0 <= i <= |ids|
      invariant store.data == before.(resources := SetEachStatus(resources, ids[..i], Deploying))
      invariant i == 0 ==> store.stored == old(store.stored)
      invariant i > 0 ==> store.stored == Some(Capture(store.data))
    {
      SetEachStatusStep(resources, ids, i, Deploying);
      var _ := store.UpdateResource(ids[i], Deploying);
      i := i + 1;
    }
    assert ids[..i] == ids;
    r := Ok(|picked|);
  }

  /**
   * With unique ids, deployment marks exactly the picked resources
   * `deploying` and leaves every other resource as it was.
   */
  lemma DeploymentUnique(resources: seq<Resource>)
    requires UniqueResourceIds(resources)
    ensures var after := SetEachStatus(resources, ResourceIds(Deployments(resources)), Deploying);
      |after| == |resources|
      && forall i :: 0 <= i < |resources| ==>
           after[i] == if resources[i] in Deployments(resources) then resources[i].(status := Deploying) else resources[i]
  {
    var picked := Deployments(resources);
    var ids := ResourceIds(picked);
    forall i | 0 <= i < |resources|
      ensures resources[i].id in ids <==> resources[i] in picked
    {
      if resources[i] in picked {
        var j :| 0 <= j < |picked| && picked[j] == resources[i];
        assert ids[j] == resources[i].id;
      }
      if resources[i].id in ids {
        var j :| 0 <= j < |ids| && ids[j] == resources[i].id;
        assert picked[j] in picked;
        var k :| 0 <= k < |resources| && resources[k] == picked[j];
        assert k == i;
      }
    }
    SetEachStatusUnique(resources, ids, Deploying);
  }

  /** The delayed step of `deployResources` for one picked resource: mark it `on-duty`. */
  method CompleteDeployment(store: DataManager, id: string) returns (r: Option<Resource>)
    modifies store
    ensures var k := ResourceIndex(old(store.data).resources, id);
      if k == -1 then r == None && store.data == old(store.data) && store.stored == old(store.stored)
      else (r == Some(old(store.data).resources[k].(status := OnDuty))
            && store.data == old(store.data).(resources := old(store.data).resources[k := r.value])
            && store.stored == Some(Capture(store.data)))
  {
    r := store.UpdateResource(id, OnDuty);
  }
}
