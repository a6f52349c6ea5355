/**
 * js/tabs.js: the pane state machine (which pane is current and active, and
 * the saved pane id), the display names of the panes, the severity ladder,
 * and the alert operations the alert pane offers (escalate, acknowledge all,
 * clear resolved), which update the data store.
 */
module Tabs {
  import opened Wrappers
  import opened Lists
  import opened DataStore

  // ---------------------------------------------------------------- panes

  /** The ten pane ids of `TabManager.tabs`, in declaration order. */
  const TabIds: seq<string> := [
    "dashboard", "alerts", "map", "protocols", "resources",
    "analytics", "playbook", "simulation", "reports", "settings"
  ]

  /** The display names of `getTabName`. */
  const TabNames: map<string, string> := map[
    "dashboard" := "Dashboard",
    "alerts" := "Active Alerts",
    "map" := "Risk Map",
    "protocols" := "Protocols",
    "resources" := "Resources",
    "analytics" := "Analytics",
    "playbook" := "AI Playbook",
    "simulation" := "Simulation Lab",
    "reports" := "Reports",
    "settings" := "Settings"
  ]

  /** `getTabName`: the fixed display name of a known pane, the id itself otherwise. */
  function GetTabName(id: string): (name: string)
    ensures id in TabIds ==> name == TabNames[id] && name != id
    ensures id !in TabIds ==> name == id
  {
    if id in TabNames then TabNames[id] else id
  }

  /**
   * The table names exactly the pane ids, with non-empty names, so the
   * `|| tabId` fallback applies to unknown ids only.
   */
  lemma TabNamesCoverPanes()
    ensures TabNames.Keys == set id | id in TabIds
    ensures forall id :: id in TabIds ==> GetTabName(id) != ""
  {
  }

  /** The pane classes after showing `id`: exactly that pane is active. */
  function Activate(panes: map<string, bool>, id: string): (r: map<string, bool>)
    requires id in panes
    ensures r.Keys == panes.Keys
    ensures forall k :: k in r ==> (r[k] <==> k == id)
  {
    map k | k in panes :: k == id
  }

  /** Pane ids whose pane has the `active` class. */
  function ActivePanes(panes: map<string, bool>): set<string> {
    set k | k in panes && panes[k]
  }

  /** After showing a known pane, the active panes are exactly that one. */
  lemma ActivateLeavesOnePane(panes: map<string, bool>, id: string)
    requires id in panes
    ensures ActivePanes(Activate(panes, id)) == {id}
  {
    var r := Activate(panes, id);
    assert id in ActivePanes(r);
    forall k | k in ActivePanes(r) ensures k == id {
    }
  }

  /**
   * `TabManager`'s state: the pane elements that exist (pane id to whether it
   * has the `active` class), the current pane, and the `currentTab` kept in
   * local storage with the number of times it was written.
   */
  class TabManager {
    var panes: map<string, bool>
    var currentTab: string
    var savedTab: Option<string>
    var saves: nat

    /**
     * `init`: restore `currentTab` from the saved state when it holds a
     * non-empty one, then switch to it. A restored id with no pane stays
     * current, since the switch returns early.
     */
    constructor (present: map<string, bool>, saved: Option<string>)
      requires forall k :: k in present ==> k in TabIds
      ensures var restored := if saved.Some? && saved.value != "" then saved.value else "dashboard";
        currentTab == restored
        && (restored in present ==> panes == Activate(present, restored) && savedTab == Some(restored) && saves == 1)
        && (restored !in present ==> panes == present && savedTab == saved && saves == 0)
    {
      panes := present;
      currentTab := "dashboard";
      savedTab := saved;
      saves := 0;
      new;
      if saved.Some? && saved.value != "" {
        currentTab := saved.value;
      }
      SwitchToTab(currentTab);
    }

    /**
     * `switchToTab`: an unknown id (or a missing pane) changes nothing;
     * otherwise exactly the target pane becomes active, it becomes current,
     * and the state is saved once.
     */
    method SwitchToTab(id: string)
      modifies this
      ensures id !in old(panes) ==>
        panes == old(panes) && currentTab == old(currentTab) && savedTab == old(savedTab) && saves == old(saves)
      ensures id in old(panes) ==>
        panes == Activate(old(panes), id) && currentTab == id && savedTab == Some(id) && saves == old(saves) + 1
    {
      if id !in panes {
        return;
      }
      panes := Activate(panes, id);
      currentTab := id;
      SaveState();
    }

    /** `saveState`: write the current pane id to local storage. */
    method SaveState()
      modifies this
      ensures savedTab == Some(currentTab) && saves == old(saves) + 1
      ensures panes == old(panes) && currentTab == old(currentTab)
    {
      savedTab := Some(currentTab);
      saves := saves + 1;
    }

    /** `escalateAlert`: raise the first alert with the id one severity step and mark it escalated. */
    method EscalateAlert(store: DataManager, id: string) returns (escalatedTo: Option<Severity>)
      modifies store
      ensures var before := old(store.data); var k := AlertIndex(before.alerts, id);
        if k == -1 then escalatedTo == None && store.data == before && store.stored == old(store.stored)
        else (escalatedTo == Some(NextSeverity(before.alerts[k].severity))
              && store.data.alerts ==
                 before.alerts[k := before.alerts[k].(severity := escalatedTo.value, status := Escalated)]
              && store.data == Recompute(before.(alerts := store.data.alerts))
              && store.stored == Some(Capture(store.data)))
    {
      var k := AlertIndex(store.data.alerts, id);
      if k == -1 {
        return None;
      }
      var next := NextSeverity(store.data.alerts[k].severity);
      var _ := store.UpdateAlert(id, NoUpdate.(severity := Some(next), status := Some(Escalated)));
      escalatedTo := Some(next);
    }

    /**
     * `acknowledgeAllAlerts`: for each alert active at the start, in order,
     * `updateAlert(alert.id, { status: 'acknowledged' })`. Returns the count
     * the confirmation message reports.
     */
    method AcknowledgeAllAlerts(store: DataManager) returns (acknowledged: nat)
      modifies store
      ensures var before := old(store.data).alerts;
        acknowledged == ActiveCount(before)
        && store.data.alerts == AcknowledgeEach(before, ActiveIds(before))
      ensures acknowledged == 0 ==> store.data == old(store.data) && store.stored == old(store.stored)
      ensures acknowledged > 0 ==>
        store.data == Recompute(old(store.data).(alerts := store.data.alerts))
        && store.stored == Some(Capture(store.data))
      ensures UniqueAlertIds(old(store.data).alerts) ==>
        |store.data.alerts| == |old(store.data).alerts|
        && ActiveCount(store.data.alerts) == 0
        && forall i :: 0 <= i < |store.data.alerts| && !IsActive(old(store.data).alerts[i]) ==>
             store.data.alerts[i] == old(store.data).alerts[i]
    {
      var alerts := store.data.alerts;
      ghost var before := store.data;
      var active := Filter(alerts, IsActive);
      var ids := ActiveIds(alerts);
      ghost var touched := false;
      var i := 0;
      while i < |active|
        invariant 0 <= i <= |active| == |ids|
        invariant store.data.alerts == AcknowledgeEach(alerts, ids[..i])
        invariant !touched ==> store.data == before && store.stored == old(store.stored)
        invariant touched ==>
          store.data == Recompute(before.(alerts := store.data.alerts)) && store.stored == Some(Capture(store.data))
        invariant i > 0 <==> touched
      {
        if i == 0 {
          assert active[0] in alerts;
          var j :| 0 <= j < |alerts| && alerts[j] == active[0];
          assert AlertIndex(alerts, ids[0]) != -1;
        }
        assert ids[..i + 1][..i] == ids[..i];
        var r := store.UpdateAlert(ids[i], StatusUpdate(Acknowledged));
        touched := touched || r.Some?;
        i := i + 1;
      }
      assert ids[..i] == ids;
      acknowledged := |active|;
      if UniqueAlertIds(alerts) {
        AcknowledgeAllUnique(alerts);
      }
    }

    /**
     * `clearResolvedAlerts`: keep only the active alerts and save. Returns the
     * count the message reports, which covers resolved and acknowledged alerts
     * only, although escalated alerts are dropped as well.
     */
    method ClearResolvedAlerts(store: DataManager) returns (reported: nat)
      modifies store
      ensures reported == Count(old(store.data).alerts, IsResolvedOrAcknowledged)
      ensures store.data == old(store.data).(alerts := Filter(old(store.data).alerts, IsActive))
      ensures store.stored == Some(Capture(store.data))
    {
      var alerts := store.data.alerts;
      reported := |Filter(alerts, IsResolvedOrAcknowledged)|;
      store.data := store.data.(alerts := Filter(alerts, IsActive));
      store.SaveToStorage();
    }
  }

  // ---------------------------------------------------------------- severity ladder

  /** `severityOrder` */
  const SeverityOrder: seq<string> := ["low", "medium", "high", "critical"]

  function SeverityName(s: Severity): string {
    match s
    case Low => "low"
    case Medium => "medium"
    case High => "high"
    case Critical => "critical"
  }

  function Rank(s: Severity): nat {
    match s
    case Low => 0
    case Medium => 1
    case High => 2
    case Critical => 3
  }

  /** The next severity on the ladder; critical stays critical. */
  function NextSeverity(s: Severity): (r: Severity)
    ensures Rank(r) == Min(Rank(s) + 1, 3)
  {
    match s
    case Low => Medium
    case Medium => High
    case High => Critical
    case Critical => Critical
  }

  /** Escalation advances strictly below critical and is idempotent at critical. */
  lemma EscalationLadder(s: Severity)
    ensures s != Critical ==> Rank(NextSeverity(s)) == Rank(s) + 1
    ensures NextSeverity(Critical) == Critical && NextSeverity(NextSeverity(High)) == Critical
  {
  }

  /**
   * `getNextSeverity` on the severity string: the entry after its index in
   * `severityOrder`, capped at the last. An unrecognised name has index -1,
   * so it maps to the first entry.
   */
  function GetNextSeverity(current: string): (next: string)
    ensures next in SeverityOrder
    ensures current !in SeverityOrder ==> next == "low"
  {
    var i := FindFirst(SeverityOrder, (n: string) => n == current);
    SeverityOrder[Min(i + 1, |SeverityOrder| - 1)]
  }

  /** On recognised names the string function follows the ladder. */
  lemma GetNextSeverityFollowsLadder(s: Severity)
    ensures GetNextSeverity(SeverityName(s)) == SeverityName(NextSeverity(s))
  {
    var p := (n: string) => n == SeverityName(s);
    var i := FindFirst(SeverityOrder, p);
    assert p(SeverityOrder[Rank(s)]);
    assert i == Rank(s);
  }

  // ---------------------------------------------------------------- alert operations

  predicate IsResolvedOrAcknowledged(a: Alert) { a.status == Resolved || a.status == Acknowledged }
  predicate IsEscalated(a: Alert) { a.status == Escalated }

  /** The ids of a list of alerts, in order. */
  function IdsOf(alerts: seq<Alert>): (ids: seq<string>)
    ensures |ids| == |alerts| && forall i :: 0 <= i < |alerts| ==> ids[i] == alerts[i].id
  {
    Map(alerts, (a: Alert) => a.id)
  }

  /** The ids of the alerts active at the start of `acknowledgeAllAlerts`. */
  function ActiveIds(alerts: seq<Alert>): seq<string> { IdsOf(Filter(alerts, IsActive)) }

  function Acknowledge(a: Alert): Alert { Patch(a, StatusUpdate(Acknowledged)) }

  /** The alerts after `updateAlert(id, { status: 'acknowledged' })` for each id in turn. */
  function AcknowledgeEach(alerts: seq<Alert>, ids: seq<string>): seq<Alert>
    decreases |ids|
  {
    if |ids| == 0 then alerts
    else PatchFirstAlert(AcknowledgeEach(alerts, ids[..|ids| - 1]), ids[|ids| - 1], StatusUpdate(Acknowledged))
  }

  /** With unique ids, patching the first alert with an id patches every alert with it. */
  lemma PatchFirstUnique(alerts: seq<Alert>, id: string, u: AlertUpdate)
    requires UniqueAlertIds(alerts)
    ensures var r := PatchFirstAlert(alerts, id, u);
      |r| == |alerts| && forall i :: 0 <= i < |alerts| ==> r[i] == if alerts[i].id == id then Patch(alerts[i], u) else alerts[i]
  {
  }

  /** With unique ids, acknowledging each id acknowledges exactly the alerts carrying one of them. */
  lemma {:induction false} AcknowledgeEachUnique(alerts: seq<Alert>, ids: seq<string>)
    requires UniqueAlertIds(alerts)
    ensures |AcknowledgeEach(alerts, ids)| == |alerts|
    ensures forall i :: 0 <= i < |alerts| ==>
      AcknowledgeEach(alerts, ids)[i] == if alerts[i].id in ids then Acknowledge(alerts[i]) else alerts[i]
  {
    if |ids| > 0 {
      var front := ids[..|ids| - 1];
      var last := ids[|ids| - 1];
      AcknowledgeEachUnique(alerts, front);
      var mid := AcknowledgeEach(alerts, front);
      assert forall i :: 0 <= i < |mid| ==> mid[i].id == alerts[i].id;
      assert UniqueAlertIds(mid);
      PatchFirstUnique(mid, last, StatusUpdate(Acknowledged));
      assert forall x :: x in ids <==> x in front || x == last;
    }
  }

  /**
   * With unique ids, acknowledging all alerts acknowledges exactly the active
   * ones, leaves the others unchanged, and leaves none active.
   */
  lemma AcknowledgeAllUnique(alerts: seq<Alert>)
    requires UniqueAlertIds(alerts)
    ensures var r := AcknowledgeEach(alerts, ActiveIds(alerts));
      |r| == |alerts|
      && (forall i :: 0 <= i < |alerts| ==>
            r[i] == if IsActive(alerts[i]) then alerts[i].(status := Acknowledged) else alerts[i])
      && ActiveCount(r) == 0
  {
    var active := Filter(alerts, IsActive);
    var ids := ActiveIds(alerts);
    forall i | 0 <= i < |alerts|
      ensures alerts[i].id in ids <==> IsActive(alerts[i])
    {
      if IsActive(alerts[i]) {
        assert alerts[i] in active;
        var j :| 0 <= j < |active| && active[j] == alerts[i];
        assert ids[j] == alerts[i].id;
      }
      if alerts[i].id in ids {
        var j :| 0 <= j < |ids| && ids[j] == alerts[i].id;
        assert active[j] in active;
        var k :| 0 <= k < |alerts| && alerts[k] == active[j];
        assert k == i;
      }
    }
    AcknowledgeEachUnique(alerts, ids);
    var r := AcknowledgeEach(alerts, ids);
    CountZero(r, IsActive);
  }

  /** With only the second alert active, the active ids are that alert's id. */
  lemma ActiveIdsOfPair(a: Alert, b: Alert)
    requires !IsActive(a) && IsActive(b)
    ensures ActiveIds([a, b]) == [b.id]
  {
    var s := [a, b];
    assert s[1..] == [b] && [b][1..] == [];
    assert Filter(s, IsActive) == [b];
    var ids := IdsOf([b]);
    assert |ids| == 1 && ids[0] == b.id;
  }

  /**
   * Ids are `alert-<Date.now()>` and can repeat. Then acknowledging all can
   * rewrite an earlier, inactive alert with the same id and leave the active
   * one active.
   */
  lemma DuplicateIdLeavesAlertActive()
    ensures var a := Alert("alert-1", "", "", "", "", Low, 0.5, Resolved, "");
      var b := a.(status := Active);
      var r := AcknowledgeEach([a, b], ActiveIds([a, b]));
      r == [a.(status := Acknowledged), b] && ActiveCount(r) == 1
  {
    var a := Alert("alert-1", "", "", "", "", Low, 0.5, Resolved, "");
    var b := a.(status := Active);
    var s := [a, b];
    ActiveIdsOfPair(a, b);
    assert AlertIndex(s, "alert-1") == 0;
    var r := [a.(status := Acknowledged), b];
    assert AcknowledgeEach(s, ["alert-1"]) == r by {
      assert ["alert-1"][..0] == [];
    }
    assert r[1..] == [b];
  }

  /**
   * Every alert is active, resolved or acknowledged, or escalated: the count
   * `clearResolvedAlerts` reports plus the kept and the escalated alerts is
   * the whole list.
   */
  lemma {:induction false} StatusPartition(alerts: seq<Alert>)
    ensures |alerts| == ActiveCount(alerts) + Count(alerts, IsResolvedOrAcknowledged) + Count(alerts, IsEscalated)
  {
    if |alerts| > 0 {
      StatusPartition(alerts[1..]);
    }
  }
}
