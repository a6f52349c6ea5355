# Traffic safety orchestrator: a verified model of its core

The dashboard watches traffic incidents. Alerts come in with a type, a
protocol and a severity. Operators escalate, acknowledge and clear them,
and deploy response resources. What-if scenarios run against a fixed
table, and a rule-based risk predictor scores situations. This project
models, in Dafny, the state and the rules behind those screens:

- **the data store** (`DataStore`, js/data.js): alerts, resources,
  protocols, metrics and the playbook; the derived metrics; the shallow
  merge of a saved snapshot; adding and patching alerts; and random
  alerts drawn from the type table;
- **the pane manager** (`Tabs`, js/tabs.js): which pane is current and
  active, and the saved pane; display names; the severity ladder; and the
  escalate, acknowledge-all and clear-resolved alert operations;
- **notifications** (`Notifications`, js/notifications.js): the record
  `show` builds, the 100-entry cap, the read flags and the unread count;
- **the scenario simulator** (`Simulation`, js/api/simulation.js): the
  five-scenario table, the additive adjustment rules and their clamps, the
  recommendation list capped at five, the 50-entry history, the run-all
  loop and the summary report;
- **the predictor** (`Prediction`, js/ml-integration.js): the factor
  tables, the composite score clamped to [0, 1], the category thresholds,
  the ordered recommendation rules, lazy initialisation, and the training
  guard with its delayed completion;
- **the orchestrator** (`Orchestrator`, js/app.js): fault-tolerant module
  registration; the list of monitoring interval handles, which emergency
  mode replaces; stat jitter; playbook improvement and reset; menu badge
  counts; training samples; and resource deployment.

Each static JS singleton is a Dafny class whose fields are the singleton's
state. A call into another module takes that module's object as a
parameter. Local storage is a field holding the last snapshot written.
Every `Math.random()` value, clock reading and `Date.now()` stamp is a
parameter. A delayed completion (training, deployment) is a separate
second step. `Wrappers` holds `Option` and `Result`. `Lists` holds the
array helpers (`findIndex`, `filter`, `slice`) stated once over sequences.

## Model

| member | source | states |
|---|---|---|
| DataStore.MeanEffectiveness | js/data.js:128 | the mean is absent exactly when there are no protocols (the source's NaN) |
| DataStore.MeanWithinBounds | js/data.js:128 | the mean effectiveness lies between any lower and upper bound of the protocols' values |
| DataStore.TotalWithinBounds | js/data.js:128 | the total effectiveness lies between n·lo and n·hi |
| DataStore.Recompute | js/data.js:125-131 | `calculateMetrics` leaves the metrics current (active count and mean) and changes nothing else |
| DataStore.ActiveCountPrepend | js/data.js:153-159 | prepending an alert raises the active count by one exactly when it is active |
| DataStore.SeededMetrics | js/data.js:107-131 | after seeding, the metrics show 5 active triggers and a mean effectiveness of 88 |
| DataStore.Merge | js/data.js:219 | each top-level key of the snapshot replaces the default, and an absent key keeps it |
| DataStore.ReloadReproducesSaved | js/data.js:214-234 | loading what was saved gives back the saved record (save and load cover the same keys; JSON itself is not modelled) |
| DataStore.AlertIndex | js/data.js:169 | the index of the first alert with the id, or -1 exactly when none has it |
| DataStore.ResourceIndex | js/app.js:432 | the index of the first resource with the id, or -1 exactly when none has it |
| DataStore.DrawIndex | js/data.js:200 | `Math.floor(u * n)` for a draw in [0, 1) is a valid index |
| DataStore.LowerAscii | js/data.js:208 | lower-casing keeps the length, maps each ASCII capital to its lower-case letter and leaves every other character alone |
| DataStore.RandomAlertDraft | js/data.js:183-209 | the draft's type, protocol and severity form a row of the type table; its confidence is in [0.7, 1) |
| DataStore.AlertTypeFixesRule | js/data.js:184-190 | each type occurs once in the table, so a type fixes its protocol and severity |
| DataStore.DataManager.constructor | js/data.js:3-11 | the store starts with empty records |
| DataStore.DataManager.Init | js/data.js:100-105 | load (merge the snapshot) and then seed if there are no alerts |
| DataStore.DataManager.LoadFromStorage | js/data.js:214-225 | with a snapshot the data becomes the merge, otherwise it is unchanged |
| DataStore.DataManager.SaveToStorage | js/data.js:227-234 | storage holds a snapshot of every key; the data is unchanged |
| DataStore.DataManager.InitializeData | js/data.js:107-123 | with no alerts, seed everything and save; otherwise change nothing |
| DataStore.DataManager.CalculateMetrics | js/data.js:125-131 | the data becomes `Recompute` of the old data; storage is untouched |
| DataStore.DataManager.AddAlert | js/data.js:153-166 | the new alert comes first with status active; the old alerts follow in order; metrics are current; the data is saved; the active count rises by one |
| DataStore.DataManager.UpdateAlert | js/data.js:168-181 | an absent id returns none and changes nothing; otherwise only the first alert with the id is patched, the other entries are kept, and the metrics are recomputed and saved |
| DataStore.DataManager.UpdateResource | js/app.js:432 | by analogy with `updateAlert`: an absent id changes nothing; otherwise the first resource with it gets the status and the data is saved. Unlike `updateAlert`, the metrics are left as they are: neither derived metric reads the resources |
| DataStore.DataManager.SimulateRandomAlert | js/data.js:183-212 | the added alert is active, carries a type-table row, the given location and a confidence in [0.7, 1); it comes first, the rest of the record is the old one with metrics recomputed, and the record is saved |
| Tabs.GetTabName | js/tabs.js:124-138 | a known pane id gets its fixed name (never the id itself); any other id is returned unchanged |
| Tabs.TabNamesCoverPanes | js/tabs.js:124-138 | the names table covers exactly the ten pane ids, with non-empty names |
| Tabs.Activate | js/tabs.js:96-104 | the same panes remain, and exactly the target pane is active |
| Tabs.ActivateLeavesOnePane | js/tabs.js:96-104 | after showing a pane, the set of active panes is that pane alone |
| Tabs.TabManager.constructor | js/tabs.js:7-43 | a non-empty saved pane id is restored (otherwise dashboard) and then switched to |
| Tabs.TabManager.SwitchToTab | js/tabs.js:89-122 | an unknown or missing pane changes nothing; a known one becomes current and solely active, and the state is saved once |
| Tabs.TabManager.SaveState | js/tabs.js:155-166 | storage holds the current pane id |
| Tabs.TabManager.EscalateAlert | js/tabs.js:604-624 | an absent id changes nothing; otherwise the first alert with it moves one severity step up and becomes escalated, the metrics are recomputed and the record is saved |
| Tabs.TabManager.AcknowledgeAllAlerts | js/tabs.js:550-568 | returns the active count; each initially active id is acknowledged in turn; with unique ids, no alert is left active and the others are unchanged |
| Tabs.TabManager.ClearResolvedAlerts | js/tabs.js:570-589 | only the active alerts remain; the reported count is that of resolved and acknowledged alerts; the data is saved |
| Tabs.NextSeverity | js/tabs.js:626-630 | the rank rises by one, capped at critical |
| Tabs.EscalationLadder | js/tabs.js:626-630 | low, medium and high advance one step; critical maps to itself |
| Tabs.GetNextSeverity | js/tabs.js:626-630 | the result is always a ladder name; an unrecognised name maps to low |
| Tabs.GetNextSeverityFollowsLadder | js/tabs.js:626-630 | on recognised names the string lookup agrees with the ladder |
| Tabs.IdsOf | js/tabs.js:554-556 | the ids of the alerts, position by position |
| Tabs.PatchFirstUnique | js/data.js:169-171 | with unique ids, patching the first alert with an id patches every alert carrying it |
| Tabs.AcknowledgeEachUnique | js/tabs.js:554-556 | with unique ids, exactly the alerts whose id is listed are acknowledged |
| Tabs.AcknowledgeAllUnique | js/tabs.js:552-556 | with unique ids, every active alert is acknowledged, the rest are kept, and none stays active |
| Tabs.DuplicateIdLeavesAlertActive | js/tabs.js:554-556 | with two alerts sharing an id, the active one can stay active |
| Tabs.StatusPartition | js/tabs.js:572-576 | active, resolved-or-acknowledged and escalated alerts together make up the whole list |
| Notifications.OrString | js/notifications.js:63-65 | an absent or empty option takes the default |
| Notifications.OrInt | js/notifications.js:66 | an absent or zero duration takes the default |
| Notifications.MakeNotification | js/notifications.js:61-69 | the id is `notification-` + stamp; the record is unread; type, title, message and duration default to info, Notification, "" and 5000 |
| Notifications.CapAsWrittenDropsNewest | js/notifications.js:50-52 | with 100 entries stored, the cap as written drops the notification just shown |
| Notifications.Cap | js/notifications.js:50-52 | the corrected cap of the first Findings row: at most 100 entries are kept, and they are the newest ones (the code as written keeps the oldest) |
| Notifications.CapKeepsNewest | js/notifications.js:50-52 | the newest entry survives the cap; capping is idempotent; below the cap nothing is dropped |
| Notifications.UnreadAfterShow | js/notifications.js:72 | showing below the cap raises the unread count by one |
| Notifications.NotificationIndex | js/notifications.js:163 | the id's first occurrence, or -1 exactly when there is none |
| Notifications.MarkedReadHasNoUnread | js/notifications.js:226-231 | once every entry is marked read, the unread count is zero |
| Notifications.NotificationManager.constructor | js/notifications.js:3-5 | the list starts empty and uninitialised |
| Notifications.NotificationManager.Init | js/notifications.js:7-45 | loads the saved list once; a second call changes nothing |
| Notifications.NotificationManager.SaveNotifications | js/notifications.js:47-58 | the list is capped with the corrected newest-100 cap and stored |
| Notifications.NotificationManager.Show | js/notifications.js:60-87 | the new record comes first, the list is capped (corrected cap) and stored, and its id is returned |
| Notifications.NotificationManager.ShowAlert | js/notifications.js:177-184 | a warning titled New Alert Detected, saying "type at location", shown for 7000 ms |
| Notifications.NotificationManager.ShowSuccess | js/notifications.js:186-193 | a success notice, titled Success unless a title is given, shown for 4000 ms |
| Notifications.NotificationManager.ShowError | js/notifications.js:195-202 | an error notice, titled Error unless a title is given, shown for 6000 ms |
| Notifications.NotificationManager.ShowWarning | js/notifications.js:204-211 | a warning, titled Warning unless a title is given, shown for 5000 ms |
| Notifications.NotificationManager.ShowInfo | js/notifications.js:213-220 | an info notice, titled Information unless a title is given, shown for 4000 ms |
| Notifications.NotificationManager.Dismiss | js/notifications.js:149-168 | an unknown id changes nothing; otherwise the first entry with it is marked read and the list is saved |
| Notifications.NotificationManager.GetUnreadCount | js/notifications.js:222-224 | the count is zero exactly when every entry is read |
| Notifications.NotificationManager.MarkAllAsRead | js/notifications.js:226-231 | every entry of the capped list is marked read and nothing else changes |
| Notifications.NotificationManager.ClearAll | js/notifications.js:233-240 | the list is empty and stored empty |
| Simulation.ScenarioIndex | js/api/simulation.js:94 | the index of the scenario with the key, or -1 exactly when the table has none |
| Simulation.ScenarioKeysIndexed | js/api/simulation.js:3-82 | every table key finds its own row |
| Simulation.RiskAdjustment | js/api/simulation.js:152-162 | the adjustment is in [0, 0.35], and zero exactly when no rule fires |
| Simulation.CalculateRiskReduction | js/api/simulation.js:152-162 | base plus adjustment, capped at 0.95 |
| Simulation.RiskReductionRange | js/api/simulation.js:131-135 | for a base in [0.6, 0.9) the reduction is from the base to 0.95 |
| Simulation.ResponseAdjustment | js/api/simulation.js:164-172 | the adjustment is in [-1.5, 2] |
| Simulation.CalculateResponseTime | js/api/simulation.js:164-172 | base plus adjustment, at least 3 |
| Simulation.ResponseTimeRange | js/api/simulation.js:132-136 | for a base in [5, 10) the response time is in [3, 12) |
| Simulation.TableAdjustments | js/api/simulation.js:3-82 | the adjustments each table scenario triggers |
| Simulation.BucketMessages | js/api/simulation.js:178-187 | two messages for each risk bucket |
| Simulation.ScenarioMessages | js/api/simulation.js:189-203 | at most three message pairs, one per rule that fires |
| Simulation.GenerateScenarioRecommendations | js/api/simulation.js:174-206 | between 2 and 5 messages: the bucket pair first, then the rule messages, in order, up to the cap |
| Simulation.ExecuteSimulation | js/api/simulation.js:125-150 | risk reduction in [60, 95] percent, response time in [3, 12), accuracy in [0.85, 0.95), recommendations for the scenario |
| Simulation.RunOne | js/api/simulation.js:93-123 | an unknown key fails with "Unknown scenario: key"; a known one runs its scenario |
| Simulation.Entries | js/api/simulation.js:108-116 | one history entry per successful run |
| Simulation.RecordedIsPushAll | js/api/simulation.js:108-116 | recording runs one by one equals pushing their entries onto the capped history |
| Simulation.HistoryRecentFirst | js/api/simulation.js:108-116 | the history is the new entries, newest first, ahead of the old ones, cut to 50 |
| Simulation.ResultsUpTo | js/api/simulation.js:214-229 | one result per key |
| Simulation.ResultsUpToPointwise | js/api/simulation.js:214-229 | result i is the run of key i with draw i |
| Simulation.TableRunsSucceed | js/api/simulation.js:208-238 | running the whole table succeeds five times, in table order |
| Simulation.RateMonotone | js/api/simulation.js:261-264 | a higher average never gets a lower rating |
| Simulation.Outcomes | js/api/simulation.js:241 | one outcome per successful run, each taken from a successful run |
| Simulation.OutcomeAt | js/api/simulation.js:241 | the outcome of a successful run sits at the index counting the successes before it, so every success appears, in run order |
| Simulation.OutcomesPositions | js/api/simulation.js:241 | the same placement for every successful run at once |
| Simulation.BestIndex | js/api/simulation.js:273-275 | the first run with the highest risk reduction |
| Simulation.WorstIndex | js/api/simulation.js:276-278 | the first run with the lowest risk reduction |
| Simulation.GenerateSummaryReport | js/api/simulation.js:240-280 | counts total and successful runs; with no success it reports zeros and nothing else; otherwise failed = total - successful, the averages are the mean risk reduction and the mean response time of the successful runs, and the rating follows the average |
| Simulation.SummaryBestWorst | js/api/simulation.js:273-278 | the best and worst scenarios named are those of the extreme risk reductions |
| Simulation.SummaryAverageBetween | js/api/simulation.js:253-255 | the average risk reduction lies between the worst and the best |
| Simulation.MeanRiskBetween | js/api/simulation.js:253-255 | the mean lies within any bounds of its terms |
| Simulation.TotalRiskWithinBounds | js/api/simulation.js:253-255 | the total lies between n·lo and n·hi |
| Simulation.TotalResponseWithinBounds | js/api/simulation.js:257-259 | the total response time lies between n·lo and n·hi |
| Simulation.MeanResponseBetween | js/api/simulation.js:257-259 | the mean response time lies within any bounds of its terms |
| Simulation.SummaryResponseBetween | js/api/simulation.js:257-259 | the reported average response time lies within any bounds of the successful runs' times |
| Simulation.ResultsResponseTimes | js/api/simulation.js:125-150 | every successful run of a batch takes between 3 and 12 |
| Simulation.TableResponseTimes | js/api/simulation.js:208-238 | running the whole table reports an average response time between 3 and 12 |
| Simulation.SimulationService.constructor | js/api/simulation.js:84-85 | no current run and an empty history |
| Simulation.SimulationService.Init | js/api/simulation.js:87-91 | the history becomes the saved one when there is one |
| Simulation.SimulationService.SaveHistory | js/api/simulation.js:354-365 | the history is cut to 50 and stored |
| Simulation.SimulationService.RunScenario | js/api/simulation.js:93-123 | agrees with the run of the key; on failure nothing changes; on success the run is current, its entry heads the history (cut to 50) and the history is stored |
| Simulation.SimulationService.RunEach | js/api/simulation.js:214-229 | one result per key, in order; the history records every success |
| Simulation.SimulationService.RunAllScenarios | js/api/simulation.js:208-238 | all five scenarios succeed, the summary reports five successes, no failure and an average response time in [3, 12], the history records every run, a current run is set and the history is stored |
| Simulation.SimulationService.ClearHistory | js/api/simulation.js:371-375 | the history and its stored copy are gone |
| Prediction.GetRiskCategory | js/ml-integration.js:90-95 | critical exactly from 0.8, low exactly below 0.4 |
| Prediction.RiskCategoryMonotone | js/ml-integration.js:90-95 | a higher score never gets a lower category |
| Prediction.GetTimeOfDayFactor | js/ml-integration.js:97-103 | the factor is in [0.4, 0.9] |
| Prediction.TimeOfDayOrder | js/ml-integration.js:97-103 | rush hours score above night hours, which score above the rest of the day |
| Prediction.Lookup | js/ml-integration.js:114 | a listed key gets its table value; any other key the fallback |
| Prediction.FactorTables | js/ml-integration.js:105-127 | known weather and location keys get their table values, unknown ones 0.3 and 0.5; all lie in [0.1, 0.9] |
| Prediction.OrNumber | js/ml-integration.js:59 | an absent or zero number takes the default |
| Prediction.FactorsOf | js/ml-integration.js:58-64 | traffic is density/100 (50 when absent or zero); history is accidents/10; the rest come from the tables |
| Prediction.Clamp01 | js/ml-integration.js:74 | the result is in [0, 1] and equals its input inside that range |
| Prediction.RiskScore | js/ml-integration.js:66-74 | the score is always in [0, 1] and is the weighted sum when that is in range |
| Prediction.RiskScoreMonotone | js/ml-integration.js:66-74 | raising any input never lowers the score |
| Prediction.RiskScoreFloor | js/ml-integration.js:55-74 | with non-negative inputs the score is at least 0.3 |
| Prediction.GenerateRecommendations | js/ml-integration.js:129-154 | the rule messages in rule order, cut to five |
| Prediction.HighScoreRecommendations | js/ml-integration.js:132-153 | above 0.7 the list is exactly the three emergency and two patrol messages |
| Prediction.LowScoreRecommendations | js/ml-integration.js:132-153 | at or below 0.5 only the traffic and weather rules contribute |
| Prediction.MockPredict | js/ml-integration.js:53-88 | the score is in [0, 1]; the category and recommendations follow it; confidence is in [0.85, 0.95) |
| Prediction.MLService.constructor | js/ml-integration.js:3-5 | no model, not training, not initialised |
| Prediction.MLService.Init | js/ml-integration.js:7-35 | loads the 0.92-accuracy model once; a second call changes nothing |
| Prediction.MLService.Predict | js/ml-integration.js:37-51 | initialises first when needed, then returns the mock prediction |
| Prediction.MLService.Train | js/ml-integration.js:156-166 | while a training runs it fails with "Model is already training" and changes nothing; otherwise a training starts |
| Prediction.MLService.CompleteTraining | js/ml-integration.js:167-184 | the flag clears; the accuracy rises by the improvement, never above 0.98; the report gives the accuracy (0.92 without a model) and the sample count |
| Orchestrator.RegisteredExactly | js/app.js:67-78 | a module is registered exactly when it was tried and its init completed |
| Orchestrator.EmergencyIsMoreIntensive | js/app.js:243-254 | emergency intervals refresh and simulate alerts more often, and at a lower threshold, than normal monitoring |
| Orchestrator.PreventionOrchestrator.constructor | js/app.js:3-8 | not initialised, not in emergency mode, no modules, no intervals |
| Orchestrator.PreventionOrchestrator.Init | js/app.js:10-46 | modules are registered, then the three monitoring intervals start |
| Orchestrator.PreventionOrchestrator.InitializeModules | js/app.js:54-79 | in the fixed order, each module whose init completes is registered; a failure skips only that module |
| Orchestrator.PreventionOrchestrator.StartMonitoring | js/app.js:108-132 | three fresh intervals are added (10 s, 30-60 s at threshold 0.7, 5 s) |
| Orchestrator.PreventionOrchestrator.ToggleEmergencyMode | js/app.js:226-264 | the flag becomes the argument (or flips); every old handle is cleared, leaving exactly 2 emergency handles or 3 monitoring ones, all fresh |
| Orchestrator.PreventionOrchestrator.TrainPlaybook | js/app.js:341-380 | without the prediction module it fails with "MLService not available"; otherwise it starts training on one sample per alert |
| Orchestrator.JitteredResponse | js/app.js:147-148 | the response time stays in [4, 12] and moves by less than 0.25 from a value in range |
| Orchestrator.UpdateSystemStats | js/app.js:144-157 | the response time is jittered and the active-trigger count recomputed; nothing is saved |
| Orchestrator.ImprovedEffectiveness | js/app.js:208-211 | the effectiveness rises, never above 100 |
| Orchestrator.HandleSimulationComplete | js/app.js:204-220 | an accuracy above 0.9 improves the playbook; otherwise nothing changes |
| Orchestrator.ResetPlaybook | js/app.js:382-411 | the playbook is back at 75 with nothing tested, and the data is saved |
| Orchestrator.BadgeFor | js/app.js:280-281 | a badge shows its count and is visible exactly when the count is positive |
| Orchestrator.UpdateMenuBadges | js/app.js:273-291 | the badges count active alerts and protocols below 80, each visible exactly when one such item exists |
| Orchestrator.SeedMenuBadges | js/app.js:273-291 | on the seed data the badges read 5 and 1 |
| Orchestrator.TrainingSamples | js/app.js:347-352 | one sample per alert, in order |
| Orchestrator.SuccessSamplesAreResolvedAlerts | js/app.js:347-352 | a sample succeeds exactly when its alert is resolved |
| Orchestrator.Deployments | js/app.js:418-428 | at most three available or active resources, and they form a prefix of the filtered list |
| Lists.FilterAt | js/app.js:419-421 | `filter` keeps order: a kept element sits at the index counting the kept elements before it |
| Orchestrator.DeploymentsInOrder | js/app.js:418-428 | a deployable resource with fewer than three deployable ones before it is picked, at the position that count gives: the picks are the first three in list order |
| Orchestrator.ResourceIds | js/app.js:430-432 | the ids of the picked resources, in order |
| Orchestrator.SetEachStatusUnique | js/app.js:430-432 | with unique ids, exactly the resources with a listed id take the status |
| Orchestrator.DeployResourcesAsWritten | js/app.js:413-470 | the code as written always fails: with nothing deployable, "No available resources to deploy"; otherwise the missing `updateResource` throws |
| Orchestrator.SeedDeployableCount | js/app.js:418-421 | five seed resources are deployable |
| Orchestrator.SeedDeployAsWrittenFails | js/app.js:430-432 | on the seed resources the written code fails with the missing-function error |
| Orchestrator.DeploymentsTakeLeadingDeployable | js/app.js:428 | when the first three resources are deployable, exactly those are picked |
| Orchestrator.DeployResources | js/app.js:413-470 | with nothing deployable it fails and changes nothing; otherwise it marks the picked resources deploying, saves, and returns min(count, 3) |
| Orchestrator.DeploymentUnique | js/app.js:430-445 | with unique ids, exactly the picked resources become deploying and the rest are unchanged |
| Orchestrator.CompleteDeployment | js/app.js:436-437 | the delayed step marks the resource on duty |

## Left out

- HTML and DOM rendering: the pane templates, notification elements, progress bars, all of js/ui.js, `updateDashboard`, and the UI calls inside the modelled methods.
- js/map.js: a map wrapper that places markers at random coordinates.
- Local storage failures and JSON parsing errors: storage is a field holding the last snapshot written, and an unreadable one counts as absent.
- The network call to the hosted model (`callColabModel`, `prepareFeatures`, `getStatus` in js/ml-integration.js): it is I/O.
- Timers: intervals are opaque handle tokens in a list; each delayed completion is a separate second step (`CompleteTraining`, `CompleteDeployment`); processing delays are dropped.
- Randomness: every `Math.random()` value is a parameter in [0, 1); distributions are not modelled.
- Number formatting: `toFixed` and `parseFloat` round trips are not modelled. Every value stays an exact real, where the code stores a rounded string and later parses it back: one decimal for percentages and times, two for confidences and accuracies. This affects more than bounds. Any comparison the code makes on a parsed value can come out the other way in the model when the exact value lies within half a rounding step of the threshold, or of the value it is compared with: within 0.05 for one decimal, 0.005 for two. The members affected are listed below, each with the code's rounding it omits.
- DataStore.RandomAlertDraft: the confidence bound `< 1.0` holds of the exact draw. The code stores `toFixed(2)`, which can read "1.00" (js/data.js:207). The same holds for `DataStore.DataManager.SimulateRandomAlert`.
- Simulation.ExecuteSimulation: the bounds `accuracy < 0.95` and `responseTime < 12.0` hold of exact values. The code's strings can read "0.95" and "12.0s" (js/api/simulation.js:141-142).
- Simulation.GenerateScenarioRecommendations: the bucket is chosen on the exact percentage. The code parses the one-decimal string (js/api/simulation.js:161, 176-187), so a reduction of 79.96 reads 80.0 there and gets the 80-and-above pair, whereas the model gives the 70-and-above pair. The same applies near 70 and in `Simulation.BucketMessages`.
- Simulation.BestIndex: ties are broken on exact reductions. The code compares the parsed one-decimal strings (js/api/simulation.js:273-278), so runs at 72.36 and 72.44 tie at 72.4 there and the first is kept, while the model keeps the second. The same applies to `Simulation.WorstIndex` and `Simulation.SummaryBestWorst`.
- Simulation.GenerateSummaryReport: both averages, and the rating `Simulation.Rate` derives from the risk average, are computed from exact values. The code averages the parsed one-decimal strings (js/api/simulation.js:253-264), so the average and its rating can differ near 60, 70 and 80. The same applies to `Simulation.SummaryAverageBetween`, `Simulation.SummaryResponseBetween` and `Simulation.TableResponseTimes`, whose bounds are about the exact averages.
- Orchestrator.JitteredResponse: every jitter starts from the exact previous value. The code stores `toFixed(1)` and parses it back next time (js/app.js:147-150), so "moves by less than 0.25" holds of one step on exact values only; with the rounding, one step can move up to 0.3. The same applies to `Orchestrator.UpdateSystemStats`.
- Orchestrator.HandleSimulationComplete: the `> 0.9` guard and the improvement are computed from the exact accuracy. The code compares the two-decimal string, which JavaScript converts to its rounded number, and parses it again for the improvement (js/app.js:208-210).
- Prediction.MockPredict: the confidence bound `< 0.95` holds of the exact value. The code's `toFixed(2)` can read "0.95", and the risk level is stored with three decimals (js/ml-integration.js:80-82).
- The prediction report's `newAccuracy` string is left out, because it is a `toFixed` rendering.
- The document event bus is left out. `toggleEmergencyMode` dispatches `emergency-mode`, and the orchestrator's own listener calls `toggleEmergencyMode` again, so it recurses. `simulation-complete` carries `{results, summary}`, with no `accuracy` key, so `HandleSimulationComplete` is modelled on an optional accuracy and in practice receives none.
- `handleNewAlert`, `simulateNewTrigger`, `runScenario`/`runAllScenarios` of the orchestrator and `optimizeResourceAllocation` are left out: they only forward to the modelled services or to the UI.
- The notifications other modules raise after an operation are left out; the `show*` methods themselves are modelled.
- Scenario parameters that no rule reads (`processingTime`, `expectedOutcomes` and the like) are left out, and so are the store's unused `simulations` and `settings` keys.
- Inherited object keys (such as `constructor`, `toString`) are left out of every keyed lookup over a plain object. The model treats only the listed keys as present, and every other key as absent. This covers five lookups: the weather and location tables in js/ml-integration.js; `this.scenarios[scenarioType]` at js/api/simulation.js:94; `this.tabs[tabId]` at js/tabs.js:90; and `tabNames[tabId] || tabId` at js/tabs.js:137. In the code, `runScenario('constructor')` gets past the unknown-scenario guard and then fails inside `calculateRiskReduction`. `Simulation.RunOne` instead reports "Unknown scenario: constructor". Likewise `getTabName('constructor')` returns a function where `Tabs.GetTabName` returns the id, and `switchToTab('constructor')` passes the guard where `Tabs.TabManager.SwitchToTab` leaves everything unchanged.
- Notifications.NotificationManager.SaveNotifications: this method and every class method that saves (`Show`, the `Show*` helpers, `Dismiss`, `MarkAllAsRead`) apply the corrected cap `Notifications.Cap` of the first Findings row, which keeps the newest 100 entries. The code as written keeps the oldest 100; that behaviour is `Notifications.CapAsWritten`, and `Notifications.CapAsWrittenDropsNewest` shows the difference.
- js/config.js is not part of this model; the store's auto-save flag is taken as on.
- Date strings and `Date.now()` stamps are parameters. The history entry and the result share one timestamp parameter.
- `generateRecommendations` (js/ml-integration.js:129-154) does not deduplicate. Its four rules emit distinct messages, so no duplicate arises, and the model keeps them in rule order.
- Tabs.TabManager.AcknowledgeAllAlerts: "no alert stays active" is proved only under unique ids. Ids come from `Date.now()` and can repeat; `Tabs.DuplicateIdLeavesAlertActive` shows what then happens.
- Orchestrator.DeploymentUnique: proved under unique resource ids only; with repeated ids, `updateResource` by id patches the first match each time.

## Findings

| source | as written | input that shows it | evidently intended | confidence | as-written member | corrected member |
|---|---|---|---|---|---|---|
| js/notifications.js:50-52 | `slice(-100)` keeps the last 100 entries of a list whose newest entry is first | 100 stored notifications, then one more `show`: the new notification is dropped at once | keep the newest 100 (`slice(0, 100)`) | high (not executed) | Notifications.CapAsWrittenDropsNewest | Notifications.CapKeepsNewest |
| js/app.js:432 | `deployResources` calls `DataManager.updateResource`, which js/data.js does not define | the seed resources (five available or active): the first call throws a `TypeError` and nothing is deployed | set each picked resource's status as `updateAlert` does for alerts | high (not executed) | Orchestrator.SeedDeployAsWrittenFails | Orchestrator.DeployResources |
