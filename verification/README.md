# PermissionScope permission-status engine in Dafny

PermissionScope is an iOS dialog controller. It asks the user for up to three
system permissions, such as location, contacts, notifications, Bluetooth or
motion, and reports the outcome to the host app. This project models the
engine behind the dialog and omits the UI:

- **Permission kinds** (`kinds.dfy`, `permissions.dfy`). The eleven kinds
  and four unified statuses (unknown, authorized, unauthorized, disabled).
  The permission classes map to kinds through their `type` tag, and that map
  is a bijection.
- **Status normalisers** (`status.dfy`). Each native status enumeration is
  mapped to the unified status. The mapping takes into account the persisted
  "asked before" flags and the cached motion status. The native frameworks
  are replaced by a `Platform` value, which is the state of the operating
  system at the moment of the call.
- **Request decisions** (`requests.dfy`). For each kind's button, the model
  decides whether to prompt, trigger a status update, show the denied alert,
  show the disabled alert, re-check or do nothing. It also gives the
  follow-up after the notification prompt.
- **Aggregation** (`aggregation.dfy`). One pass queries every configured
  kind and collects the callbacks in a buffer. The completion fires when the
  buffer holds one result per configured kind. Also here is the reduction
  "every result is authorized".
- **The controller** (`scope.dfy`). The class `PermissionScope` holds the
  configured permissions and their messages, the user-defaults flags, and
  the Bluetooth/motion trigger state (waiting flags, cached motion status,
  motion queries in flight). Its methods are `addPermission`, the status
  triggers and their callbacks, `statusForPermission`,
  `getResultsForConfig`, the request actions, the return from the
  notification prompt, `show`, `detectAndCallback` and `cancel`.

How the model treats the source:

- **Assertions.** An `assert` in the source (a missing message, more than
  three permissions, a duplicate kind, an empty configuration in `show`, a
  missing location usage description) stops a debug build. The model turns
  each one into a distinct error outcome and leaves the state unchanged.
- **Arrival order (a model assumption).** Results are kept in the order
  their callbacks run, not in configuration order. Every status query
  answers synchronously except notifications, whose answer comes from the
  notification center's own completion handler. The model serialises a pass:
  the notifications answer arrives after the loop, so a pass delivers the
  configured kinds' results in configuration order with the notifications
  result moved to the end (`ArrivalOrder`). This is one schedule the app
  allows, not the only one (see "Left out"). Without notifications the
  order is configuration order on every schedule, and
  `ArrivalOrderProperties` proves it for the model. `CollectResults` and
  `DeliveryCompletesOnce` hold for any arrival order.
- **Trigger bookkeeping.** Reading the Bluetooth or motion status re-triggers
  its status update when it was asked for before, so every aggregation pass
  can set the waiting flags again and issue a motion query. `TriggerState`
  is the value of those three fields, `AfterPasses` is their value after a
  number of passes, and every operation that runs passes states its new
  trigger state through it.
- **Empty configuration.** A pass over an empty configuration never calls
  its completion. So with nothing configured, `allAuthorized`, `cancel`'s
  onCancel call and `detectAndCallback` never report anything. The model
  keeps this behaviour: `AllAuthorizedCheck` answers `None`, and `Cancel`
  and `DetectAndCallback` report nothing.
- **Location always, disabled.** When location services are off,
  `requestLocationAlways` shows the disabled alert for location in use, not
  for location always.
- **Motion waiting flag.** `waitingForMotion` is cleared only when a motion
  query changes the cached status. A query whose answer equals the status
  captured when it was issued leaves the flag set, and then `show`'s busy
  wait spins (`MotionQueryReturned`, `Show`).
- **Notification follow-up.** Its denied-alert branch is unreachable. The
  follow-up sets the requested-notifications flag before the pass, and with
  that flag set the notifications status is never unknown
  (`FollowUpNeverAlerts`, `FinishedShowingNotificationPermission`).

## Model

| member | source | states |
|---|---|---|
| Permissions.Permission.Type | TooolsPermissionScope/Permissions.swift:29-85 | each class's `type` constant; the class is recovered from it by `PermissionFor`, so distinct classes have distinct kinds |
| Permissions.KindRoundTrip | TooolsPermissionScope/Permissions.swift:29-85 | every kind is the `type` of some class: the one `PermissionFor` picks |
| Permissions.TypeInjective | TooolsPermissionScope/Permissions.swift:23-27 | two permissions have the same `type` tag iff they are the same class |
| Permissions.TypesOf | TooolsPermissionScope/TooolsPermissionScope.swift:326 | the kinds of a permission list are that list's `type` tags, element by element |
| Permissions.DistinctTypesDistinctClasses | TooolsPermissionScope/TooolsPermissionScope.swift:326 | no duplicate kind in a configuration means no class appears in it twice |
| Status.StatusLocationAlways | TooolsPermissionScope/TooolsPermissionScope.swift:440-463 | disabled iff location services are off; authorized iff "always" is granted; when-in-use counts as unauthorized iff the upgrade was requested, otherwise as unknown; restricted and denied are unauthorized |
| Status.StatusLocationInUse | TooolsPermissionScope/TooolsPermissionScope.swift:495-511 | disabled iff services are off; authorized iff either grant is given; unauthorized iff restricted or denied; unknown iff not determined |
| Status.StatusFromAuthorization | TooolsPermissionScope/TooolsPermissionScope.swift:542-570 | contacts (as do camera, photos, reminders and events): authorized iff granted, unauthorized iff restricted or denied, unknown iff not determined, never disabled |
| Status.StatusMicrophone | TooolsPermissionScope/TooolsPermissionScope.swift:725-737 | authorized iff granted, unauthorized iff denied, never disabled |
| Status.StatusNotifications | TooolsPermissionScope/TooolsPermissionScope.swift:608-626 | authorized iff the settings say authorized; otherwise unauthorized iff notifications were requested before, else unknown; never disabled |
| Status.StatusBluetooth | TooolsPermissionScope/TooolsPermissionScope.swift:951-975 | unknown when never asked; otherwise the first matching case wins: disabled iff unsupported, powered off or restricted; else unauthorized iff unauthorized or denied; authorized iff powered on and authorized |
| Status.MotionQueryStatus | TooolsPermissionScope/TooolsPermissionScope.swift:1056-1063 | a motion query leaves unauthorized iff it failed with the not-authorized error, and authorized otherwise |
| Status.Normalised | TooolsPermissionScope/TooolsPermissionScope.swift:1345-1386 | the status of one kind: motion is the cached status, Bluetooth never asked is unknown, notifications asked before is never unknown, and a location kind is disabled iff services are off |
| Status.DisabledOnlyForSystemSwitches | TooolsPermissionScope/TooolsPermissionScope.swift:1345-1386 | a kind's status is disabled iff it is a location kind with services off, Bluetooth in a disabled state, or motion with a disabled cache |
| Requests.RequestDecision | TooolsPermissionScope/TooolsPermissionScope.swift:468-489 | each request action's switch (location always here, and likewise every other request* method up to line 1043): prompt or trigger iff the status is unknown; the denied alert for the same kind iff unauthorized; the re-check iff notifications is authorized; nothing iff another kind is authorized or contacts, reminders, events or motion is disabled; the disabled alert iff disabled otherwise, for location in use when location always is asked |
| Requests.FirstNotifications | TooolsPermissionScope/TooolsPermissionScope.swift:673 | absent iff no result is for notifications; otherwise the status of the first notifications result in the list |
| Requests.NotificationFollowUp | TooolsPermissionScope/TooolsPermissionScope.swift:671-685 | no follow-up iff notifications is not among the results; the denied alert iff the first notifications result is unknown; a re-check otherwise |
| Requests.FollowUpNeverAlerts | TooolsPermissionScope/TooolsPermissionScope.swift:671-685 | when no notifications result is unknown, the follow-up is never the denied alert |
| Aggregation.FirstNotAuthorized | TooolsPermissionScope/TooolsPermissionScope.swift:119 | the index of the first result that is not authorized, with every earlier result authorized; absent iff all are authorized |
| Aggregation.AllAuthorized | TooolsPermissionScope/TooolsPermissionScope.swift:115-122 | true iff every result is authorized (unknown, unauthorized and disabled all count against it); vacuously true on an empty list |
| Aggregation.AllAuthorizedIgnoresOrder | TooolsPermissionScope/TooolsPermissionScope.swift:115-122 | the verdict is the same for any two result lists that are permutations of each other |
| Aggregation.Synchronous | TooolsPermissionScope/TooolsPermissionScope.swift:1345-1386 | the results delivered during the query loop contain no notifications result |
| Aggregation.Deferred | TooolsPermissionScope/TooolsPermissionScope.swift:1345-1386 | the results delivered after the loop are only notifications results |
| Aggregation.SplitStep | TooolsPermissionScope/TooolsPermissionScope.swift:1428-1438 | one more configured kind extends exactly one of the two streams, by its result |
| Aggregation.SplitIsPermutation | TooolsPermissionScope/TooolsPermissionScope.swift:1428-1438 | together the two streams hold exactly the configured results |
| Aggregation.NoNotificationsNoneDeferred | TooolsPermissionScope/TooolsPermissionScope.swift:1428-1438 | without notifications, every result is delivered synchronously in configuration order |
| Aggregation.ArrivalOrder | TooolsPermissionScope/TooolsPermissionScope.swift:1424-1441 | the results of a pass in the order the model's schedule delivers them: exactly one per configured kind (its order is stated by `ArrivalOrderProperties`) |
| Aggregation.ArrivalOrderProperties | TooolsPermissionScope/TooolsPermissionScope.swift:1424-1441 | the results of a pass are a permutation of the configured kinds' results with the same length, notifications comes last, and without notifications they are in configuration order |
| Aggregation.CollectResults | TooolsPermissionScope/TooolsPermissionScope.swift:1424-1441 | the completion fires at most once; it fires iff at least `expected` >= 1 callbacks arrive; it carries the first `expected` arrivals in arrival order |
| Aggregation.DeliveryCompletesOnce | TooolsPermissionScope/TooolsPermissionScope.swift:1424-1441 | when each configured kind answers once, there are as many arrivals as kinds, the completion fires iff something is configured, and it carries every arrival, one per configured kind |
| Aggregation.CollectDelivery | TooolsPermissionScope/TooolsPermissionScope.swift:1424-1441 | whatever order the configured kinds' callbacks run in, the completion fires exactly once iff something is configured, carrying the whole delivery |
| Scope.ResultsFor | TooolsPermissionScope/TooolsPermissionScope.swift:1428-1432 | one result per configured kind |
| Scope.MissingKey | TooolsPermissionScope/TooolsPermissionScope.swift:470-471 | the usage-description assertion can fail only for the two location kinds (also at lines 518-519) |
| Scope.AfterPassesEffect | TooolsPermissionScope/TooolsPermissionScope.swift:1374-1379 | after some passes a waiting flag is set iff it was set before or a pass re-triggered its kind (Bluetooth configured, asked before and in an unknown state; motion configured and asked before); each pass appends one motion query capturing the cached status when motion re-triggers, and none otherwise; passes never clear a flag |
| Scope.AfterPassesAdd | TooolsPermissionScope/TooolsPermissionScope.swift:1374-1379 | passes run one after another add up: a passes then b passes are a + b passes |
| Scope.UpgradeRequestRemembered | TooolsPermissionScope/TooolsPermissionScope.swift:473-483 | when a location-always request prompts from when-in-use, any state in which the upgrade flag is set gives the denied alert for the same platform: the request is not prompted twice |
| Scope.PermissionScope.constructor | TooolsPermissionScope/TooolsPermissionScope.swift:157-206 | empty configuration, no closures, motion unknown; when motion was asked for before, the motion query is re-issued at load time |
| Scope.PermissionScope.AddPermission | TooolsPermissionScope/TooolsPermissionScope.swift:322-338 | refused with nothing changed for an empty message, for three already configured, or for a kind already configured (in that order); accepted iff none of these holds, and then appended with its message; a Bluetooth or motion kind asked for before re-triggers its status update; the asked-before flags never change; the object invariant (at most three distinct kinds, each with a non-empty message) is kept |
| Scope.PermissionScope.Append | TooolsPermissionScope/TooolsPermissionScope.swift:328-329 | the permission goes at the end and its message is stored under its kind, keeping the configuration invariant |
| Scope.PermissionScope.RetriggerAdded | TooolsPermissionScope/TooolsPermissionScope.swift:331-337 | an added Bluetooth permission asked for before runs the Bluetooth trigger, an added motion permission asked for before issues a motion query; nothing else changes and the flags stay as they were |
| Scope.PermissionScope.TriggerBluetoothStatusUpdate | TooolsPermissionScope/TooolsPermissionScope.swift:1001-1010 | activates iff nothing is awaited and the manager state is unknown; activating marks Bluetooth as asked and awaited; nothing else changes |
| Scope.PermissionScope.PeripheralManagerDidUpdateState | TooolsPermissionScope/TooolsPermissionScope.swift:1237-1241 | the Bluetooth activation is no longer awaited, and a re-check is always scheduled |
| Scope.PermissionScope.TriggerMotionStatusUpdate | TooolsPermissionScope/TooolsPermissionScope.swift:1048-1074 | marks motion as asked and awaited, and issues a query that captures the current cached status |
| Scope.PermissionScope.MotionQueryReturned | TooolsPermissionScope/TooolsPermissionScope.swift:1054-1068 | the cache becomes the query's answer; the wait is cleared and a re-check scheduled iff that answer differs from the captured status |
| Scope.PermissionScope.StatusForPermission | TooolsPermissionScope/TooolsPermissionScope.swift:1345-1386 | returns the normalised status of the state before the call; the only side effects are re-triggering Bluetooth and motion when they were asked for before |
| Scope.PermissionScope.GetResultsForConfig | TooolsPermissionScope/TooolsPermissionScope.swift:1424-1441 | no completion with nothing configured; otherwise exactly one, carrying the configured kinds' results in arrival order; no status changes, and the trigger state is that after one pass |
| Scope.PermissionScope.QueryConfigured | TooolsPermissionScope/TooolsPermissionScope.swift:1428-1439 | the arrivals of one pass over the configuration, one per configured kind, and the trigger state after one pass |
| Scope.PermissionScope.QueryAll | TooolsPermissionScope/TooolsPermissionScope.swift:1428-1439 | the query loop's answers, in the order their callbacks run, and the trigger state after one pass over the given kinds |
| Scope.PermissionScope.Request | TooolsPermissionScope/TooolsPermissionScope.swift:356-387 | a location kind without its usage description fails with nothing changed; otherwise the decision taken on the status before the tap; the when-in-use to always upgrade is recorded iff location always prompts from when-in-use; Bluetooth and motion run their trigger; flags are only ever set |
| Scope.PermissionScope.RequestLocationAlwaysTwice | TooolsPermissionScope/TooolsPermissionScope.swift:468-489 | two location-always requests on the same platform: when the first prompts from when-in-use, the second shows the denied alert |
| Scope.PermissionScope.ApplyDecision | TooolsPermissionScope/TooolsPermissionScope.swift:475-481 | the effect of a decision: the upgrade flag for a location-always prompt from when-in-use, the Bluetooth trigger (lines 989-990) or the motion trigger (lines 1038-1039) for their trigger outcome, and nothing else |
| Scope.PermissionScope.FinishedShowingNotificationPermission | TooolsPermissionScope/TooolsPermissionScope.swift:658-688 | sets the requested-notifications flag; the follow-up is decided on one pass, and it is never the denied alert; the trigger state is that after one pass |
| Scope.PermissionScope.NotificationsNeverUnknown | TooolsPermissionScope/TooolsPermissionScope.swift:665-675 | once notifications were requested, no notifications result of a pass is unknown, so the follow-up is not the denied alert |
| Scope.PermissionScope.Show | TooolsPermissionScope/TooolsPermissionScope.swift:1101-1128 | nothing happens iff nothing is configured; otherwise the closures are stored and it spins iff a trigger is awaited; after that the dialog is presented iff some kind is not authorized, and onAuthChange(true, results) is called iff all are authorized and onAuthChange is set; the trigger state is that after no pass, one pass (dialog) or two passes (all authorized) |
| Scope.PermissionScope.ShowAfterWait | TooolsPermissionScope/TooolsPermissionScope.swift:1114-1126 | the dialog iff some kind is not authorized, otherwise onAuthChange(true, results) iff it is set; one pass for the dialog, two otherwise |
| Scope.PermissionScope.DetectAndCallback | TooolsPermissionScope/TooolsPermissionScope.swift:1393-1419 | reports to onAuthChange iff it is set and something is configured, passing the all-authorized verdict and the pass's results; hides iff something is configured and all are authorized; the trigger state is that after three passes with onAuthChange, one without |
| Scope.PermissionScope.ReportAuthChange | TooolsPermissionScope/TooolsPermissionScope.swift:1397-1405 | the onAuthChange call: present iff onAuthChange is set and something is configured, with the verdict and the results in arrival order; two passes iff onAuthChange is set |
| Scope.PermissionScope.ReportPasses | TooolsPermissionScope/TooolsPermissionScope.swift:1399-1404 | the results pass followed by the allAuthorized pass: the verdict and the results in arrival order, and the trigger state after two passes |
| Scope.PermissionScope.AllAuthorizedCheck | TooolsPermissionScope/TooolsPermissionScope.swift:115-122 | no answer iff nothing is configured (the completion never runs); otherwise whether every configured kind is authorized; the trigger state is that after one pass |
| Scope.PermissionScope.Cancel | TooolsPermissionScope/TooolsPermissionScope.swift:1249-1259 | onCancel receives the pass's results in arrival order iff onCancel is set and something is configured; one pass iff onCancel is set |

## Left out

- UIKit: the layout, button styling and labels, showing and hiding the
  dialog, and the denied and disabled alerts (`showDeniedAlert`,
  `showDisabledAlert`) along with their onDisabledOrDenied callbacks and the
  Settings round trip. The model reports which alert would be shown but
  does not show it.
- Native framework calls (location manager, contacts store, capture device,
  photo library, event store, notification center, Bluetooth manager,
  motion manager). Their answers are the `Platform` value. The platform is
  taken as constant during one operation, so a user decision that arrives
  between two queries of one pass is not modelled.
- The native prompts themselves: `Prompt(kind)` says that the prompt is
  issued, not what the user answers. A later answer is a new `Platform`.
- Scheduling: `DispatchQueue.main.async` hops and the 0.1-second delay run
  in line. `show`'s busy wait is reported as `SpinsWaiting` rather than
  looped. The observer and timer choreography around the notification
  prompt (`showingNotificationPermission`, the `willResignActive` and
  `didBecomeActive` observers, the one-second timer) is reduced to the one
  call that decides the follow-up.
- Scope.PermissionScope.AddPermission: models the debug build, where a
  failed `assert` stops the program. A release build compiles the
  assertions out and would append anyway.
- Scope.PermissionScope.Show: `requiredAuthorized` is identical to
  `allAuthorized` (TooolsPermissionScope/TooolsPermissionScope.swift:129-135),
  so `AllAuthorizedCheck` models both.
- Scope.PermissionScope.GetResultsForConfig and
  Scope.PermissionScope.QueryAll fix one schedule of the pass. The
  notification-settings completion
  (TooolsPermissionScope/TooolsPermissionScope.swift:610) runs off the main
  queue. In the app its append can land before later synchronous appends,
  and it races with them on an unsynchronised array. The model delivers it
  after the loop and does not model the race.
- Scope.PermissionScope.GetResultsForConfig: the completion test re-reads
  `configuredPermissions.count` each time a callback runs
  (TooolsPermissionScope/TooolsPermissionScope.swift:1434). The model fixes
  the count when the pass starts, so an `addPermission` that lands while the
  notifications answer is pending is not modelled.
- Scope.PermissionScope.DetectAndCallback: `setNeedsLayout`
  (TooolsPermissionScope/TooolsPermissionScope.swift:1408) is not modelled.
  The layout it schedules reads every configured kind's status again
  (line 280), which has the trigger effect of one more pass. So the
  trigger-state clause (`AfterPasses` with three passes, or one) counts only
  the passes of `detectAndCallback` itself. The ordering between the
  onAuthChange report and the hide decision is not modelled either, since
  each is computed by its own pass.
- Scope.PermissionScope.Show: presenting the dialog lays it out, and the
  layout (TooolsPermissionScope/TooolsPermissionScope.swift:266-280) reads
  every configured kind's status again. That read is not modelled, so the
  trigger-state clause (`AfterPasses` with `ShowPasses(o)` passes) counts
  only the passes of `show` itself.
- Scope.PermissionScope.Request: the model assumes onDisabledOrDenied is not
  set. When it is set, the denied and disabled alerts
  (TooolsPermissionScope/TooolsPermissionScope.swift:1268-1274 and
  1299-1305) run one more results pass. That pass re-triggers Bluetooth
  and motion like any other. For those two outcomes the clauses on
  `waitingForBluetooth`, `waitingForMotion` and `pendingMotionQueries`
  describe the request without that pass.
- `permissionStatuses` (TooolsPermissionScope/TooolsPermissionScope.swift:139-150)
  and the location manager delegate callback, which only schedules
  `detectAndCallback`, are not modelled.
- `UserDefaults.synchronize` and persistence across launches: `Defaults`
  is a value that the operations update, and the constructor receives the
  stored flags.
- `#available` branches and the address-book fallback for contacts: they
  have the same four cases as the modern authorization status and map the
  same way.
- Status.StatusFromAuthorization: one function models the five identical
  normalisers for contacts, camera, photos, reminders and events (lines
  542-570, 767-779, 811-823, 854-866 and 894-906).
- Extensions.swift (localisation and nil helpers) and the example app's
  ViewController are not part of this model.
