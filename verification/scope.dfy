/**
 * The stateful part of the permission dialog controller: the configured
 * permission list and its messages, the persisted asked-before flags, the
 * Bluetooth/motion trigger state machine, the aggregation pass over the
 * configuration, and the decisions taken by show, detectAndCallback, cancel
 * and the return from the notification prompt. UIKit is not modelled; the
 * native platform is a Platform value passed to each operation.
 */
module Scope {
  import opened Wrappers
  import opened PermissionKinds
  import opened Permissions
  import opened Status
  import opened Requests
  import opened Aggregation

  /** Misuse of the configuration API (assertions in the source). */
  datatype ConfigError = EmptyMessage | TooManyPermissions | AlreadyConfigured(kind: PermissionType)

  /** What show does once its dispatched block runs. */
  datatype ShowOutcome =
    | NothingConfigured                                   // the non-empty assertion fails
    | SpinsWaiting                                        // the busy wait on the waiting flags
    | ReportedAllAuthorized(results: seq<PermissionResult>) // onAuthChange(true, results), no dialog
    | AuthorizedNoCallback                                // everything authorized but no onAuthChange set
    | PresentDialog                                       // showAlert

  /**
   * How many aggregation passes show runs before that outcome: none when it
   * stops early, the requiredAuthorized pass, and one more for the results
   * when everything is authorized.
   */
  function ShowPasses(o: ShowOutcome): nat
  {
    match o
    case NothingConfigured | SpinsWaiting => 0
    case PresentDialog => 1
    case _ => 2
  }

  /** The onAuthChange call of detectAndCallback. */
  datatype AuthReport = AuthReport(allAuthorized: bool, results: seq<PermissionResult>)

  /** What detectAndCallback does: possibly report to onAuthChange, possibly hide the dialog. */
  datatype DetectOutcome = DetectOutcome(report: Option<AuthReport>, hideDialog: bool)

  /** The results of each configured kind, in configuration order. */
  function ResultsFor(kinds: seq<PermissionType>, p: Platform, d: Defaults, motion: PermissionStatus): (r: seq<PermissionResult>)
    ensures |r| == |kinds|
  {
    seq(|kinds|, i requires 0 <= i < |kinds| => PermissionResult(kinds[i], Normalised(kinds[i], p, d, motion)))
  }

  /** The location kinds assert that the app declares their usage description. */
  function MissingKey(kind: PermissionType, p: Platform): (missing: bool)
    ensures missing ==> kind == LocationAlways || kind == LocationInUse
  {
    (kind == LocationAlways && !p.hasLocationAlwaysKey) || (kind == LocationInUse && !p.hasLocationWhenInUseKey)
  }

  /** A pass over `kinds` re-triggers the Bluetooth update: Bluetooth is configured and asked before, and the state is unknown. */
  predicate PassTriggersBluetooth(kinds: seq<PermissionType>, d: Defaults, p: Platform)
  {
    Bluetooth in kinds && d.requestedBluetooth && p.bluetoothState == StateUnknown
  }

  /** A pass over `kinds` re-issues the motion query: motion is configured and asked before. */
  predicate PassTriggersMotion(kinds: seq<PermissionType>, d: Defaults)
  {
    Motion in kinds && d.requestedMotion
  }

  /** The Bluetooth/motion trigger bookkeeping of the controller, as one value. */
  datatype TriggerState = TriggerState(
    waitingForBluetooth: bool,
    waitingForMotion: bool,
    pendingMotionQueries: seq<PermissionStatus>)

  /**
   * The trigger bookkeeping after one more aggregation pass over `kinds`: the
   * status read of Bluetooth and of motion re-triggers their update when asked
   * before, and each motion re-trigger issues a query capturing `motion`.
   */
  function OnePass(t: TriggerState, kinds: seq<PermissionType>, d: Defaults, p: Platform, motion: PermissionStatus): TriggerState
  {
    TriggerState(
      t.waitingForBluetooth || PassTriggersBluetooth(kinds, d, p),
      t.waitingForMotion || PassTriggersMotion(kinds, d),
      t.pendingMotionQueries + (if PassTriggersMotion(kinds, d) then [motion] else []))
  }

  /** The trigger bookkeeping after `passes` consecutive passes. */
  function AfterPasses(t: TriggerState, kinds: seq<PermissionType>, d: Defaults, p: Platform, motion: PermissionStatus, passes: nat): TriggerState
  {
    if passes == 0 then t else OnePass(AfterPasses(t, kinds, d, p, motion, passes - 1), kinds, d, p, motion)
  }

  /**
   * What passes do to the bookkeeping: a waiting flag is set iff it was set or
   * some pass re-triggered its kind, and every pass appends one motion query
   * when motion re-triggers, none otherwise.
   */
  lemma {:induction false} AfterPassesEffect(t: TriggerState, kinds: seq<PermissionType>, d: Defaults, p: Platform, motion: PermissionStatus, passes: nat)
    ensures AfterPasses(t, kinds, d, p, motion, passes).waitingForBluetooth ==
      (t.waitingForBluetooth || (passes > 0 && PassTriggersBluetooth(kinds, d, p)))
    ensures AfterPasses(t, kinds, d, p, motion, passes).waitingForMotion ==
      (t.waitingForMotion || (passes > 0 && PassTriggersMotion(kinds, d)))
    ensures AfterPasses(t, kinds, d, p, motion, passes).pendingMotionQueries ==
      t.pendingMotionQueries + seq(if PassTriggersMotion(kinds, d) then passes else 0, _ => motion)
  {
    if passes > 0 {
      AfterPassesEffect(t, kinds, d, p, motion, passes - 1);
      if PassTriggersMotion(kinds, d) {
        assert seq(passes - 1, _ => motion) + [motion] == seq(passes, _ => motion);
      }
    }
  }

  /** Passes run one after the other add up. */
  lemma {:induction false} AfterPassesAdd(t: TriggerState, kinds: seq<PermissionType>, d: Defaults, p: Platform, motion: PermissionStatus, a: nat, b: nat)
    ensures AfterPasses(AfterPasses(t, kinds, d, p, motion, a), kinds, d, p, motion, b) == AfterPasses(t, kinds, d, p, motion, a + b)
    decreases b
  {
    if b > 0 {
      AfterPassesAdd(t, kinds, d, p, motion, a, b - 1);
    }
  }

  /**
   * A location-always request that prompts from when-in-use leaves the upgrade
   * flag set, and with that flag the same platform state gives the denied alert:
   * a second request never prompts again.
   */
  lemma UpgradeRequestRemembered(p: Platform, before: Defaults, after: Defaults, motion: PermissionStatus, motion': PermissionStatus)
    requires RequestDecision(LocationAlways, Normalised(LocationAlways, p, before, motion)) == Prompt(LocationAlways)
    requires p.location == AuthorizedWhenInUse && after.requestedInUseToAlwaysUpgrade
    ensures RequestDecision(LocationAlways, Normalised(LocationAlways, p, after, motion')) == DeniedAlert(LocationAlways)
  {
  }

  class PermissionScope {
    /** The permissions shown in the dialog, in the order they were added. */
    var configuredPermissions: seq<Permission>
    /** The body text for each configured kind. */
    var permissionMessages: map<PermissionType, string>
    /** The persisted user-defaults flags. */
    var defaults: Defaults
    /** The cached motion status, updated only by motion-activity query callbacks. */
    var motionPermissionStatus: PermissionStatus
    /** A Bluetooth activation is in flight, awaiting the manager's state callback. */
    var waitingForBluetooth: bool
    /** A motion query was issued and its result has not changed the cached status yet. */
    var waitingForMotion: bool
    /** The motion queries in flight, each with the cached status captured when it was issued. */
    var pendingMotionQueries: seq<PermissionStatus>
    /** Whether onAuthChange / onCancel closures are set. */
    var hasOnAuthChange: bool
    var hasOnCancel: bool

    /** The object invariant: a valid configuration and consistent trigger state. */
    ghost predicate Valid()
      reads this
    {
      ConfigValid() && TriggersValid()
    }

    /** At most three permissions of pairwise distinct kinds, each with a non-empty message. */
    ghost predicate ConfigValid()
      reads this`configuredPermissions, this`permissionMessages
    {
      && |configuredPermissions| <= MaxPermissions
      && Distinct(TypesOf(configuredPermissions))
      && permissionMessages.Keys == (set t | t in TypesOf(configuredPermissions))
      && (forall t :: t in permissionMessages ==> permissionMessages[t] != "")
    }

    /**
     * The motion cache never holds disabled, and an awaited activation or a
     * query in flight implies that its kind is marked as asked.
     */
    ghost predicate TriggersValid()
      reads this`defaults, this`motionPermissionStatus, this`waitingForBluetooth, this`waitingForMotion,
        this`pendingMotionQueries
    {
      && motionPermissionStatus != Disabled
      && (waitingForBluetooth ==> defaults.requestedBluetooth)
      && (waitingForMotion ==> defaults.requestedMotion)
      && (pendingMotionQueries != [] ==> defaults.requestedMotion)
    }

    /** The trigger bookkeeping fields as one value. */
    function Triggers(): TriggerState
      reads this`waitingForBluetooth, this`waitingForMotion, this`pendingMotionQueries
    {
      TriggerState(waitingForBluetooth, waitingForMotion, pendingMotionQueries)
    }

    /** The status reported for a kind now. */
    function CurrentStatus(kind: PermissionType, p: Platform): PermissionStatus
      reads this`defaults, this`motionPermissionStatus
    {
      Normalised(kind, p, defaults, motionPermissionStatus)
    }

    /** The results of the configured kinds now, in configuration order. */
    function Snapshot(p: Platform): seq<PermissionResult>
      reads this`configuredPermissions, this`defaults, this`motionPermissionStatus
    {
      ResultsFor(TypesOf(configuredPermissions), p, defaults, motionPermissionStatus)
    }

    /**
     * A fresh dialog controller over the persisted flags `stored`. Its
     * initialiser reads the motion status, which re-triggers the motion
     * query when motion was asked for before.
     */
    constructor (stored: Defaults)
      ensures Valid()
      ensures configuredPermissions == [] && permissionMessages == map[]
      ensures defaults == stored && motionPermissionStatus == Unknown
      ensures !waitingForBluetooth && waitingForMotion == stored.requestedMotion
      ensures pendingMotionQueries == if stored.requestedMotion then [Unknown] else []
      ensures !hasOnAuthChange && !hasOnCancel
    {
      configuredPermissions := [];
      permissionMessages := map[];
      defaults := stored;
      motionPermissionStatus := Unknown;
      waitingForBluetooth := false;
      waitingForMotion := false;
      pendingMotionQueries := [];
      hasOnAuthChange := false;
      hasOnCancel := false;
      new;
      if defaults.requestedMotion {
        TriggerMotionStatusUpdate();
      }
    }

    /**
     * Adds a permission with its message. Refused (nothing changes) for an
     * empty message, when three are already configured, or when its kind is
     * already configured; otherwise appended at the end with its message, and
     * a Bluetooth or motion kind asked for before re-triggers its status update.
     */
    method AddPermission(permission: Permission, message: string, p: Platform) returns (r: Outcome<ConfigError>)
      requires Valid()
      modifies this`configuredPermissions, this`permissionMessages,
        this`defaults, this`waitingForBluetooth, this`waitingForMotion, this`pendingMotionQueries
      ensures Valid()
      ensures r == Fail(EmptyMessage) <==> message == ""
      ensures r == Fail(TooManyPermissions) <==> message != "" && |old(configuredPermissions)| >= MaxPermissions
      ensures r == Fail(AlreadyConfigured(permission.Type())) <==>
        message != "" && |old(configuredPermissions)| < MaxPermissions &&
        permission.Type() in old(TypesOf(configuredPermissions))
      ensures r.Pass? <==>
        message != "" && |old(configuredPermissions)| < MaxPermissions &&
        permission.Type() !in old(TypesOf(configuredPermissions))
      ensures r.Fail? ==> unchanged(this)
      ensures r.Pass? ==> configuredPermissions == old(configuredPermissions) + [permission]
      ensures r.Pass? ==> permissionMessages == old(permissionMessages)[permission.Type() := message]
      ensures defaults == old(defaults)
      ensures motionPermissionStatus == old(motionPermissionStatus)
      ensures waitingForBluetooth == (old(waitingForBluetooth) ||
        (r.Pass? && permission == BluetoothPermission && old(defaults.requestedBluetooth) && p.bluetoothState == StateUnknown))
      ensures pendingMotionQueries == old(pendingMotionQueries) +
        (if r.Pass? && permission == MotionPermission && old(defaults.requestedMotion) then [motionPermissionStatus] else [])
      ensures waitingForMotion == (old(waitingForMotion) ||
        (r.Pass? && permission == MotionPermission && old(defaults.requestedMotion)))
      ensures hasOnAuthChange == old(hasOnAuthChange) && hasOnCancel == old(hasOnCancel)
    {
      if message == "" {
        return Fail(EmptyMessage);
      }
      if |configuredPermissions| >= MaxPermissions {
        return Fail(TooManyPermissions);
      }
      if permission.Type() in TypesOf(configuredPermissions) {
        return Fail(AlreadyConfigured(permission.Type()));
      }
      Append(permission, message);
      RetriggerAdded(permission, p);
      r := Pass;
    }

    /**
     * After an add: a Bluetooth or motion permission asked for before
     * re-triggers its status update. The asked-before flags are already set,
     * so they stay as they are.
     */
    method RetriggerAdded(permission: Permission, p: Platform)
      requires TriggersValid()
      modifies this`defaults, this`waitingForBluetooth, this`waitingForMotion, this`pendingMotionQueries
      ensures TriggersValid()
      ensures defaults == old(defaults)
      ensures waitingForBluetooth == (old(waitingForBluetooth) ||
        (permission == BluetoothPermission && defaults.requestedBluetooth && p.bluetoothState == StateUnknown))
      ensures waitingForMotion == (old(waitingForMotion) || (permission == MotionPermission && defaults.requestedMotion))
      ensures pendingMotionQueries == old(pendingMotionQueries) +
        (if permission == MotionPermission && defaults.requestedMotion then [motionPermissionStatus] else [])
    {
      if permission.Type() == Bluetooth && defaults.requestedBluetooth {
        var _ := TriggerBluetoothStatusUpdate(p);
      } else if permission.Type() == Motion && defaults.requestedMotion {
        TriggerMotionStatusUpdate();
      }
    }

    /** Appends a permission of a new kind with its message, keeping the configuration valid. */
    method Append(permission: Permission, message: string)
      requires ConfigValid()
      requires message != "" && |configuredPermissions| < MaxPermissions
      requires permission.Type() !in TypesOf(configuredPermissions)
      modifies this`configuredPermissions, this`permissionMessages
      ensures ConfigValid()
      ensures configuredPermissions == old(configuredPermissions) + [permission]
      ensures permissionMessages == old(permissionMessages)[permission.Type() := message]
    {
      assert TypesOf(configuredPermissions + [permission]) == TypesOf(configuredPermissions) + [permission.Type()];
      configuredPermissions := configuredPermissions + [permission];
      permissionMessages := permissionMessages[permission.Type() := message];
    }

    /**
     * Starts and stops advertising to make the Bluetooth manager report its
     * state, but only when no activation is in flight and the state is still
     * unknown; activating marks Bluetooth as asked and as awaited.
     */
    method TriggerBluetoothStatusUpdate(p: Platform) returns (activated: bool)
      requires TriggersValid()
      modifies this`defaults, this`waitingForBluetooth
      ensures TriggersValid()
      ensures activated <==> !old(waitingForBluetooth) && p.bluetoothState == StateUnknown
      ensures activated ==> defaults.requestedBluetooth && waitingForBluetooth
      ensures defaults == old(defaults).(requestedBluetooth := old(defaults.requestedBluetooth) || activated)
      ensures waitingForBluetooth == (old(waitingForBluetooth) ||
        activated)
    {
      activated := !waitingForBluetooth && p.bluetoothState == StateUnknown;
      if activated {
        defaults := defaults.(requestedBluetooth := true);
        waitingForBluetooth := true;
      }
    }

    /**
     * The Bluetooth manager reported its state: the activation is no longer
     * awaited, and a re-check (detectAndCallback) is always scheduled.
     */
    method PeripheralManagerDidUpdateState() returns (recheck: bool)
      requires TriggersValid()
      modifies this`waitingForBluetooth
      ensures TriggersValid()
      ensures !waitingForBluetooth
      ensures recheck
    {
      waitingForBluetooth := false;
      recheck := true;
    }

    /**
     * Issues a motion-activity query over an empty interval, capturing the
     * cached status; the query is asked-for from now on and awaited.
     */
    method TriggerMotionStatusUpdate()
      requires TriggersValid()
      modifies this`defaults, this`waitingForMotion, this`pendingMotionQueries
      ensures TriggersValid()
      ensures defaults == old(defaults).(requestedMotion := true)
      ensures waitingForMotion
      ensures pendingMotionQueries == old(pendingMotionQueries) + [motionPermissionStatus]
    {
      defaults := defaults.(requestedMotion := true);
      pendingMotionQueries := pendingMotionQueries + [motionPermissionStatus];
      waitingForMotion := true;
    }

    /**
     * The callback of pending motion query `i`: the cached status becomes
     * unauthorized on a not-authorized error and authorized otherwise. Only
     * when that differs from the status captured at trigger time is the wait
     * cleared and a re-check scheduled (`recheck`); a query whose answer
     * matches the captured status leaves waitingForMotion as it was.
     */
    method MotionQueryReturned(i: nat, notAuthorizedError: bool) returns (recheck: bool)
      requires TriggersValid()
      requires i < |pendingMotionQueries|
      modifies this`motionPermissionStatus, this`waitingForMotion, this`pendingMotionQueries
      ensures TriggersValid()
      ensures motionPermissionStatus == MotionQueryStatus(notAuthorizedError)
      ensures recheck <==> old(pendingMotionQueries[i]) != motionPermissionStatus
      ensures waitingForMotion == (old(waitingForMotion) && !recheck)
      ensures pendingMotionQueries == old(pendingMotionQueries[..i] + pendingMotionQueries[i + 1..])
    {
      var captured := pendingMotionQueries[i];
      pendingMotionQueries := pendingMotionQueries[..i] + pendingMotionQueries[i + 1..];
      motionPermissionStatus := MotionQueryStatus(notAuthorizedError);
      recheck := captured != motionPermissionStatus;
      if recheck {
        waitingForMotion := false;
      }
    }

    /**
     * The status of one kind. Bluetooth re-triggers its status update when it
     * was asked for before; motion re-issues its query when asked for before
     * and reports the cached status. Neither side effect changes what any kind
     * reports, so the status is that of the state before the call.
     */
    method StatusForPermission(kind: PermissionType, p: Platform) returns (s: PermissionStatus)
      requires TriggersValid()
      modifies this`defaults, this`waitingForBluetooth, this`waitingForMotion, this`pendingMotionQueries
      ensures TriggersValid()
      ensures s == old(CurrentStatus(kind, p))
      ensures defaults == old(defaults)
      ensures waitingForBluetooth == (old(waitingForBluetooth) ||
        (kind == Bluetooth && defaults.requestedBluetooth && p.bluetoothState == StateUnknown))
      ensures waitingForMotion == (old(waitingForMotion) ||
        (kind == Motion && defaults.requestedMotion))
      ensures pendingMotionQueries == old(pendingMotionQueries) +
        (if kind == Motion && defaults.requestedMotion then [motionPermissionStatus] else [])
    {
      if kind == Bluetooth {
        if defaults.requestedBluetooth {
          var _ := TriggerBluetoothStatusUpdate(p);
        }
        s := StatusBluetooth(defaults.requestedBluetooth, p.bluetoothState, p.bluetooth);
      } else if kind == Motion {
        if defaults.requestedMotion {
          TriggerMotionStatusUpdate();
        }
        s := motionPermissionStatus;
      } else {
        s := Normalised(kind, p, defaults, motionPermissionStatus);
      }
    }

    /**
     * One aggregation pass: queries every configured kind in order and
     * collects the answers in a buffer local to this call. Every query answers
     * synchronously except notifications, whose answer arrives after the loop,
     * so the single completion carries the configuration's results in arrival
     * order; with nothing configured it never fires.
     */
    method GetResultsForConfig(p: Platform) returns (completions: seq<seq<PermissionResult>>)
      requires Valid()
      modifies this`defaults, this`waitingForBluetooth, this`waitingForMotion, this`pendingMotionQueries
      ensures Valid()
      ensures Snapshot(p) == old(Snapshot(p))
      ensures completions == if configuredPermissions == [] then [] else [ArrivalOrder(Snapshot(p))]
      ensures defaults == old(defaults)
      ensures Triggers() ==
        AfterPasses(old(Triggers()), TypesOf(configuredPermissions), defaults, p, motionPermissionStatus, 1)
    {
      var arrivals := QueryConfigured(p);
      completions := CollectResults(|configuredPermissions|, arrivals);
      if configuredPermissions != [] {
        assert arrivals[..|configuredPermissions|] == arrivals;
      }
    }

    /** The query loop of one pass over the configured kinds, with its effect on the object. */
    method QueryConfigured(p: Platform) returns (arrivals: seq<PermissionResult>)
      requires Valid()
      modifies this`defaults, this`waitingForBluetooth, this`waitingForMotion, this`pendingMotionQueries
      ensures Valid()
      ensures Snapshot(p) == old(Snapshot(p))
      ensures arrivals == ArrivalOrder(Snapshot(p)) && |arrivals| == |configuredPermissions|
      ensures defaults == old(defaults)
      ensures Triggers() ==
        AfterPasses(old(Triggers()), TypesOf(configuredPermissions), defaults, p, motionPermissionStatus, 1)
    {
      arrivals := QueryAll(TypesOf(configuredPermissions), p);
    }

    /**
     * The query loop of an aggregation pass over `kinds`: the answers in the
     * order their callbacks run, which is every synchronous answer in order
     * followed by the notifications answer.
     */
    method QueryAll(kinds: seq<PermissionType>, p: Platform) returns (arrivals: seq<PermissionResult>)
      requires TriggersValid() && Distinct(kinds)
      modifies this`defaults, this`waitingForBluetooth, this`waitingForMotion, this`pendingMotionQueries
      ensures TriggersValid()
      ensures arrivals == ArrivalOrder(ResultsFor(kinds, p, defaults, motionPermissionStatus))
      ensures |arrivals| == |kinds|
      ensures defaults == old(defaults)
      ensures Triggers() == OnePass(old(Triggers()), kinds, defaults, p, motionPermissionStatus)
    {
      ghost var snapshot := ResultsFor(kinds, p, defaults, motionPermissionStatus);
      var synchronous: seq<PermissionResult> := [];
      var deferred: seq<PermissionResult> := [];
      var i := 0;
      while i < |kinds|
        invariant 0 <= i <= |kinds|
        invariant TriggersValid()
        invariant defaults == old(defaults)
        invariant synchronous == Synchronous(snapshot[..i])
        invariant deferred == Deferred(snapshot[..i])
        invariant waitingForBluetooth == (old(waitingForBluetooth) || PassTriggersBluetooth(kinds[..i], defaults, p))
        invariant waitingForMotion == (old(waitingForMotion) || PassTriggersMotion(kinds[..i], defaults))
        invariant pendingMotionQueries == old(pendingMotionQueries) +
          (if PassTriggersMotion(kinds[..i], defaults) then [motionPermissionStatus] else [])
      {
        var kind := kinds[i];
        var status := StatusForPermission(kind, p);
        assert PermissionResult(kind, status) == snapshot[i];
        SplitStep(snapshot, i);
        assert kinds[..i + 1] == kinds[..i] + [kind];
        assert kind == Motion ==> Motion !in kinds[..i];
        if kind == Notifications {
          deferred := deferred + [PermissionResult(kind, status)];
        } else {
          synchronous := synchronous + [PermissionResult(kind, status)];
        }
        i := i + 1;
      }
      assert snapshot[..i] == snapshot;
      assert kinds[..i] == kinds;
      ArrivalOrderProperties(snapshot);
      arrivals := synchronous + deferred;
    }

    /**
     * A tap on a kind's button (the request* action of that kind). The
     * location kinds first assert that their usage description is declared.
     * The decision is taken on the status before the call. Requesting
     * location-always from when-in-use records the upgrade request; a
     * Bluetooth or motion trigger decision runs that trigger.
     */
    method Request(kind: PermissionType, p: Platform) returns (o: RequestOutcome)
      requires Valid()
      modifies this`defaults, this`waitingForBluetooth, this`waitingForMotion, this`pendingMotionQueries
      ensures Valid()
      ensures o.MissingUsageKey? <==> MissingKey(kind, p)
      ensures o.MissingUsageKey? ==> o.kind == kind && unchanged(this)
      ensures !MissingKey(kind, p) ==> o == RequestDecision(kind, old(CurrentStatus(kind, p)))
      ensures old(defaults).KeptIn(defaults)
      ensures defaults.requestedInUseToAlwaysUpgrade ==
        (old(defaults.requestedInUseToAlwaysUpgrade) || (o == Prompt(LocationAlways) && p.location == AuthorizedWhenInUse))
      ensures defaults.requestedNotifications == old(defaults.requestedNotifications)
      ensures kind != Bluetooth ==>
        defaults.requestedBluetooth == old(defaults.requestedBluetooth) && waitingForBluetooth == old(waitingForBluetooth)
      ensures kind == Bluetooth ==>
        && defaults.requestedBluetooth == (old(defaults.requestedBluetooth) || (o.Trigger? && p.bluetoothState == StateUnknown))
        && waitingForBluetooth == (old(waitingForBluetooth) ||
             (p.bluetoothState == StateUnknown && (old(defaults.requestedBluetooth) || o.Trigger?)))
      ensures kind != Motion ==>
        && defaults.requestedMotion == old(defaults.requestedMotion)
        && waitingForMotion == old(waitingForMotion)
        && pendingMotionQueries == old(pendingMotionQueries)
      ensures kind == Motion ==>
        && defaults.requestedMotion == (old(defaults.requestedMotion) || o.Trigger?)
        && waitingForMotion == (old(waitingForMotion) || old(defaults.requestedMotion) || o.Trigger?)
        && pendingMotionQueries == old(pendingMotionQueries) +
             (if old(defaults.requestedMotion) then [motionPermissionStatus] else []) +
             (if o.Trigger? then [motionPermissionStatus] else [])
    {
      if MissingKey(kind, p) {
        return MissingUsageKey(kind);
      }
      var status := StatusForPermission(kind, p);
      o := RequestDecision(kind, status);
      ApplyDecision(o, p);
    }

    /**
     * Two taps on the location-always button with the platform unchanged in
     * between: when the first prompts from when-in-use, the second shows the
     * denied alert.
     */
    method RequestLocationAlwaysTwice(p: Platform) returns (first: RequestOutcome, second: RequestOutcome)
      requires Valid()
      modifies this`defaults, this`waitingForBluetooth, this`waitingForMotion, this`pendingMotionQueries
      ensures Valid()
      ensures first == Prompt(LocationAlways) && p.location == AuthorizedWhenInUse ==> second == DeniedAlert(LocationAlways)
    {
      ghost var before, motion := defaults, motionPermissionStatus;
      first := Request(LocationAlways, p);
      ghost var between, motion' := defaults, motionPermissionStatus;
      second := Request(LocationAlways, p);
      if first == Prompt(LocationAlways) && p.location == AuthorizedWhenInUse {
        UpgradeRequestRemembered(p, before, between, motion, motion');
      }
    }

    /**
     * The side effects of a request decision: prompting location-always from
     * when-in-use records the upgrade request, and a Bluetooth or motion
     * trigger decision runs that trigger.
     */
    method ApplyDecision(o: RequestOutcome, p: Platform)
      requires TriggersValid()
      modifies this`defaults, this`waitingForBluetooth, this`waitingForMotion, this`pendingMotionQueries
      ensures TriggersValid()
      ensures defaults == old(defaults).(
        requestedInUseToAlwaysUpgrade := old(defaults.requestedInUseToAlwaysUpgrade) ||
          (o == Prompt(LocationAlways) && p.location == AuthorizedWhenInUse),
        requestedBluetooth := old(defaults.requestedBluetooth) ||
          (o == Trigger(Bluetooth) && !old(waitingForBluetooth) && p.bluetoothState == StateUnknown),
        requestedMotion := old(defaults.requestedMotion) || o == Trigger(Motion))
      ensures waitingForBluetooth == (old(waitingForBluetooth) || (o == Trigger(Bluetooth) && p.bluetoothState == StateUnknown))
      ensures waitingForMotion == (old(waitingForMotion) || o == Trigger(Motion))
      ensures pendingMotionQueries == old(pendingMotionQueries) + (if o == Trigger(Motion) then [motionPermissionStatus] else [])
    {
      if o == Prompt(LocationAlways) && p.location == AuthorizedWhenInUse {
        defaults := defaults.(requestedInUseToAlwaysUpgrade := true);
      } else if o == Trigger(Bluetooth) {
        var _ := TriggerBluetoothStatusUpdate(p);
      } else if o == Trigger(Motion) {
        TriggerMotionStatusUpdate();
      }
    }

    /**
     * The return to the foreground after the notification prompt: the
     * requested-notifications flag is set, then one aggregation pass decides
     * the follow-up. With the flag set the notifications status is authorized
     * or unauthorized, never unknown, so the denied-alert branch is never taken.
     */
    method FinishedShowingNotificationPermission(p: Platform) returns (f: FollowUp)
      requires Valid()
      modifies this`defaults, this`waitingForBluetooth, this`waitingForMotion, this`pendingMotionQueries
      ensures Valid()
      ensures defaults == old(defaults).(requestedNotifications := true)
      ensures f == if configuredPermissions == [] then FollowUpNone else NotificationFollowUp(ArrivalOrder(Snapshot(p)))
      ensures f != FollowUpDeniedAlert
      ensures Triggers() ==
        AfterPasses(old(Triggers()), TypesOf(configuredPermissions), defaults, p, motionPermissionStatus, 1)
    {
      defaults := defaults.(requestedNotifications := true);
      ghost var snapshot := Snapshot(p);
      var completions := GetResultsForConfig(p);
      f := if completions == [] then FollowUpNone else NotificationFollowUp(completions[0]);
      if completions != [] {
        NotificationsNeverUnknown(snapshot, p);
      }
    }

    /** With the flag set, no notifications result of a pass is unknown. */
    lemma NotificationsNeverUnknown(snapshot: seq<PermissionResult>, p: Platform)
      requires defaults.requestedNotifications
      requires snapshot == Snapshot(p)
      ensures forall i :: 0 <= i < |ArrivalOrder(snapshot)| && ArrivalOrder(snapshot)[i].kind == Notifications ==>
                ArrivalOrder(snapshot)[i].status != Unknown
      ensures NotificationFollowUp(ArrivalOrder(snapshot)) != FollowUpDeniedAlert
    {
      var arrivals := ArrivalOrder(snapshot);
      ArrivalOrderProperties(snapshot);
      forall i | 0 <= i < |arrivals| && arrivals[i].kind == Notifications
        ensures arrivals[i].status != Unknown
      {
        assert arrivals[i] in multiset(snapshot);
        var j :| 0 <= j < |snapshot| && snapshot[j] == arrivals[i];
      }
      FollowUpNeverAlerts(arrivals);
    }

    /**
     * Presents the dialog. An empty configuration fails the assertion and
     * nothing happens. Otherwise the closures are stored and, on the main
     * queue, the busy wait spins while a Bluetooth or motion trigger is awaited;
     * after it, if every configured kind is authorized the dialog is skipped and
     * onAuthChange(true, results) is called instead, else the dialog is shown.
     */
    method Show(authChange: bool, cancelled: bool, p: Platform) returns (o: ShowOutcome)
      requires Valid()
      modifies this`hasOnAuthChange, this`hasOnCancel,
        this`defaults, this`waitingForBluetooth, this`waitingForMotion, this`pendingMotionQueries
      ensures Valid()
      ensures o == NothingConfigured <==> old(configuredPermissions) == []
      ensures o == NothingConfigured ==> unchanged(this)
      ensures o != NothingConfigured ==> hasOnAuthChange == authChange && hasOnCancel == cancelled
      ensures o == SpinsWaiting <==>
        old(configuredPermissions) != [] && (old(waitingForBluetooth) || old(waitingForMotion))
      ensures o == PresentDialog <==>
        old(configuredPermissions) != [] && !old(waitingForBluetooth) && !old(waitingForMotion) &&
        !AllAuthorized(old(Snapshot(p)))
      ensures o.ReportedAllAuthorized? <==>
        old(configuredPermissions) != [] && !old(waitingForBluetooth) && !old(waitingForMotion) &&
        AllAuthorized(old(Snapshot(p))) && authChange
      ensures o.ReportedAllAuthorized? ==> o.results == ArrivalOrder(old(Snapshot(p)))
      ensures defaults == old(defaults)
      ensures Triggers() ==
        AfterPasses(old(Triggers()), TypesOf(configuredPermissions), defaults, p, motionPermissionStatus, ShowPasses(o))
    {
      if configuredPermissions == [] {
        return NothingConfigured;
      }
      hasOnAuthChange, hasOnCancel := authChange, cancelled;
      if waitingForBluetooth || waitingForMotion {
        return SpinsWaiting;
      }
      o := ShowAfterWait(authChange, p);
    }

    /**
     * The part of show after the busy wait: the requiredAuthorized pass, then
     * either a second pass for onAuthChange(true, results) or the dialog.
     */
    method ShowAfterWait(authChange: bool, p: Platform) returns (o: ShowOutcome)
      requires Valid() && configuredPermissions != []
      modifies this`defaults, this`waitingForBluetooth, this`waitingForMotion, this`pendingMotionQueries
      ensures Valid()
      ensures Snapshot(p) == old(Snapshot(p))
      ensures o == PresentDialog <==> !AllAuthorized(Snapshot(p))
      ensures o.ReportedAllAuthorized? <==> AllAuthorized(Snapshot(p)) && authChange
      ensures o == AuthorizedNoCallback <==> AllAuthorized(Snapshot(p)) && !authChange
      ensures o.ReportedAllAuthorized? ==> o.results == ArrivalOrder(Snapshot(p))
      ensures defaults == old(defaults)
      ensures Triggers() ==
        AfterPasses(old(Triggers()), TypesOf(configuredPermissions), defaults, p, motionPermissionStatus, ShowPasses(o))
    {
      ghost var t, kinds, d, motion := Triggers(), TypesOf(configuredPermissions), defaults, motionPermissionStatus;
      ghost var snapshot := Snapshot(p);
      var everyAuthorized := AllAuthorizedCheck(p);
      assert everyAuthorized == Some(AllAuthorized(snapshot));
      if everyAuthorized == Some(true) {
        var results := GetResultsForConfig(p);
        assert results == [ArrivalOrder(snapshot)];
        AfterPassesAdd(t, kinds, d, p, motion, 1, 1);
        o := if authChange then ReportedAllAuthorized(results[0]) else AuthorizedNoCallback;
      } else {
        o := PresentDialog;
      }
    }

    /**
     * Re-checks every configured kind (scheduled after any native answer):
     * reports to onAuthChange, when set, whether all are authorized together
     * with the results, and hides the dialog when all are authorized. With
     * nothing configured no pass completes, so nothing happens.
     */
    method DetectAndCallback(p: Platform) returns (o: DetectOutcome)
      requires Valid()
      modifies this`defaults, this`waitingForBluetooth, this`waitingForMotion, this`pendingMotionQueries
      ensures Valid()
      ensures o.report.Some? <==> hasOnAuthChange && configuredPermissions != []
      ensures o.report.Some? ==>
        o.report.value == AuthReport(AllAuthorized(old(Snapshot(p))), ArrivalOrder(old(Snapshot(p))))
      ensures o.hideDialog <==> configuredPermissions != [] && AllAuthorized(old(Snapshot(p)))
      ensures defaults == old(defaults)
      ensures Triggers() ==
        AfterPasses(old(Triggers()), TypesOf(configuredPermissions), defaults, p, motionPermissionStatus, (if hasOnAuthChange then 3 else 1))
    {
      ghost var t, kinds, d, motion := Triggers(), TypesOf(configuredPermissions), defaults, motionPermissionStatus;
      var report := ReportAuthChange(p);
      var authorized := AllAuthorizedCheck(p);
      o := DetectOutcome(report, authorized == Some(true));
      AfterPassesAdd(t, kinds, d, p, motion, if hasOnAuthChange then 2 else 0, 1);
    }

    /**
     * The onAuthChange part of detectAndCallback: one pass for the results,
     * a second pass (allAuthorized) for the verdict.
     */
    method ReportAuthChange(p: Platform) returns (report: Option<AuthReport>)
      requires Valid()
      modifies this`defaults, this`waitingForBluetooth, this`waitingForMotion, this`pendingMotionQueries
      ensures Valid()
      ensures Snapshot(p) == old(Snapshot(p))
      ensures report.Some? <==> hasOnAuthChange && configuredPermissions != []
      ensures report.Some? ==> report.value == AuthReport(AllAuthorized(Snapshot(p)), ArrivalOrder(Snapshot(p)))
      ensures defaults == old(defaults)
      ensures Triggers() ==
        AfterPasses(old(Triggers()), TypesOf(configuredPermissions), defaults, p, motionPermissionStatus, (if hasOnAuthChange then 2 else 0))
    {
      report := None;
      if hasOnAuthChange {
        if configuredPermissions != [] {
          var r := ReportPasses(p);
          report := Some(r);
        } else {
          // the results pass runs but never completes
          var _ := GetResultsForConfig(p);
        }
      }
    }

    /** The two passes of the onAuthChange report: the results, then the allAuthorized verdict. */
    method ReportPasses(p: Platform) returns (report: AuthReport)
      requires Valid() && configuredPermissions != []
      modifies this`defaults, this`waitingForBluetooth, this`waitingForMotion, this`pendingMotionQueries
      ensures Valid()
      ensures Snapshot(p) == old(Snapshot(p))
      ensures report == AuthReport(AllAuthorized(Snapshot(p)), ArrivalOrder(Snapshot(p)))
      ensures defaults == old(defaults)
      ensures Triggers() ==
        AfterPasses(old(Triggers()), TypesOf(configuredPermissions), defaults, p, motionPermissionStatus, 2)
    {
      ghost var t, kinds, d, motion := Triggers(), TypesOf(configuredPermissions), defaults, motionPermissionStatus;
      var results := GetResultsForConfig(p);
      var authorized := AllAuthorizedCheck(p);
      report := AuthReport(authorized.value, results[0]);
      AfterPassesAdd(t, kinds, d, p, motion, 1, 1);
    }

    /**
     * allAuthorized: one aggregation pass reduced to whether every result is
     * authorized. It answers only when the pass completes, that is when
     * something is configured; `None` is the completion that never runs.
     */
    method AllAuthorizedCheck(p: Platform) returns (authorized: Option<bool>)
      requires Valid()
      modifies this`defaults, this`waitingForBluetooth, this`waitingForMotion, this`pendingMotionQueries
      ensures Valid()
      ensures Snapshot(p) == old(Snapshot(p))
      ensures authorized.None? <==> configuredPermissions == []
      ensures authorized.Some? ==> authorized.value == AllAuthorized(Snapshot(p))
      ensures defaults == old(defaults)
      ensures Triggers() ==
        AfterPasses(old(Triggers()), TypesOf(configuredPermissions), defaults, p, motionPermissionStatus, 1)
    {
      ghost var snapshot := Snapshot(p);
      ArrivalOrderProperties(snapshot);
      AllAuthorizedIgnoresOrder(ArrivalOrder(snapshot), snapshot);
      var results := GetResultsForConfig(p);
      authorized := if results == [] then None else Some(AllAuthorized(results[0]));
    }

    /**
     * The close button: the dialog is hidden and, when onCancel is set, it
     * receives the results of one aggregation pass (none with nothing configured).
     */
    method Cancel(p: Platform) returns (cancelResults: Option<seq<PermissionResult>>)
      requires Valid()
      modifies this`defaults, this`waitingForBluetooth, this`waitingForMotion, this`pendingMotionQueries
      ensures Valid()
      ensures cancelResults.Some? <==> hasOnCancel && configuredPermissions != []
      ensures cancelResults.Some? ==> cancelResults.value == ArrivalOrder(old(Snapshot(p)))
      ensures defaults == old(defaults)
      ensures Triggers() ==
        AfterPasses(old(Triggers()), TypesOf(configuredPermissions), defaults, p, motionPermissionStatus, (if hasOnCancel then 1 else 0))
    {
      cancelResults := None;
      if hasOnCancel {
        var results := GetResultsForConfig(p);
        if results != [] {
          cancelResults := Some(results[0]);
        }
      }
    }
  }
}
