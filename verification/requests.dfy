/**
 * The decision each request* action takes from the current status of its
 * kind: issue the native prompt, trigger a Bluetooth/motion status update,
 * show the denied or disabled alert, re-check everything, or do nothing.
 */
module Requests {
  import opened PermissionKinds
  import opened Wrappers

  /** What a request action does, as an abstract tag. */
  datatype RequestOutcome =
    | Prompt(kind: PermissionType)          // the native authorization prompt is issued
    | Trigger(kind: PermissionType)         // the Bluetooth or motion status trigger runs
    | DeniedAlert(kind: PermissionType)     // the "was denied" alert for that kind
    | DisabledAlert(kind: PermissionType)   // the "is currently disabled" alert for that kind
    | Recheck                               // detectAndCallback re-checks all configured kinds
    | NoAction
    | MissingUsageKey(kind: PermissionType) // the Info.plist usage description assertion fails

  /** Bluetooth and motion have no prompt of their own: a native manager is activated instead. */
  predicate TriggeredKind(kind: PermissionType)
  {
    kind == Bluetooth || kind == Motion
  }

  /** Contacts, reminders, events and motion have no disabled branch (`default: break`). */
  predicate IgnoresDisabled(kind: PermissionType)
  {
    kind == Contacts || kind == Reminders || kind == Events || kind == Motion
  }

  /**
   * The switch of each request* method. The prompt or trigger happens only
   * for an unknown status, an unauthorized one always leads to the denied
   * alert, and an authorized kind is left alone except notifications, which
   * re-checks. A disabled location-always status alerts for location-in-use.
   */
  function RequestDecision(kind: PermissionType, status: PermissionStatus): (o: RequestOutcome)
    ensures (o.Prompt? || o.Trigger?) <==> status == Unknown
    ensures status == Unknown ==> o == (if TriggeredKind(kind) then Trigger(kind) else Prompt(kind))
    ensures o.DeniedAlert? <==> status == Unauthorized
    ensures o.DeniedAlert? ==> o.kind == kind
    ensures status == Authorized ==> o == (if kind == Notifications then Recheck else NoAction)
    ensures o.DisabledAlert? <==> status == Disabled && !IgnoresDisabled(kind)
    ensures o.DisabledAlert? ==> o.kind == (if kind == LocationAlways then LocationInUse else kind)
    ensures o == Recheck <==> kind == Notifications && status == Authorized
    ensures o == NoAction <==>
      (status == Authorized && kind != Notifications) || (status == Disabled && IgnoresDisabled(kind))
    ensures !o.MissingUsageKey?
  {
    match kind
    case LocationAlways =>
      (match status
       case Unknown => Prompt(LocationAlways)
       case Unauthorized => DeniedAlert(LocationAlways)
       case Disabled => DisabledAlert(LocationInUse)
       case Authorized => NoAction)
    case LocationInUse =>
      (match status
       case Unknown => Prompt(LocationInUse)
       case Unauthorized => DeniedAlert(LocationInUse)
       case Disabled => DisabledAlert(LocationInUse)
       case Authorized => NoAction)
    case Notifications =>
      (match status
       case Unknown => Prompt(Notifications)
       case Unauthorized => DeniedAlert(Notifications)
       case Disabled => DisabledAlert(Notifications)
       case Authorized => Recheck)
    case Contacts | Reminders | Events =>
      (match status
       case Unknown => Prompt(kind)
       case Unauthorized => DeniedAlert(kind)
       case _ => NoAction)
    case Microphone | Camera | Photos =>
      (match status
       case Unknown => Prompt(kind)
       case Unauthorized => DeniedAlert(kind)
       case Disabled => DisabledAlert(kind)
       case Authorized => NoAction)
    case Bluetooth =>
      (match status
       case Disabled => DisabledAlert(Bluetooth)
       case Unauthorized => DeniedAlert(Bluetooth)
       case Unknown => Trigger(Bluetooth)
       case Authorized => NoAction)
    case Motion =>
      (match status
       case Unauthorized => DeniedAlert(Motion)
       case Unknown => Trigger(Motion)
       case _ => NoAction)
  }

  /** What follows the return from the notification prompt. */
  datatype FollowUp = FollowUpDeniedAlert | FollowUpRecheck | FollowUpNone

  /** The first result for the notifications kind, if any. */
  function FirstNotifications(results: seq<PermissionResult>): (r: Option<PermissionStatus>)
    ensures r.None? <==> forall i :: 0 <= i < |results| ==> results[i].kind != Notifications
    ensures r.Some? ==>
              exists i :: 0 <= i < |results| && results[i] == PermissionResult(Notifications, r.value) &&
                forall j :: 0 <= j < i ==> results[j].kind != Notifications
  {
    if results == [] then None
    else if results[0].kind == Notifications then Some(results[0].status)
    else
      var rest := FirstNotifications(results[1..]);
      assert forall i :: 1 <= i < |results| ==> results[i] == results[1..][i - 1];
      if rest.Some? then
        var k :| 0 <= k < |results[1..]| && results[1..][k] == PermissionResult(Notifications, rest.value) &&
          forall j :: 0 <= j < k ==> results[1..][j].kind != Notifications;
        assert results[k + 1] == PermissionResult(Notifications, rest.value);
        rest
      else
        rest
  }

  /**
   * After the app is active again following the notification prompt: an
   * unknown notifications result shows the denied alert, any other re-checks,
   * and a configuration without notifications does nothing.
   */
  function NotificationFollowUp(results: seq<PermissionResult>): (f: FollowUp)
    ensures f == FollowUpNone <==> forall i :: 0 <= i < |results| ==> results[i].kind != Notifications
    ensures f == FollowUpDeniedAlert <==> FirstNotifications(results) == Some(Unknown)
  {
    match FirstNotifications(results)
    case None => FollowUpNone
    case Some(s) => if s == Unknown then FollowUpDeniedAlert else FollowUpRecheck
  }

  /**
   * The follow-up runs only after the requested-notifications flag is set, and
   * with that flag the notifications status is never unknown: when every
   * notifications result was normalised with the flag set, the denied alert
   * branch of the follow-up cannot be taken.
   */
  lemma {:induction false} FollowUpNeverAlerts(results: seq<PermissionResult>)
    requires forall i :: 0 <= i < |results| && results[i].kind == Notifications ==> results[i].status != Unknown
    ensures NotificationFollowUp(results) != FollowUpDeniedAlert
  {
    match FirstNotifications(results)
    case None =>
    case Some(s) =>
      var i :| 0 <= i < |results| && results[i] == PermissionResult(Notifications, s);
  }
}
