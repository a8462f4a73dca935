/**
 * The two enumerations every part of the engine speaks in: the kind of a
 * permission and its unified status, plus the (kind, status) result pair.
 * Their declaring file is not part of this model; the cases are those the
 * source switches over exhaustively.
 */
module PermissionKinds {

  /** The eleven permission kinds (the exhaustive switch in permissionStyledButton). */
  datatype PermissionType =
    | LocationAlways
    | LocationInUse
    | Contacts
    | Notifications
    | Microphone
    | Camera
    | Photos
    | Reminders
    | Events
    | Bluetooth
    | Motion

  /** The unified status every native status is normalised into. */
  datatype PermissionStatus = Unknown | Authorized | Unauthorized | Disabled

  /** One aggregated result: a kind together with the status found for it. */
  datatype PermissionResult = PermissionResult(kind: PermissionType, status: PermissionStatus)

  /** The product limit on how many permissions one dialog may ask for. */
  const MaxPermissions: nat := 3

  /** The kinds of a list of results, in the same order. */
  function KindsOf(results: seq<PermissionResult>): (kinds: seq<PermissionType>)
    ensures |kinds| == |results|
    ensures forall i :: 0 <= i < |results| ==> kinds[i] == results[i].kind
  {
    if results == [] then [] else [results[0].kind] + KindsOf(results[1..])
  }

  /** No kind occurs twice. */
  predicate Distinct(kinds: seq<PermissionType>)
  {
    forall i, j :: 0 <= i < j < |kinds| ==> kinds[i] != kinds[j]
  }
}
