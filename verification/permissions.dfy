/**
 * The permission configuration classes. Each class is stateless and fixes
 * one kind through an immutable `type` constant; the model represents a
 * configuration object by its class tag.
 */
module Permissions {
  import opened PermissionKinds

  /** The eleven classes conforming to the Permission protocol. */
  datatype Permission =
    | NotificationsPermission
    | LocationWhileInUsePermission
    | LocationAlwaysPermission
    | ContactsPermission
    | EventsPermission
    | MicrophonePermission
    | CameraPermission
    | PhotosPermission
    | RemindersPermission
    | BluetoothPermission
    | MotionPermission
  {
    /**
     * The protocol's only requirement: the read-only kind of the
     * configuration. Each class carries its own kind, so the class can be
     * recovered from it.
     */
    function Type(): (t: PermissionType)
      ensures PermissionFor(t) == this
    {
      match this
      case NotificationsPermission => Notifications
      case LocationWhileInUsePermission => LocationInUse
      case LocationAlwaysPermission => LocationAlways
      case ContactsPermission => Contacts
      case EventsPermission => Events
      case MicrophonePermission => Microphone
      case CameraPermission => Camera
      case PhotosPermission => Photos
      case RemindersPermission => Reminders
      case BluetoothPermission => Bluetooth
      case MotionPermission => Motion
    }
  }

  /** The one configuration class that carries a given kind. */
  function PermissionFor(t: PermissionType): Permission
  {
    match t
    case Notifications => NotificationsPermission
    case LocationInUse => LocationWhileInUsePermission
    case LocationAlways => LocationAlwaysPermission
    case Contacts => ContactsPermission
    case Events => EventsPermission
    case Microphone => MicrophonePermission
    case Camera => CameraPermission
    case Photos => PhotosPermission
    case Reminders => RemindersPermission
    case Bluetooth => BluetoothPermission
    case Motion => MotionPermission
  }

  /** Every kind is carried by some class: the class PermissionFor picks has that kind. */
  lemma KindRoundTrip(t: PermissionType)
    ensures PermissionFor(t).Type() == t
  {
  }

  /** Two configurations with the same kind are the same class. */
  lemma TypeInjective(p: Permission, q: Permission)
    ensures p.Type() == q.Type() <==> p == q
  {
    var _, _ := p.Type(), q.Type();
  }

  /** The kinds of a configuration list, in order. */
  function TypesOf(ps: seq<Permission>): (ts: seq<PermissionType>)
    ensures |ts| == |ps|
    ensures forall i :: 0 <= i < |ps| ==> ts[i] == ps[i].Type()
  {
    if ps == [] then [] else [ps[0].Type()] + TypesOf(ps[1..])
  }

  /** A list whose kinds are pairwise distinct holds each class at most once. */
  lemma DistinctTypesDistinctClasses(ps: seq<Permission>)
    requires Distinct(TypesOf(ps))
    ensures forall i, j :: 0 <= i < j < |ps| ==> ps[i] != ps[j]
  {
  }
}
