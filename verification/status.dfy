/**
 * Status normalisers: each maps a native platform status (and, for some
 * kinds, a persisted "asked before" flag) into the unified PermissionStatus.
 * The native enumerations are datatypes here and the native queries are
 * replaced by a Platform snapshot passed in by the caller.
 */
module Status {
  import opened PermissionKinds

  /** Location authorization as the location manager reports it. */
  datatype LocationAuthorization =
    NotDetermined | Restricted | Denied | AuthorizedAlways | AuthorizedWhenInUse

  /**
   * The four-case authorization status shared by the contacts store, the
   * capture device (camera), the photo library and the event store
   * (reminders and events); the address-book fallback has the same cases.
   */
  datatype Authorization = AuthNotDetermined | AuthRestricted | AuthDenied | AuthAuthorized

  /** The audio session's record permission (microphone). */
  datatype RecordPermission = Undetermined | RecordDenied | Granted

  /** The notification center's authorization status. */
  datatype NotificationAuthorization =
    NotifNotDetermined | NotifDenied | NotifAuthorized | NotifProvisional | NotifEphemeral

  /** The state of the Bluetooth peripheral manager. */
  datatype ManagerState = StateUnknown | Resetting | Unsupported | StateUnauthorized | PoweredOff | PoweredOn

  /** The Bluetooth peripheral manager's authorization status. */
  datatype BluetoothAuthorization = BtNotDetermined | BtRestricted | BtDenied | BtAuthorized

  /** Everything the engine reads from the operating system at one moment. */
  datatype Platform = Platform(
    locationServicesEnabled: bool,
    location: LocationAuthorization,
    contacts: Authorization,
    record: RecordPermission,
    camera: Authorization,
    photos: Authorization,
    reminders: Authorization,
    events: Authorization,
    notifications: NotificationAuthorization,
    bluetoothState: ManagerState,
    bluetooth: BluetoothAuthorization,
    // whether the app's Info.plist declares the two location usage descriptions
    hasLocationAlwaysKey: bool,
    hasLocationWhenInUseKey: bool)

  /** The persisted user-defaults flags the engine reads and writes. */
  datatype Defaults = Defaults(
    requestedInUseToAlwaysUpgrade: bool,
    requestedNotifications: bool,
    requestedBluetooth: bool,
    requestedMotion: bool)
  {
    /** Every flag set in this store is also set in `later`: flags are only ever set to true. */
    predicate KeptIn(later: Defaults)
    {
      (requestedInUseToAlwaysUpgrade ==> later.requestedInUseToAlwaysUpgrade) &&
      (requestedNotifications ==> later.requestedNotifications) &&
      (requestedBluetooth ==> later.requestedBluetooth) &&
      (requestedMotion ==> later.requestedMotion)
    }
  }

  /**
   * Location "always": disabled whenever location services are off;
   * when-in-use counts as refused only after the upgrade to "always" was requested.
   */
  function StatusLocationAlways(servicesEnabled: bool, auth: LocationAuthorization, upgradeRequested: bool): (r: PermissionStatus)
    ensures r == Disabled <==> !servicesEnabled
    ensures r == Authorized <==> servicesEnabled && auth == AuthorizedAlways
    ensures r == Unauthorized <==>
      servicesEnabled && (auth == Restricted || auth == Denied || (auth == AuthorizedWhenInUse && upgradeRequested))
    ensures r == Unknown <==>
      servicesEnabled && (auth == NotDetermined || (auth == AuthorizedWhenInUse && !upgradeRequested))
  {
    if !servicesEnabled then Disabled
    else
      match auth
      case AuthorizedAlways => Authorized
      case Restricted | Denied => Unauthorized
      case AuthorizedWhenInUse => if upgradeRequested then Unauthorized else Unknown
      case NotDetermined => Unknown
  }

  /** Location "in use": either grant counts, and services off means disabled. */
  function StatusLocationInUse(servicesEnabled: bool, auth: LocationAuthorization): (r: PermissionStatus)
    ensures r == Disabled <==> !servicesEnabled
    ensures r == Authorized <==> servicesEnabled && (auth == AuthorizedWhenInUse || auth == AuthorizedAlways)
    ensures r == Unauthorized <==> servicesEnabled && (auth == Restricted || auth == Denied)
    ensures r == Unknown <==> servicesEnabled && auth == NotDetermined
  {
    if !servicesEnabled then Disabled
    else
      match auth
      case AuthorizedWhenInUse | AuthorizedAlways => Authorized
      case Restricted | Denied => Unauthorized
      case NotDetermined => Unknown
  }

  /**
   * The normaliser shared by contacts, camera, photos, reminders and events:
   * granted is authorized, restricted or denied is unauthorized, undecided is
   * unknown, and disabled never occurs.
   */
  function StatusFromAuthorization(auth: Authorization): (r: PermissionStatus)
    ensures r != Disabled
    ensures r == Authorized <==> auth == AuthAuthorized
    ensures r == Unauthorized <==> auth == AuthRestricted || auth == AuthDenied
    ensures r == Unknown <==> auth == AuthNotDetermined
  {
    match auth
    case AuthAuthorized => Authorized
    case AuthRestricted | AuthDenied => Unauthorized
    case AuthNotDetermined => Unknown
  }

  /** Microphone: granted and denied map across, anything else is unknown. */
  function StatusMicrophone(record: RecordPermission): (r: PermissionStatus)
    ensures r != Disabled
    ensures r == Authorized <==> record == Granted
    ensures r == Unauthorized <==> record == RecordDenied
  {
    match record
    case RecordDenied => Unauthorized
    case Granted => Authorized
    case _ => Unknown
  }

  /**
   * Notifications: the platform gives no denial signal, so anything other than
   * authorized counts as refused only once a request has been made.
   */
  function StatusNotifications(settings: NotificationAuthorization, requested: bool): (r: PermissionStatus)
    ensures r != Disabled
    ensures r == Authorized <==> settings == NotifAuthorized
    ensures r == Unauthorized <==> settings != NotifAuthorized && requested
    ensures r == Unknown <==> settings != NotifAuthorized && !requested
  {
    if settings == NotifAuthorized then Authorized
    else if requested then Unauthorized
    else Unknown
  }

  /**
   * Bluetooth: unknown until it was asked once; after that the first matching
   * case wins, so disabled (unsupported, off, restricted) beats unauthorized.
   */
  function StatusBluetooth(asked: bool, state: ManagerState, auth: BluetoothAuthorization): (r: PermissionStatus)
    ensures !asked ==> r == Unknown
    ensures r == Disabled <==> asked && (state == Unsupported || state == PoweredOff || auth == BtRestricted)
    ensures r == Unauthorized <==>
      asked && state != Unsupported && state != PoweredOff && auth != BtRestricted &&
      (state == StateUnauthorized || auth == BtDenied)
    ensures r == Authorized <==> asked && state == PoweredOn && auth == BtAuthorized
  {
    if !asked then Unknown
    else if state == Unsupported || state == PoweredOff || auth == BtRestricted then Disabled
    else if state == StateUnauthorized || auth == BtDenied then Unauthorized
    else if state == PoweredOn && auth == BtAuthorized then Authorized
    else Unknown
  }

  /** The status a finished motion-activity query leaves behind. */
  function MotionQueryStatus(notAuthorizedError: bool): (r: PermissionStatus)
    ensures r == Unauthorized <==> notAuthorizedError
    ensures r == Authorized <==> !notAuthorizedError
  {
    if notAuthorizedError then Unauthorized else Authorized
  }

  /**
   * The status reported for a kind, given the platform, the persisted flags
   * and the cached motion status (motion has no synchronous native query).
   */
  function Normalised(kind: PermissionType, p: Platform, d: Defaults, motion: PermissionStatus): (r: PermissionStatus)
    ensures kind == Motion ==> r == motion
    ensures kind == Bluetooth && !d.requestedBluetooth ==> r == Unknown
    ensures kind == Notifications && d.requestedNotifications ==> r != Unknown
    ensures kind == LocationAlways || kind == LocationInUse ==> (r == Disabled <==> !p.locationServicesEnabled)
  {
    match kind
    case LocationAlways => StatusLocationAlways(p.locationServicesEnabled, p.location, d.requestedInUseToAlwaysUpgrade)
    case LocationInUse => StatusLocationInUse(p.locationServicesEnabled, p.location)
    case Contacts => StatusFromAuthorization(p.contacts)
    case Notifications => StatusNotifications(p.notifications, d.requestedNotifications)
    case Microphone => StatusMicrophone(p.record)
    case Camera => StatusFromAuthorization(p.camera)
    case Photos => StatusFromAuthorization(p.photos)
    case Reminders => StatusFromAuthorization(p.reminders)
    case Events => StatusFromAuthorization(p.events)
    case Bluetooth => StatusBluetooth(d.requestedBluetooth, p.bluetoothState, p.bluetooth)
    case Motion => motion
  }

  /**
   * Disabled means a system-wide switch is off: it is reported only for the two
   * location kinds with location services off, for Bluetooth, and for motion if
   * its cache says so; every other kind never reports it.
   */
  lemma DisabledOnlyForSystemSwitches(kind: PermissionType, p: Platform, d: Defaults, motion: PermissionStatus)
    ensures Normalised(kind, p, d, motion) == Disabled <==>
      ((kind == LocationAlways || kind == LocationInUse) && !p.locationServicesEnabled) ||
      (kind == Bluetooth && StatusBluetooth(d.requestedBluetooth, p.bluetoothState, p.bluetooth) == Disabled) ||
      (kind == Motion && motion == Disabled)
  {
  }
}
