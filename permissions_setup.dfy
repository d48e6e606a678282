/** The onboarding permissions screen: four permissions (location,
    microphone, camera, contacts), each pending, granted, denied or
    unavailable; an initial query of the browser's permission states; one
    request per permission; a progress bar; and a Continue button that is
    enabled only once all four are granted. Browser answers are parameters. */
module PermissionsSetup {
  import opened Base
  import Lists

  datatype Status = Pending | Granted | Denied | Unavailable

  datatype Permission = Location | Microphone | Camera | Contacts

  /** The permissions record, fields in declaration order. */
  datatype Permissions = Permissions(location: Status, microphone: Status, camera: Status, contacts: Status)

  const INITIAL: Permissions := Permissions(Pending, Pending, Pending, Pending)

  /** `Object.values(permissions)`: the four statuses in declaration order. */
  function Values(p: Permissions): seq<Status> {
    [p.location, p.microphone, p.camera, p.contacts]
  }

  function Get(p: Permissions, k: Permission): Status {
    match k
    case Location => p.location
    case Microphone => p.microphone
    case Camera => p.camera
    case Contacts => p.contacts
  }

  /** `{ ...prev, [k]: s }`: one key changes, the others keep their status. */
  function Set(p: Permissions, k: Permission, s: Status): (r: Permissions)
    ensures Get(r, k) == s
    ensures forall j: Permission :: j != k ==> Get(r, j) == Get(p, j)
  {
    match k
    case Location => p.(location := s)
    case Microphone => p.(microphone := s)
    case Camera => p.(camera := s)
    case Contacts => p.(contacts := s)
  }

  /** The state `navigator.permissions.query` reports. */
  datatype QueryState = StateGranted | StateDenied | StatePrompt

  /** A query either answers or throws (the permission name is unknown to
      the browser). */
  datatype QueryResult = QueryThrew | Answered(state: QueryState)

  /** `granted` and `denied` carry over; anything else is still pending. */
  function MapQueryState(q: QueryState): (r: Status)
    ensures r == Granted <==> q == StateGranted
    ensures r == Denied <==> q == StateDenied
    ensures r == Pending <==> q == StatePrompt
  {
    match q
    case StateGranted => Granted
    case StateDenied => Denied
    case StatePrompt => Pending
  }

  /** One guarded query: a query that throws leaves the status as it was. */
  function QueryOutcome(current: Status, res: QueryResult): (r: Status)
    ensures res.QueryThrew? ==> r == current
    ensures res.Answered? ==> r == MapQueryState(res.state)
  {
    match res
    case QueryThrew => current
    case Answered(q) => MapQueryState(q)
  }

  /** `checkInitialPermissions`: the camera, microphone and geolocation
      queries applied to a copy of `base`, the record the check started
      from; contacts are not queried. */
  function CheckedPermissions(base: Permissions, camera: QueryResult, microphone: QueryResult, geolocation: QueryResult): (r: Permissions)
    ensures r.contacts == base.contacts
  {
    base.(camera := QueryOutcome(base.camera, camera),
          microphone := QueryOutcome(base.microphone, microphone),
          location := QueryOutcome(base.location, geolocation))
  }

  /** From the initial record the check never yields `unavailable`, leaves
      contacts pending, and grants a permission exactly when its query
      answered `granted`. */
  lemma InitialCheckOutcome(camera: QueryResult, microphone: QueryResult, geolocation: QueryResult)
    ensures var r := CheckedPermissions(INITIAL, camera, microphone, geolocation);
      && (forall k: Permission :: Get(r, k) != Unavailable)
      && r.contacts == Pending
      && (r.camera == Granted <==> camera == Answered(StateGranted))
      && (r.microphone == Granted <==> microphone == Answered(StateGranted))
      && (r.location == Granted <==> geolocation == Answered(StateGranted))
      && (r.location == Denied <==> geolocation == Answered(StateDenied))
  {
  }

  /** How the geolocation request ends. */
  datatype GeoOutcome = NoGeolocationApi | PositionReceived | PositionFailed(permissionDenied: bool)

  /** `requestLocationPermission`: no API means unavailable, a position
      means granted, a `PERMISSION_DENIED` error means denied, and any other
      error leaves the status unchanged. */
  function LocationResult(current: Status, o: GeoOutcome): (r: Status)
    ensures o == NoGeolocationApi ==> r == Unavailable
    ensures o == PositionReceived ==> r == Granted
    ensures o == PositionFailed(true) ==> r == Denied
    ensures o == PositionFailed(false) ==> r == current
  {
    match o
    case NoGeolocationApi => Unavailable
    case PositionReceived => Granted
    case PositionFailed(denied) => if denied then Denied else current
  }

  /** `requestCameraPermission` and `requestMicrophonePermission`: whether
      `getUserMedia` produced a stream. */
  function MediaResult(streamOpened: bool): (r: Status)
    ensures r == Granted <==> streamOpened
    ensures r == Denied <==> !streamOpened
  {
    if streamOpened then Granted else Denied
  }

  /** What the contact picker does, where it exists. */
  datatype PickerOutcome = NoPickerApi | Picked(count: nat) | PickerThrew

  /** `requestContactsPermission`: a picked contact grants, and every other
      path falls through to the simulated grant. */
  function ContactsResult(o: PickerOutcome): (r: Status)
    ensures r == Granted
  {
    match o
    case NoPickerApi => Granted
    case Picked(n) => Granted
    case PickerThrew => Granted
  }

  /** `getGrantedCount`. */
  function GrantedCount(p: Permissions): (r: nat)
    ensures r <= 4
  {
    |Lists.Filter(Values(p), (s: Status) => s == Granted)|
  }

  function Indicator(s: Status): nat {
    if s == Granted then 1 else 0
  }

  /** The count is the number of granted keys, one for each. */
  lemma GrantedCountSums(p: Permissions)
    ensures GrantedCount(p) == Indicator(p.location) + Indicator(p.microphone) + Indicator(p.camera) + Indicator(p.contacts)
  {
    var keep := (s: Status) => s == Granted;
    var t1, t2, t3 := [p.microphone, p.camera, p.contacts], [p.camera, p.contacts], [p.contacts];
    assert Values(p)[1..] == t1 && t1[1..] == t2 && t2[1..] == t3 && t3[1..] == [];
    assert |Lists.Filter(t3, keep)| == Indicator(p.contacts);
    assert |Lists.Filter(t2, keep)| == Indicator(p.camera) + |Lists.Filter(t3, keep)|;
    assert |Lists.Filter(t1, keep)| == Indicator(p.microphone) + |Lists.Filter(t2, keep)|;
  }

  /** `allGranted`: every value is `granted`. */
  predicate AllGranted(p: Permissions) {
    forall i | 0 <= i < |Values(p)| :: Values(p)[i] == Granted
  }

  /** All four are granted exactly when the count reaches four. */
  lemma AllGrantedIffFour(p: Permissions)
    ensures AllGranted(p) <==> GrantedCount(p) == 4
    ensures AllGranted(p) <==> forall k: Permission :: Get(p, k) == Granted
  {
    GrantedCountSums(p);
    assert Values(p)[0] == Get(p, Location) && Values(p)[1] == Get(p, Microphone);
    assert Values(p)[2] == Get(p, Camera) && Values(p)[3] == Get(p, Contacts);
  }

  /** `progressPercentage`: the granted share of four, in percent. With a
      count of 0..4 the quotient is exact. */
  function ProgressPercentage(p: Permissions): (r: nat)
    ensures 4 * r == 100 * GrantedCount(p)
    ensures r == 0 || r == 25 || r == 50 || r == 75 || r == 100
  {
    GrantedCount(p) * 100 / 4
  }

  /** The bar is full exactly when Continue is enabled. */
  lemma FullBarIffContinue(p: Permissions)
    ensures ProgressPercentage(p) == 100 <==> AllGranted(p)
  {
    AllGrantedIffFour(p);
  }

  /** The success overlay's test: every value granted and some value
      granted. */
  predicate OverlayCondition(p: Permissions) {
    (forall i | 0 <= i < |Values(p)| :: Values(p)[i] == Granted)
    && (exists i | 0 <= i < |Values(p)| :: Values(p)[i] == Granted)
  }

  /** With four keys the "some" half adds nothing: the overlay shows
      exactly when Continue is enabled. */
  lemma OverlayIffAllGranted(p: Permissions)
    ensures OverlayCondition(p) <==> AllGranted(p)
  {
    if AllGranted(p) {
      assert Values(p)[0] == Granted;
    }
  }

  /** The screen component. `overlayTimerArmed` is the 1500 ms timeout
      that hides the overlay, `completeRequests` counts `onComplete`. */
  class PermissionsScreen {
    var permissions: Permissions
    var isRequesting: Option<Permission>
    var showSuccessOverlay: bool
    var overlayTimerArmed: bool
    var completeRequests: nat

    ghost predicate Valid()
      reads this
    {
      overlayTimerArmed ==> showSuccessOverlay && AllGranted(permissions)
    }

    constructor ()
      ensures Valid() && permissions == INITIAL && isRequesting == None
      ensures !showSuccessOverlay && !overlayTimerArmed && completeRequests == 0
    {
      permissions := INITIAL;
      isRequesting := None;
      showSuccessOverlay, overlayTimerArmed := false, false;
      completeRequests := 0;
    }

    /** The effect on `permissions`: the previous run's timeout is cleared,
        and when all are granted the overlay shows with a fresh timeout. */
    method OverlayEffect()
      modifies this`showSuccessOverlay, this`overlayTimerArmed
      ensures Valid()
      ensures overlayTimerArmed == AllGranted(permissions)
      ensures showSuccessOverlay == (AllGranted(permissions) || old(showSuccessOverlay))
    {
      OverlayIffAllGranted(permissions);
      overlayTimerArmed := false;
      if OverlayCondition(permissions) {
        showSuccessOverlay := true;
        overlayTimerArmed := true;
      }
    }

    /** The initial check resolves; it writes back the copy it made of the
        record at mount, so a request completed in between is overwritten. */
    method InitialCheckCompletes(camera: QueryResult, microphone: QueryResult, geolocation: QueryResult)
      modifies this`permissions, this`showSuccessOverlay, this`overlayTimerArmed
      ensures Valid() && permissions == CheckedPermissions(INITIAL, camera, microphone, geolocation)
      ensures overlayTimerArmed == AllGranted(permissions)
    {
      permissions := CheckedPermissions(INITIAL, camera, microphone, geolocation);
      OverlayEffect();
    }

    /** A permission's Allow button: shown while it is not granted and
        disabled while that same request is loading. */
    method StartRequest(k: Permission)
      requires Valid() && Get(permissions, k) != Granted && isRequesting != Some(k)
      modifies this`isRequesting
      ensures Valid() && isRequesting == Some(k)
    {
      isRequesting := Some(k);
    }

    /** The location request settles. Every outcome but an error other than
        `PERMISSION_DENIED` stores a new record, so the overlay effect runs
        again; that error stores nothing and the effect does not re-run. */
    method LocationResolved(o: GeoOutcome)
      requires Valid()
      modifies this`permissions, this`isRequesting, this`showSuccessOverlay, this`overlayTimerArmed
      ensures Valid() && isRequesting == None
      ensures permissions == Set(old(permissions), Location, LocationResult(old(permissions).location, o))
      ensures o != PositionFailed(false) ==> overlayTimerArmed == AllGranted(permissions)
      ensures o == PositionFailed(false) ==>
        && permissions == old(permissions) && overlayTimerArmed == old(overlayTimerArmed)
        && showSuccessOverlay == old(showSuccessOverlay)
    {
      isRequesting := None;
      if o != PositionFailed(false) {
        permissions := Set(permissions, Location, LocationResult(permissions.location, o));
        OverlayEffect();
      }
    }

    method CameraResolved(streamOpened: bool)
      modifies this`permissions, this`isRequesting, this`showSuccessOverlay, this`overlayTimerArmed
      ensures Valid() && isRequesting == None
      ensures permissions == Set(old(permissions), Camera, MediaResult(streamOpened))
      ensures overlayTimerArmed == AllGranted(permissions)
    {
      permissions := Set(permissions, Camera, MediaResult(streamOpened));
      isRequesting := None;
      OverlayEffect();
    }

    method MicrophoneResolved(streamOpened: bool)
      modifies this`permissions, this`isRequesting, this`showSuccessOverlay, this`overlayTimerArmed
      ensures Valid() && isRequesting == None
      ensures permissions == Set(old(permissions), Microphone, MediaResult(streamOpened))
      ensures overlayTimerArmed == AllGranted(permissions)
    {
      permissions := Set(permissions, Microphone, MediaResult(streamOpened));
      isRequesting := None;
      OverlayEffect();
    }

    method ContactsResolved(o: PickerOutcome)
      modifies this`permissions, this`isRequesting, this`showSuccessOverlay, this`overlayTimerArmed
      ensures Valid() && isRequesting == None
      ensures permissions == Set(old(permissions), Contacts, ContactsResult(o))
      ensures overlayTimerArmed == AllGranted(permissions)
    {
      permissions := Set(permissions, Contacts, ContactsResult(o));
      isRequesting := None;
      OverlayEffect();
    }

    /** The overlay's timeout fires. */
    method OverlayTimerFires()
      requires Valid() && overlayTimerArmed
      modifies this`showSuccessOverlay, this`overlayTimerArmed
      ensures Valid() && !showSuccessOverlay && !overlayTimerArmed
    {
      showSuccessOverlay, overlayTimerArmed := false, false;
    }

    /** The Continue button, enabled only when all are granted. */
    method Continue()
      requires Valid() && AllGranted(permissions)
      modifies this`completeRequests
      ensures Valid() && completeRequests == old(completeRequests) + 1
    {
      completeRequests := completeRequests + 1;
    }
  }
}
