/** The safe-route screen: it locates the user once on mount, lists nearby
    safe places, expands one place at a time, and from an expanded place
    opens map directions or dials the police or the hospital. Coordinates
    are opaque text here; URL encoding is not modelled. */
module SafeRoute {
  import opened Base
  import Text

  datatype PlaceType = Police | Hospital | Shelter | Public

  datatype SafePlace = SafePlace(id: string, name: string, kind: PlaceType, distance: string, address: string, isOpen: bool)

  /** A reported position, as the text the URLs interpolate. */
  datatype Location = Location(lat: string, lng: string)

  const SAFE_PLACES: seq<SafePlace> := [
    SafePlace("1", "Central Police Station", Police, "0.5 km", "Sector 17, Main Road", true),
    SafePlace("2", "City Hospital Emergency", Hospital, "0.8 km", "Medical Complex, Block C", true),
    SafePlace("3", "Women's Safety Hub", Shelter, "1.2 km", "Community Center, Phase 2", true),
    SafePlace("4", "Metro Station", Public, "0.3 km", "Junction Point", true),
    SafePlace("5", "24/7 Pharmacy", Public, "0.4 km", "Market Area, Shop 12", true)
  ]

  const LOCATION_FAILED: string := "Unable to get your location. Please enable location services."
  const NO_GEOLOCATION: string := "Geolocation is not supported by your browser."

  /** How the one position request on mount ends. */
  datatype LocateOutcome = NoGeolocationApi | PositionReceived(at: Location) | PositionFailed

  datatype Locator = Locator(isLocating: bool, userLocation: Option<Location>, locationError: Option<string>)

  const LOCATING: Locator := Locator(true, None, None)

  /** The mount effect's outcome: a position is stored; otherwise an error
      message says why there is none. Either way locating is over. */
  function Locate(l: Locator, o: LocateOutcome): (r: Locator)
    ensures !r.isLocating
    ensures o.PositionReceived? ==> r.userLocation == Some(o.at) && r.locationError == l.locationError
    ensures o == PositionFailed ==> r.locationError == Some(LOCATION_FAILED) && r.userLocation == l.userLocation
    ensures o == NoGeolocationApi ==> r.locationError == Some(NO_GEOLOCATION) && r.userLocation == l.userLocation
  {
    match o
    case PositionReceived(at) => l.(userLocation := Some(at), isLocating := false)
    case PositionFailed => l.(locationError := Some(LOCATION_FAILED), isLocating := false)
    case NoGeolocationApi => l.(locationError := Some(NO_GEOLOCATION), isLocating := false)
  }

  /** Which of the three status panels is shown. */
  datatype Panel = LocatingPanel | ErrorPanel(message: string) | LocatedPanel

  function StatusPanel(l: Locator): Panel {
    if l.isLocating then LocatingPanel
    else if l.locationError.Some? then ErrorPanel(l.locationError.value)
    else LocatedPanel
  }

  /** From the initial state, exactly one of a location and an error is
      known once locating ends, and the panel says which. */
  lemma LocateFromStart(o: LocateOutcome)
    ensures var r := Locate(LOCATING, o);
      && (r.userLocation.Some? <==> r.locationError.None?)
      && (StatusPanel(r) == LocatedPanel <==> o.PositionReceived?)
      && StatusPanel(LOCATING) == LocatingPanel
  {
  }

  /** Tapping a card: the expanded place closes, any other place opens. */
  function ToggleSelection(selected: Option<SafePlace>, place: SafePlace): (r: Option<SafePlace>)
    ensures selected.Some? && selected.value.id == place.id ==> r == None
    ensures !(selected.Some? && selected.value.id == place.id) ==> r == Some(place)
  {
    if selected.Some? && selected.value.id == place.id then None else Some(place)
  }

  /** At most one place is expanded, and tapping the same card twice
      restores the selection when it was of another place. */
  lemma ToggleTwice(selected: Option<SafePlace>, place: SafePlace)
    requires selected.None? || selected.value.id != place.id
    ensures ToggleSelection(ToggleSelection(selected, place), place) == None
    ensures ToggleSelection(selected, place) == Some(place)
  {
  }

  datatype PlaceStyle = PlaceStyle(icon: string, color: string, bg: string, border: string)

  /** `getPlaceIcon`: each type has its style; a public place (and anything
      else) gets the storefront. */
  function PlaceIcon(kind: PlaceType): (s: PlaceStyle)
    ensures kind == Police <==> s.icon == "local_police"
    ensures kind == Hospital <==> s.icon == "local_hospital"
    ensures kind == Shelter <==> s.icon == "home"
    ensures kind == Public <==> s.icon == "storefront"
  {
    match kind
    case Police => PlaceStyle("local_police", "text-blue-400", "bg-blue-500/10", "border-blue-500/30")
    case Hospital => PlaceStyle("local_hospital", "text-red-400", "bg-red-500/10", "border-red-500/30")
    case Shelter => PlaceStyle("home", "text-purple-400", "bg-purple-500/10", "border-purple-500/30")
    case _ => PlaceStyle("storefront", "text-emerald-400", "bg-emerald-500/10", "border-emerald-500/30")
  }

  const DIRECTIONS_PREFIX: string := "https://www.google.com/maps/dir/?api=1&origin="
  const SEARCH_PREFIX: string := "https://www.google.com/maps/search/?api=1&query="

  /** `navigateToPlace`: walking directions from the user when the location
      is known, otherwise a search for the address. */
  function NavigationUrl(userLocation: Option<Location>, place: SafePlace): (url: string)
    ensures userLocation.Some? <==> Text.StartsWith(url, DIRECTIONS_PREFIX)
    ensures userLocation.None? <==> Text.StartsWith(url, SEARCH_PREFIX)
  {
    match userLocation
    case Some(at) =>
      var url := DIRECTIONS_PREFIX + at.lat + "," + at.lng + "&destination=" + place.address + "&travelmode=walking";
      assert url[..|DIRECTIONS_PREFIX|] == DIRECTIONS_PREFIX;
      assert url[28] != SEARCH_PREFIX[28];
      url
    case None =>
      var url := SEARCH_PREFIX + place.address;
      assert url[..|SEARCH_PREFIX|] == SEARCH_PREFIX;
      assert url[28] != DIRECTIONS_PREFIX[28];
      url
  }

  /** The place card's Call button: police and hospitals have a number,
      other places do nothing. */
  function CallNumber(kind: PlaceType): (r: Option<string>)
    ensures r == Some("100") <==> kind == Police
    ensures r == Some("108") <==> kind == Hospital
    ensures r == None <==> kind == Shelter || kind == Public
  {
    match kind
    case Police => Some("100")
    case Hospital => Some("108")
    case _ => None
  }

  const SHARE_PREFIX: string := "https://www.google.com/maps?q="

  /** The link `shareLocation` hands to the share sheet. */
  function ShareUrl(at: Location): (url: string)
    ensures Text.StartsWith(url, SHARE_PREFIX)
    ensures |url| == |SHARE_PREFIX| + |at.lat| + 1 + |at.lng|
    ensures url[|SHARE_PREFIX| + |at.lat|] == ','
    ensures url[|SHARE_PREFIX|..|SHARE_PREFIX| + |at.lat|] == at.lat && url[|SHARE_PREFIX| + |at.lat| + 1..] == at.lng
  {
    var url := SHARE_PREFIX + at.lat + "," + at.lng;
    assert url[..|SHARE_PREFIX|] == SHARE_PREFIX;
    url
  }

  /** The fixed emergency button. */
  const EMERGENCY_NUMBER: string := "112"

  /** The screen component; `openedUrls`, `dialled` and `shared` record the
      URLs handed to `window.open`, the numbers handed to `tel:` and the
      links handed to the share sheet. */
  class RouteScreen {
    var isLocating: bool
    var userLocation: Option<Location>
    var locationError: Option<string>
    var selectedPlace: Option<SafePlace>
    var openedUrls: seq<string>
    var dialled: seq<string>
    var shared: seq<string>

    function Model(): Locator
      reads this
    {
      Locator(isLocating, userLocation, locationError)
    }

    constructor ()
      ensures Model() == LOCATING && selectedPlace == None && openedUrls == [] && dialled == [] && shared == []
    {
      isLocating, userLocation, locationError := true, None, None;
      selectedPlace := None;
      openedUrls, dialled, shared := [], [], [];
    }

    /** The position request, issued on mount, settles. */
    method LocationSettles(o: LocateOutcome)
      requires isLocating
      modifies this`isLocating, this`userLocation, this`locationError
      ensures Model() == Locate(old(Model()), o)
    {
      match o
      case PositionReceived(at) =>
        userLocation := Some(at);
        isLocating := false;
      case PositionFailed =>
        locationError := Some(LOCATION_FAILED);
        isLocating := false;
      case NoGeolocationApi =>
        locationError := Some(NO_GEOLOCATION);
        isLocating := false;
    }

    method TapPlace(place: SafePlace)
      requires place in SAFE_PLACES
      modifies this`selectedPlace
      ensures selectedPlace == ToggleSelection(old(selectedPlace), place)
    {
      if selectedPlace.Some? && selectedPlace.value.id == place.id {
        selectedPlace := None;
      } else {
        selectedPlace := Some(place);
      }
    }

    /** The Navigate button of the expanded card. */
    method Navigate()
      requires selectedPlace.Some?
      modifies this`openedUrls
      ensures openedUrls == old(openedUrls) + [NavigationUrl(userLocation, selectedPlace.value)]
    {
      openedUrls := openedUrls + [NavigationUrl(userLocation, selectedPlace.value)];
    }

    /** The Call button of the expanded card. */
    method Call()
      requires selectedPlace.Some?
      modifies this`dialled
      ensures CallNumber(selectedPlace.value.kind).None? ==> dialled == old(dialled)
      ensures CallNumber(selectedPlace.value.kind).Some? ==> dialled == old(dialled) + [CallNumber(selectedPlace.value.kind).value]
    {
      var n := CallNumber(selectedPlace.value.kind);
      if n.Some? {
        dialled := dialled + [n.value];
      }
    }

    /** The header's share button: nothing happens without a known location
      or without the share API; a refused or failed share changes nothing
      either. */
    method ShareLocation(hasShareApi: bool)
      modifies this`shared
      ensures userLocation.Some? && hasShareApi ==> shared == old(shared) + [ShareUrl(userLocation.value)]
      ensures !(userLocation.Some? && hasShareApi) ==> shared == old(shared)
    {
      if userLocation.Some? && hasShareApi {
        shared := shared + [ShareUrl(userLocation.value)];
      }
    }

    method EmergencyCall()
      modifies this`dialled
      ensures dialled == old(dialled) + [EMERGENCY_NUMBER]
    {
      dialled := dialled + [EMERGENCY_NUMBER];
    }
  }
}
