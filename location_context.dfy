/** The location context: the provider's state (coordinates, area name,
    loading flag, error, permission status), its `updateLocation`
    transition, and the `useLocation` hook. `updateLocation` is modelled
    once both awaited calls have settled; what the browser and the geocoding
    service report are parameters. */
module LocationContext {
  import opened Common
  import opened AuthContext
  import opened LocationService

  const Prompt := "prompt"
  const Granted := "granted"
  const Denied := "denied"

  const GlobalView := Str("Global View")

  /** The context value handed to the pages (`refreshLocation` is the provider's
      `UpdateLocation`). */
  datatype LocationValue = LocationValue(
    coords: Option<Coords>,
    areaName: JsValue,
    loading: bool,
    error: Option<string>,
    permissionStatus: string)

  class LocationProvider {
    var coords: Option<Coords>
    var areaName: JsValue
    var loading: bool
    var error: Option<string>
    var permissionStatus: string

    /** The area name is never empty, the status is one of the three, and a
        granted status always comes with coordinates. */
    ghost predicate Valid()
      reads this
    {
      && Truthy(areaName)
      && permissionStatus in {Prompt, Granted, Denied}
      && (permissionStatus == Granted ==> coords.Some?)
    }

    /** The provider's initial state, before its mount effect runs. */
    constructor()
      ensures Valid()
      ensures coords == None && areaName == GlobalView && loading && error == None && permissionStatus == Prompt
    {
      coords := None;
      areaName := GlobalView;
      loading := true;
      error := None;
      permissionStatus := Prompt;
    }

    function Value(): (v: LocationValue)
      reads this
      ensures v.coords == coords && v.areaName == areaName && v.loading == loading
      ensures v.error == error && v.permissionStatus == permissionStatus
    {
      LocationValue(coords, areaName, loading, error, permissionStatus)
    }

    /** `updateLocation`: on success the coordinates are stored, permission
        is granted, the area name comes from reverse geocoding and the error
        is cleared; on failure the error is the message and the status turns
        to denied only for a message mentioning "denied". Either way loading
        ends. Composed with the service, the status becomes denied exactly
        when the browser reports the permission error; any other failure
        leaves the status, the coordinates and the area name as they were. */
    method UpdateLocation(supported: bool, position: PositionReply, geocode: GeocodeReply)
      requires Valid()
      modifies this
      ensures Valid() && !loading
      ensures GetCurrentLocation(supported, position).Located? ==>
        && coords == Some(GetCurrentLocation(supported, position).coords)
        && permissionStatus == Granted
        && areaName == ReverseGeocode(geocode)
        && error == None
      ensures GetCurrentLocation(supported, position).LocationFailed? ==>
        && coords == old(coords)
        && areaName == old(areaName)
        && error == Some(GetCurrentLocation(supported, position).message)
        && permissionStatus == (if Contains(GetCurrentLocation(supported, position).message, Denied) then Denied else old(permissionStatus))
      ensures supported && position.PositionError? && position.code == PermissionDenied ==>
        permissionStatus == Denied && error == Some(DeniedMessage)
      ensures !(supported && position.Position?) && !(supported && position.PositionError? && position.code == PermissionDenied) ==>
        permissionStatus == old(permissionStatus) && coords == old(coords) && areaName == old(areaName)
    {
      loading := true;
      var located := GetCurrentLocation(supported, position);
      if located.Located? {
        coords := Some(located.coords);
        permissionStatus := Granted;
        var area := ReverseGeocode(geocode);
        areaName := area;
        error := None;
      } else {
        error := Some(located.message);
        DeniedExactlyForPermissionError(supported, position);
        if Contains(located.message, Denied) {
          permissionStatus := Denied;
        }
      }
      loading := false;
    }
  }

  const OutsideProviderMessage := "useLocation must be used within a LocationProvider"

  datatype UseLocationOutcome = OutsideProvider(message: string) | InsideProvider(value: LocationValue)

  /** `useLocation`: outside a provider the context is undefined and the hook throws. */
  function UseLocation(context: Option<LocationValue>): (r: UseLocationOutcome)
    ensures r.OutsideProvider? <==> context.None?
    ensures r.OutsideProvider? ==> r.message == OutsideProviderMessage
    ensures context.Some? ==> r.InsideProvider? && r.value == context.value
  {
    match context
    case None => OutsideProvider(OutsideProviderMessage)
    case Some(v) => InsideProvider(v)
  }
}
