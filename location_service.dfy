/** The location service: the browser's position request turned into
    coordinates or an error message, and the reverse-geocoding lookup that
    turns coordinates into an area name and never fails. The browser and the
    geocoding service are not modelled; what they report is a parameter. */
module LocationService {
  import opened Common
  import opened AuthContext

  datatype Coords = Coords(lat: real, lng: real)

  /** What the browser's position request reports: a position, or an error
      with its numeric code. */
  datatype PositionReply = Position(latitude: real, longitude: real) | PositionError(code: int)

  /** How the promise returned by `getCurrentLocation` settles. */
  datatype Located = Located(coords: Coords) | LocationFailed(message: string)

  /** The codes of the geolocation error object. */
  const PermissionDenied := 1
  const PositionUnavailable := 2
  const Timeout := 3

  const NotSupportedMessage := "Geolocation is not supported by your browser"
  const DeniedMessage := "User denied the request for Geolocation"
  const UnavailableMessage := "Location information is unavailable"
  const TimeoutMessage := "The request to get user location timed out"
  const UnknownMessage := "An unknown error occurred"

  /** The message the error callback rejects with. */
  function ErrorMessage(code: int): (m: string)
    ensures code == PermissionDenied ==> m == DeniedMessage
    ensures code == PositionUnavailable ==> m == UnavailableMessage
    ensures code == Timeout ==> m == TimeoutMessage
    ensures code !in {PermissionDenied, PositionUnavailable, Timeout} ==> m == UnknownMessage
  {
    if code == PermissionDenied then DeniedMessage
    else if code == PositionUnavailable then UnavailableMessage
    else if code == Timeout then TimeoutMessage
    else UnknownMessage
  }

  /** `getCurrentLocation`, given whether the browser supports geolocation
      and what the position request reported. */
  function GetCurrentLocation(supported: bool, reply: PositionReply): (r: Located)
    ensures !supported ==> r == LocationFailed(NotSupportedMessage)
    ensures supported && reply.Position? ==> r == Located(Coords(reply.latitude, reply.longitude))
    ensures supported && reply.PositionError? ==> r == LocationFailed(ErrorMessage(reply.code))
  {
    if !supported then LocationFailed(NotSupportedMessage)
    else match reply
      case Position(latitude, longitude) => Located(Coords(latitude, longitude))
      case PositionError(code) => LocationFailed(ErrorMessage(code))
  }

  /** A text in which the first two characters of `sub` never stand side by
      side does not contain `sub`. */
  lemma NoPairNoOccurrence(s: string, sub: string)
    requires |sub| >= 2
    requires forall i :: 0 <= i < |s| - 1 ==> !(s[i] == sub[0] && s[i + 1] == sub[1])
    ensures !Contains(s, sub)
  {
    forall i: nat | i <= |s| ensures !OccursAt(s, sub, i) {
      if i + |sub| <= |s| {
        var w := s[i..i + |sub|];
        assert w[0] == s[i] && w[1] == s[i + 1];
      }
    }
  }

  /** The permission message mentions "denied". */
  lemma DeniedMessageSaysDenied()
    ensures Contains(DeniedMessage, "denied")
  {
    var d := DeniedMessage;
    assert d[5] == 'd' && d[6] == 'e' && d[7] == 'n' && d[8] == 'i' && d[9] == 'e' && d[10] == 'd';
    assert d[5..11] == "denied";
    assert OccursAt(d, "denied", 5);
  }

  /** A message in which no "d" is followed by an "e" does not mention "denied". */
  lemma NoDeNoDenied(m: string)
    requires forall i :: 0 <= i < |m| - 1 ==> !(m[i] == 'd' && m[i + 1] == 'e')
    ensures !Contains(m, "denied")
  {
    NoPairNoOccurrence(m, "denied");
  }

  /** None of the four other messages mentions "denied": in none of them
      is a "d" followed by an "e". */
  lemma NotSupportedNotDenied()
    ensures !Contains(NotSupportedMessage, "denied")
  {
    NoDeNoDenied(NotSupportedMessage);
  }

  lemma UnavailableNotDenied()
    ensures !Contains(UnavailableMessage, "denied")
  {
    NoDeNoDenied(UnavailableMessage);
  }

  lemma TimeoutNotDenied()
    ensures !Contains(TimeoutMessage, "denied")
  {
    NoDeNoDenied(TimeoutMessage);
  }

  lemma UnknownNotDenied()
    ensures !Contains(UnknownMessage, "denied")
  {
    NoDeNoDenied(UnknownMessage);
  }

  /** A failed location request mentions "denied" exactly when the browser
      reported the permission error. */
  lemma DeniedExactlyForPermissionError(supported: bool, reply: PositionReply)
    requires GetCurrentLocation(supported, reply).LocationFailed?
    ensures Contains(GetCurrentLocation(supported, reply).message, "denied")
      <==> supported && reply.PositionError? && reply.code == PermissionDenied
  {
    DeniedMessageSaysDenied();
    NotSupportedNotDenied();
    UnavailableNotDenied();
    TimeoutNotDenied();
    UnknownNotDenied();
  }

  /** The address fields tried for the area name, most specific first. */
  const LocalityKeys := ["suburb", "neighbourhood", "city_district", "residential", "village", "county", "city"]

  const UnknownArea := Str("Unknown Area")
  const LocalArea := Str("Local Area")

  /** The `||` chain: the first truthy field among `keys`, else `fallback`. */
  function FirstTruthy(address: JsObject, keys: seq<string>, fallback: JsValue): (r: JsValue)
    ensures (forall i :: 0 <= i < |keys| ==> !Truthy(Get(address, keys[i]))) ==> r == fallback
    ensures (exists i :: 0 <= i < |keys| && Truthy(Get(address, keys[i]))) ==>
      exists i :: 0 <= i < |keys| && r == Get(address, keys[i]) && Truthy(r)
        && forall j :: 0 <= j < i ==> !Truthy(Get(address, keys[j]))
  {
    if keys == [] then fallback
    else if Truthy(Get(address, keys[0])) then Get(address, keys[0])
    else
      var r := FirstTruthy(address, keys[1..], fallback);
      assert forall i :: 1 <= i < |keys| ==> keys[1..][i - 1] == keys[i];
      r
  }

  /** The area name read from an address object. */
  function Locality(address: JsObject): (r: JsValue)
    ensures Truthy(r)
  {
    FirstTruthy(address, LocalityKeys, UnknownArea)
  }

  /** What fetching the geocoding service gives: a network failure, or a
      response with its `ok` flag and its body parsed as JSON (`None` when
      the body is not JSON). */
  datatype GeocodeReply = NetworkError | Response(ok: bool, body: Option<JsValue>)

  /** `data.address`: a property of an object; `null` throws, which the
      catch turns into the fallback just as for a missing address. */
  function AddressOf(data: JsValue): (addr: JsValue)
    ensures !data.Object? ==> addr == Undefined
  {
    match data
    case Object(fields) => Get(fields, "address")
    case _ => Undefined
  }

  /** `reverseGeocode`: every failure (network, a response that is not ok,
      a body that is not JSON, an address that is undefined or null) ends in
      the catch and gives "Local Area"; an address that is not an object has
      none of the fields and gives "Unknown Area". */
  function ReverseGeocode(reply: GeocodeReply): (area: JsValue)
    ensures Truthy(area)
    ensures reply.NetworkError? || !reply.ok || reply.body.None? ==> area == LocalArea
    ensures reply.Response? && reply.ok && reply.body.Some? ==>
      var addr := AddressOf(reply.body.value);
      (addr.Undefined? || addr.Null? ==> area == LocalArea)
      && (addr.Object? ==> area == Locality(addr.fields))
      && (!addr.Undefined? && !addr.Null? && !addr.Object? ==> area == UnknownArea)
  {
    if reply.NetworkError? || !reply.ok || reply.body.None? then LocalArea
    else
      match AddressOf(reply.body.value)
      case Undefined => LocalArea
      case Null => LocalArea
      case Object(fields) => Locality(fields)
      case _ => UnknownArea
  }

  /** An address whose suburb is set is named by it, whatever else it holds. */
  lemma SuburbWins(address: JsObject)
    requires Truthy(Get(address, "suburb"))
    ensures Locality(address) == Get(address, "suburb")
  {
  }

  /** An address with none of the fields set is "Unknown Area". */
  lemma NoLocalityField(address: JsObject)
    requires forall k :: k in LocalityKeys ==> !Truthy(Get(address, k))
    ensures Locality(address) == UnknownArea
  {
    assert forall i :: 0 <= i < |LocalityKeys| ==> LocalityKeys[i] in LocalityKeys;
  }
}
