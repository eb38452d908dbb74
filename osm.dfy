/**
 * The OpenStreetMap (Nominatim) adapter: OSMAddress.kt / OSMAddress.java and
 * OpenStreetMaps.kt / OpenStreetMaps.java.
 *
 * The replies arrive already decoded by Gson into `OsmAddress` records (a
 * JSON null decodes to `None`); the download and the decoding are the
 * parameters `searchReply` and `reverseReply`.
 */
module Osm {
  import opened Wrappers
  import opened Throwables
  import opened Model
  import opened Transport
  import opened Engine

  const ApiName := "Open Street Maps Api"

  /** The nested "address" object of a Nominatim reply. */
  datatype OsmAddressDetail = OsmAddressDetail(
    country: Option<string>,
    countryCode: Option<string>,
    city: Option<string>,
    county: Option<string>,
    postcode: Option<string>,
    neighbourhood: Option<string>,
    suburb: Option<string>,
    state: Option<string>)

  /** A "lat" or "lon" string: one that `toDouble`/`parseDouble` reads as a number, or one it rejects. */
  datatype Coordinate = Numeric(number: real) | NotNumeric(text: string)

  /** One Nominatim place. */
  datatype OsmAddress = OsmAddress(
    boundingbox: Option<seq<string>>,
    address: Option<OsmAddressDetail>,
    lon: Option<Coordinate>,
    lat: Option<Coordinate>,
    displayName: Option<string>,
    placeType: Option<string>)

  /** `String.toDouble()` / `Double.parseDouble` on a non-null string. */
  function ToDouble(c: Coordinate): (r: Result<real>)
    ensures c.Numeric? ==> r == Success(c.number)
    ensures c.NotNumeric? ==> r == Failure(NumberFormat(c.text))
  {
    match c
    case Numeric(x) => Success(x)
    case NotNumeric(s) => Failure(NumberFormat(s))
  }

  /** The detail member that feeds an address field, for the five fields the mapping fills. */
  function DetailValue(d: OsmAddressDetail, c: Component): Option<string> {
    match c
    case Country => d.country
    case AdministrativeAreaLevel2 => d.city
    case AdministrativeAreaLevel1 => d.state
    case Neighborhood => d.neighbourhood
    case PostalCode => d.postcode
    case _ => None
  }

  /** The five address fields the detail fills. */
  predicate FromDetail(c: Component) {
    c == Country || c == AdministrativeAreaLevel2 || c == AdministrativeAreaLevel1 || c == Neighborhood || c == PostalCode
  }

  /** The five address fields taken from the nested detail; none without a detail. */
  function DetailFields(d: Option<OsmAddressDetail>): (m: map<Component, string>)
    ensures forall c :: c in m <==> FromDetail(c) && d.Some? && DetailValue(d.value, c).Some?
    ensures forall c :: c in m ==> m[c] == DetailValue(d.value, c).value
  {
    if d.None? then map[]
    else map c | c in {Country, AdministrativeAreaLevel2, AdministrativeAreaLevel1, Neighborhood, PostalCode}
                 && DetailValue(d.value, c).Some? :: DetailValue(d.value, c).value
  }

  /**
   * `getAddress`. Kotlin reads the nested detail null-safely and converts
   * `lon?.toDouble()` before `lat?.toDouble()`; Java dereferences the detail
   * and calls `Double.parseDouble(lon)` then `(lat)`, so a null is a
   * NullPointerException there.
   */
  function GetAddress(variant: Variant, o: OsmAddress): Result<Address> {
    match variant
    case Kotlin =>
      var longitude :- if o.lon.Some? then (var x :- ToDouble(o.lon.value); Success(Some(x))) else Success(None);
      var latitude :- if o.lat.Some? then (var x :- ToDouble(o.lat.value); Success(Some(x))) else Success(None);
      Success(Address(o.displayName, DetailFields(o.address), Some(Location(latitude, longitude)), None, None, None))
    case Java =>
      if o.address.None? then Failure(NullPointer(None))
      else
        var longitude :- if o.lon.Some? then ToDouble(o.lon.value) else Failure(NullPointer(None));
        var latitude :- if o.lat.Some? then ToDouble(o.lat.value) else Failure(NullPointer(None));
        Success(Address(o.displayName, DetailFields(o.address), Some(Location(Some(latitude), Some(longitude))), None, None, None))
  }

  /**
   * The field mapping of `getAddress`: country, city as level 2, state as
   * level 1, neighbourhood and postcode, display_name as the formatted
   * address, and a location always present; every other field is null and
   * county, suburb, country_code, boundingbox and type are dropped.
   */
  lemma AddressMapping(variant: Variant, o: OsmAddress)
    requires GetAddress(variant, o).Success?
    ensures var a := GetAddress(variant, o).value;
            var d := o.address;
            && a.formattedAddress == o.displayName
            && Get(a, Country) == (if d.Some? then d.value.country else None)
            && Get(a, AdministrativeAreaLevel2) == (if d.Some? then d.value.city else None)
            && Get(a, AdministrativeAreaLevel1) == (if d.Some? then d.value.state else None)
            && Get(a, Neighborhood) == (if d.Some? then d.value.neighbourhood else None)
            && Get(a, PostalCode) == (if d.Some? then d.value.postcode else None)
            && (forall c :: c !in {Country, AdministrativeAreaLevel2, AdministrativeAreaLevel1, Neighborhood, PostalCode} ==> Get(a, c).None?)
            && a.location.Some? && a.locationType.None? && a.viewport.None? && a.bounds.None?
  {
  }

  /**
   * The two twins on the edge cases. Kotlin accepts an absent detail and
   * absent coordinates (the location then holds nulls); Java fails with a
   * NullPointerException on a null detail, then on a null lon, then on a
   * null lat. A coordinate that is not a number fails in both, longitude
   * first.
   */
  lemma NullHandling(o: OsmAddress)
    ensures o.address.None? ==> GetAddress(Java, o) == Failure(NullPointer(None))
    ensures o.address.Some? && o.lon.None? ==> GetAddress(Java, o) == Failure(NullPointer(None))
    ensures o.address.Some? && o.lon.Some? && o.lon.value.Numeric? && o.lat.None? ==>
              GetAddress(Java, o) == Failure(NullPointer(None))
    ensures GetAddress(Java, o).Success? <==>
              o.address.Some? && o.lon.Some? && o.lon.value.Numeric? && o.lat.Some? && o.lat.value.Numeric?
    ensures GetAddress(Java, o).Success? ==>
              GetAddress(Java, o).value.location == Some(Location(Some(o.lat.value.number), Some(o.lon.value.number)))
    ensures GetAddress(Kotlin, o).Success? <==>
              (o.lon.None? || o.lon.value.Numeric?) && (o.lat.None? || o.lat.value.Numeric?)
    ensures GetAddress(Kotlin, o).Success? ==>
              GetAddress(Kotlin, o).value.location ==
                Some(Location(if o.lat.Some? then Some(o.lat.value.number) else None,
                              if o.lon.Some? then Some(o.lon.value.number) else None))
    ensures o.lon.Some? && o.lon.value.NotNumeric? ==>
              GetAddress(Kotlin, o) == Failure(NumberFormat(o.lon.value.text)) &&
              (o.address.Some? ==> GetAddress(Java, o) == Failure(NumberFormat(o.lon.value.text)))
    ensures (o.lon.None? || o.lon.value.Numeric?) && o.lat.Some? && o.lat.value.NotNumeric? ==>
              GetAddress(Kotlin, o) == Failure(NumberFormat(o.lat.value.text))
    ensures o.address.Some? && o.lon.Some? && o.lon.value.Numeric? && o.lat.Some? && o.lat.value.NotNumeric? ==>
              GetAddress(Java, o) == Failure(NumberFormat(o.lat.value.text))
  {
  }

  /** One element of a decoded list: a null element is a NullPointerException. */
  function ConvertOne(variant: Variant, element: Option<OsmAddress>): Result<Address> {
    if element.None? then Failure(NullPointer(None)) else GetAddress(variant, element.value)
  }

  /** Kotlin's `convert`, `map { it.getAddress() }`: element by element, the first failure ends it. */
  function Convert(variant: Variant, places: seq<Option<OsmAddress>>): Result<seq<Address>> {
    MapResult((p: Option<OsmAddress>) => ConvertOne(variant, p), places)
  }

  /** `convert` keeps length and order: element `i` is the address of place `i`, and a failure is the first element's that fails. */
  lemma ConvertElementwise(variant: Variant, places: seq<Option<OsmAddress>>)
    ensures var r := Convert(variant, places);
            && (r.Success? ==> (|r.value| == |places| &&
                  forall i :: 0 <= i < |places| ==> ConvertOne(variant, places[i]) == Success(r.value[i])))
            && (r.Failure? ==> exists i :: 0 <= i < |places| && ConvertOne(variant, places[i]) == Failure(r.error)
                                 && forall j :: 0 <= j < i ==> ConvertOne(variant, places[j]).Success?)
  {
    var f := (p: Option<OsmAddress>) => ConvertOne(variant, p);
    MapResultElementwise(f, places);
    if Convert(variant, places).Failure? {
      MapResultFirstFailure(f, places);
    }
  }

  /** Java's `convert`: the loop that appends `getAddress()` of each element. */
  method ConvertLoop(places: seq<Option<OsmAddress>>) returns (r: Result<seq<Address>>)
    ensures r == Convert(Java, places)
  {
    var newAddresses: seq<Address> := [];
    var i := 0;
    ghost var f := (p: Option<OsmAddress>) => ConvertOne(Java, p);
    while i < |places|
      invariant 0 <= i <= |places|
      invariant MapResult(f, places[..i]) == Success(newAddresses)
    {
      assert places[..i + 1][..i] == places[..i];
      var address := ConvertOne(Java, places[i]);
      if address.Failure? {
        MapResultFailureStops(f, places, i + 1, |places|);
        assert places[..|places|] == places;
        return Failure(address.error);
      }
      newAddresses := newAddresses + [address.value];
      i := i + 1;
    }
    assert places[..i] == places;
    r := Success(newAddresses);
  }

  // ---------------------------------------------------------------------------
  // Requests

  const KotlinSearchEndpoint := "http://nominatim.openstreetmap.org/search"
  const KotlinReverseEndpoint := "http://nominatim.openstreetmap.org/reverse"

  /** Kotlin's base requests: format=json, then addressdetails=1. */
  function KotlinBase(endpoint: string): Url {
    Url(endpoint, [Param("format", Text("json")), Param("addressdetails", Whole(1))])
  }

  /** Kotlin's `locationCall` request: q, then limit. */
  function KotlinSearchRequest(locationName: string, maxResults: int): Url {
    KotlinBase(KotlinSearchEndpoint).Append("q", Text(locationName)).Append("limit", Whole(maxResults))
  }

  /** Kotlin's `coordinateCall` request: limit, lat, lon. */
  function KotlinReverseRequest(latitude: real, longitude: real, maxResults: int): Url {
    KotlinBase(KotlinReverseEndpoint).Append("limit", Whole(maxResults))
      .Append("lat", Reals([latitude])).Append("lon", Reals([longitude]))
  }

  /** Kotlin's `locationCallWithBounds` request: limit, q, and the box as lower-left lon/lat, upper-right lon/lat. */
  function KotlinBoundedRequest(locationName: string, maxResults: int,
                                lowerLeftLatitude: real, lowerLeftLongitude: real,
                                upperRightLatitude: real, upperRightLongitude: real): Url {
    KotlinBase(KotlinSearchEndpoint).Append("limit", Whole(maxResults)).Append("q", Text(locationName))
      .Append("viewboxlbrt", Reals([lowerLeftLongitude, lowerLeftLatitude, upperRightLongitude, upperRightLatitude]))
  }

  /** Java's search URL: the name in the path, then format=json and addressdetails=1. */
  function JavaSearchRequest(locationName: string): Url {
    Url("http://nominatim.openstreetmap.org/search/" + locationName,
        [Param("format", Text("json")), Param("addressdetails", Whole(1))])
  }

  /** Java's reverse URL: lat, then lon, then format=json (and no addressdetails). */
  function JavaReverseRequest(latitude: real, longitude: real): Url {
    Url("http://nominatim.openstreetmap.org/reverse",
        [Param("lat", Reals([latitude])), Param("lon", Reals([longitude])), Param("format", Text("json"))])
  }

  /**
   * The query layouts: every Kotlin request starts with format=json and
   * addressdetails=1; the box is sent longitude first; Java's reverse request
   * sends latitude before longitude and asks for no address details.
   */
  lemma RequestLayouts(locationName: string, maxResults: int, latitude: real, longitude: real,
                       llLat: real, llLon: real, urLat: real, urLon: real)
    ensures forall u :: u in [KotlinSearchRequest(locationName, maxResults), KotlinReverseRequest(latitude, longitude, maxResults),
                              KotlinBoundedRequest(locationName, maxResults, llLat, llLon, urLat, urLon)] ==>
              u.query[..2] == [Param("format", Text("json")), Param("addressdetails", Whole(1))]
    ensures KotlinBoundedRequest(locationName, maxResults, llLat, llLon, urLat, urLon).query[4] ==
            Param("viewboxlbrt", Reals([llLon, llLat, urLon, urLat]))
    ensures JavaReverseRequest(latitude, longitude).query[..2] == [Param("lat", Reals([latitude])), Param("lon", Reals([longitude]))]
    ensures forall i :: 0 <= i < |JavaReverseRequest(latitude, longitude).query| ==>
              JavaReverseRequest(latitude, longitude).query[i].key != "addressdetails"
  {
  }

  // ---------------------------------------------------------------------------
  // Calls

  /** The reverse request each twin sends; only Kotlin's carries `maxResults`. */
  function ReverseRequest(variant: Variant, latitude: real, longitude: real, maxResults: int): Url {
    if variant == Kotlin then KotlinReverseRequest(latitude, longitude, maxResults)
    else JavaReverseRequest(latitude, longitude)
  }

  /**
   * `coordinateCall`: the one place decoded from the reply to the twin's
   * reverse request, wrapped in a list of one; a failed download or decoding
   * passes through.
   */
  function CoordinateCall(variant: Variant, reverseReply: Url -> Result<Option<OsmAddress>>,
                          latitude: real, longitude: real, maxResults: int): (r: Result<seq<Option<OsmAddress>>>)
    ensures var reply := reverseReply(ReverseRequest(variant, latitude, longitude, maxResults));
            && (reply.Success? ==> r == Success([reply.value]))
            && (reply.Failure? ==> r == Failure(reply.error))
    ensures r.Success? ==> |r.value| == 1
  {
    var place :- reverseReply(ReverseRequest(variant, latitude, longitude, maxResults));
    Success([place])
  }

  /** `locationCall`: the decoded list as it is. */
  function LocationCall(variant: Variant, searchReply: Url -> Result<seq<Option<OsmAddress>>>,
                        locationName: string, maxResults: int): Result<seq<Option<OsmAddress>>> {
    searchReply(if variant == Kotlin then KotlinSearchRequest(locationName, maxResults) else JavaSearchRequest(locationName))
  }

  /**
   * The adapter as one of the engine's providers. `maxResults` only fills
   * Kotlin's `limit` parameter.
   */
  function AsProvider(variant: Variant, maxResults: int,
                      searchReply: Url -> Result<seq<Option<OsmAddress>>>,
                      reverseReply: Url -> Result<Option<OsmAddress>>): Provider<seq<Option<OsmAddress>>> {
    Provider(ApiName,
             (locationName: string) => LocationCall(variant, searchReply, locationName, maxResults),
             (latitude: real, longitude: real) => CoordinateCall(variant, reverseReply, latitude, longitude, maxResults),
             (places: seq<Option<OsmAddress>>) => Convert(variant, places))
  }

  /**
   * A reverse lookup through the engine's view of the provider gives at most
   * one address: the converted single place. The provider reports its name
   * to the switch policy as "Open Street Maps Api".
   */
  lemma ReverseGivesOne(variant: Variant, maxResults: int,
                        searchReply: Url -> Result<seq<Option<OsmAddress>>>,
                        reverseReply: Url -> Result<Option<OsmAddress>>, latitude: real, longitude: real)
    requires Validate(ByCoordinate(latitude, longitude)).None?
    ensures var r := Converted(AsProvider(variant, maxResults, searchReply, reverseReply), ByCoordinate(latitude, longitude));
            var reply := reverseReply(ReverseRequest(variant, latitude, longitude, maxResults));
            && (r.Success? ==> |r.value| == 1)
            && (reply.Success? && ConvertOne(variant, reply.value).Success? ==> r == Success([ConvertOne(variant, reply.value).value]))
            && (reply.Success? && ConvertOne(variant, reply.value).Failure? ==> r == Failure(ConvertOne(variant, reply.value).error))
            && (reply.Failure? ==> r == Failure(reply.error))
    ensures AsProvider(variant, maxResults, searchReply, reverseReply).name == "Open Street Maps Api"
  {
    var p := AsProvider(variant, maxResults, searchReply, reverseReply);
    var places := CoordinateCall(variant, reverseReply, latitude, longitude, maxResults);
    if places.Success? {
      ConvertElementwise(variant, places.value);
      var r := Convert(variant, places.value);
      if r.Success? {
        assert r.value == [r.value[0]];
      }
    }
  }
}
