/**
 * The Google Maps adapter (GoogleMaps.kt and its Java twin GoogleMaps.java):
 * the requests it sends, the parsing of the replies, and the classification
 * of an OVER_QUERY_LIMIT reply as worth retrying.
 *
 * The download is a parameter `download` from a request to the decoded reply
 * or to the exception the Downloader threw.
 */
module GoogleMaps {
  import opened Wrappers
  import opened GoogleStatus
  import opened Throwables
  import opened Model
  import opened Json
  import opened Transport
  import opened GoogleParser
  import opened Engine

  const ApiName := "Google Maps Api"
  const Endpoint := "https://maps.googleapis.com/maps/api/geocode/json"

  /** `MAX_RESULTS`: Kotlin asks for every result with -1, Java for at most 5. */
  function MaxResults(variant: Variant): int {
    match variant
    case Kotlin => -1
    case Java => 5
  }

  /** `buildBaseRequestUri`: the endpoint, with the API key only when it is non-null and non-empty. */
  function BaseRequest(apiKey: Option<string>): (u: Url)
    ensures u.endpoint == Endpoint
    ensures (exists i :: 0 <= i < |u.query| && u.query[i].key == "key") <==> apiKey.Some? && apiKey.value != ""
    ensures forall i :: 0 <= i < |u.query| && u.query[i].key == "key" ==> u.query[i].value == Text(apiKey.value)
  {
    var u := Url(Endpoint, []);
    if apiKey.Some? && apiKey.value != "" then
      var keyed := u.Append("key", Text(apiKey.value));
      assert keyed.query[0].key == "key";
      keyed
    else u
  }

  /** The request of `locationCall`. */
  function LocationRequest(apiKey: Option<string>, locationName: string): Url {
    BaseRequest(apiKey).Append("address", Text(locationName))
  }

  /** The request of `coordinateCall`: "latlng" is latitude then longitude. */
  function CoordinateRequest(apiKey: Option<string>, latitude: real, longitude: real): Url {
    BaseRequest(apiKey).Append("latlng", Reals([latitude, longitude]))
  }

  /** The request of Kotlin's `locationCallWithBounds`. */
  function BoundedRequest(apiKey: Option<string>, locationName: string,
                          lowerLeftLatitude: real, lowerLeftLongitude: real,
                          upperRightLatitude: real, upperRightLongitude: real): Url {
    BaseRequest(apiKey).Append("address", Text(locationName))
      .Append("bounds", Box(lowerLeftLatitude, lowerLeftLongitude, upperRightLatitude, upperRightLongitude))
  }

  /** Every request keeps the key rule and puts its own parameter last. */
  lemma RequestLayout(apiKey: Option<string>, locationName: string, latitude: real, longitude: real)
    ensures var u := LocationRequest(apiKey, locationName);
            u.endpoint == Endpoint && u.query[|u.query| - 1] == Param("address", Text(locationName))
            && |u.query| == if apiKey.Some? && apiKey.value != "" then 2 else 1
    ensures var u := CoordinateRequest(apiKey, latitude, longitude);
            u.endpoint == Endpoint && u.query[|u.query| - 1] == Param("latlng", Reals([latitude, longitude]))
            && |u.query| == if apiKey.Some? && apiKey.value != "" then 2 else 1
  {
  }

  /** True for the exception the catch blocks turn into a RetriableException. */
  predicate OverQueryLimit(e: Throwable) {
    e.GoogleMapsException? && e.status == Some(GoogleStatus.OverQueryLimit)
  }

  /**
   * The catch blocks as written: OVER_QUERY_LIMIT becomes
   * `RetriableException(e.toString())`, built from a message and so without a
   * cause; every other exception is rethrown.
   */
  function ClassifyAsWritten(e: Throwable): (r: Throwable)
    ensures r.RetriableException? <==> OverQueryLimit(e) || e.RetriableException?
    ensures OverQueryLimit(e) ==> r.detail == Some(MapsToString(e)) && r.cause.None?
    ensures !OverQueryLimit(e) ==> r == e
  {
    if OverQueryLimit(e) then RetriableException(Some(MapsToString(e)), None) else e
  }

  /**
   * The classification with the cause kept, `RetriableException(e)`: the same
   * message (a Throwable built from a cause takes the cause's string as its
   * message) and the GoogleMapsException as the cause.
   */
  function Classify(e: Throwable): (r: Throwable)
    ensures r.RetriableException? <==> OverQueryLimit(e) || e.RetriableException?
    ensures OverQueryLimit(e) ==> r.detail == Some(MapsToString(e)) && r.cause == Some(e)
    ensures !OverQueryLimit(e) ==> r == e
  {
    if OverQueryLimit(e) then RetriableException(Some(Describe(e)), Some(e)) else e
  }

  /**
   * A call after its request is built: the download's failure passes
   * through (it is thrown before the `try`), the reply is parsed with
   * `MAX_RESULTS` and components on, and a GoogleMapsException from the
   * parser goes through `classify`, the catch block.
   */
  function Answer(variant: Variant, reply: Result<Document>, classify: Throwable -> Throwable): (r: Result<seq<Address>>)
    ensures reply.Failure? ==> r == Failure(reply.error)
  {
    var document :- reply;
    var parsed := ParseJson(variant, document, MaxResults(variant), true);
    if parsed.Failure? then Failure(classify(parsed.error)) else parsed
  }

  /** The three calls as written, with the cause-less RetriableException. */
  function Respond(variant: Variant, reply: Result<Document>): (r: Result<seq<Address>>)
    ensures reply.Failure? ==> r == Failure(reply.error)
  {
    Answer(variant, reply, ClassifyAsWritten)
  }

  /** The three calls with the cause kept. */
  function RespondCorrected(variant: Variant, reply: Result<Document>): (r: Result<seq<Address>>)
    ensures reply.Failure? ==> r == Failure(reply.error)
  {
    Answer(variant, reply, Classify)
  }

  /** `locationCall`. */
  function LocationCall(variant: Variant, apiKey: Option<string>, download: Url -> Result<Document>, locationName: string): Result<seq<Address>> {
    Respond(variant, download(LocationRequest(apiKey, locationName)))
  }

  /** `coordinateCall`. */
  function CoordinateCall(variant: Variant, apiKey: Option<string>, download: Url -> Result<Document>, latitude: real, longitude: real): Result<seq<Address>> {
    Respond(variant, download(CoordinateRequest(apiKey, latitude, longitude)))
  }

  /** Kotlin's `locationCallWithBounds`, which the engine never calls. */
  function LocationCallWithBounds(apiKey: Option<string>, download: Url -> Result<Document>, locationName: string,
                                  lowerLeftLatitude: real, lowerLeftLongitude: real,
                                  upperRightLatitude: real, upperRightLongitude: real): Result<seq<Address>> {
    Respond(Kotlin, download(BoundedRequest(apiKey, locationName, lowerLeftLatitude, lowerLeftLongitude,
                                            upperRightLatitude, upperRightLongitude)))
  }

  /** `convert`: the parsed list is already a list of addresses. */
  function Convert(addresses: seq<Address>): Result<seq<Address>> {
    Success(addresses)
  }

  /** The adapter as written, as one of the engine's providers. */
  function AsProvider(variant: Variant, apiKey: Option<string>, download: Url -> Result<Document>): Provider<seq<Address>> {
    Provider(ApiName,
             (locationName: string) => LocationCall(variant, apiKey, download, locationName),
             (latitude: real, longitude: real) => CoordinateCall(variant, apiKey, download, latitude, longitude),
             Convert)
  }

  /** The adapter with the cause kept, as one of the engine's providers. */
  function AsProviderCorrected(variant: Variant, apiKey: Option<string>, download: Url -> Result<Document>): Provider<seq<Address>> {
    Provider(ApiName,
             (locationName: string) => RespondCorrected(variant, download(LocationRequest(apiKey, locationName))),
             (latitude: real, longitude: real) => RespondCorrected(variant, download(CoordinateRequest(apiKey, latitude, longitude))),
             Convert)
  }

  /** The request the engine's query makes the adapter send. */
  function QueryRequest(apiKey: Option<string>, q: Query): Url
    requires Validate(q).None?
  {
    match q
    case ByName(name) => LocationRequest(apiKey, name.value)
    case ByCoordinate(latitude, longitude) => CoordinateRequest(apiKey, latitude, longitude)
  }

  /**
   * Classification of a reply as written: an OVER_QUERY_LIMIT response
   * becomes a RetriableException whose message is the exception's string
   * (the error_message, else "OVER_QUERY_LIMIT") and whose cause is null;
   * any other error status stays the GoogleMapsException the parser built.
   */
  lemma ReplyClassification(variant: Variant, document: Document, status: Status)
    requires HasStatus(document, status)
    ensures var r := Respond(variant, Success(document));
            var e := StatusFailure(status, document.root.fields);
            && (status == GoogleStatus.OverQueryLimit ==>
                  r == Failure(RetriableException(Some(MapsToString(e)), None)))
            && (status != Ok && status != ZeroResults && status != GoogleStatus.OverQueryLimit ==> r == Failure(e))
  {
    StatusDispatch(variant, document, MaxResults(variant), true, status);
  }

  /** The same classification with the cause kept: the RetriableException carries the GoogleMapsException. */
  lemma ReplyClassificationCorrected(variant: Variant, document: Document, status: Status)
    requires HasStatus(document, status)
    ensures var r := RespondCorrected(variant, Success(document));
            var e := StatusFailure(status, document.root.fields);
            && (status == GoogleStatus.OverQueryLimit ==>
                  r == Failure(RetriableException(Some(MapsToString(e)), Some(e))))
            && (status != Ok && status != ZeroResults && status != GoogleStatus.OverQueryLimit ==> r == Failure(e))
  {
    StatusDispatch(variant, document, MaxResults(variant), true, status);
  }

  /** Only OVER_QUERY_LIMIT is ever marked retriable: a retriable failure comes from a reply with that status. */
  lemma RetriableOnlyForQuota(variant: Variant, reply: Result<Document>)
    requires reply.Success? || !reply.error.RetriableException?
    requires Respond(variant, reply).Failure? && Respond(variant, reply).error.RetriableException?
    ensures reply.Success? && HasStatus(reply.value, GoogleStatus.OverQueryLimit)
  {
    var parsed := ParseJson(variant, reply.value, MaxResults(variant), true);
    StatusFailureOnlyFromStatus(variant, reply.value, MaxResults(variant), true);
  }

  /** Java returns at most five addresses; Kotlin returns every result of an OK reply. */
  lemma ResultLimits(variant: Variant, reply: Result<Document>)
    ensures variant == Java && Respond(variant, reply).Success? ==> |Respond(variant, reply).value| <= 5
    ensures variant == Kotlin && reply.Success? && HasStatus(reply.value, Ok) &&
            "results" in reply.value.root.fields && reply.value.root.fields["results"].JArray? &&
            Respond(variant, reply).Success? ==>
              |Respond(variant, reply).value| == |reply.value.root.fields["results"].items|
  {
    if reply.Success? {
      var d := reply.value;
      if d.Parsed? && d.root.JObject? && "status" in d.root.fields && d.root.fields["status"].JString? {
        var status := FromString(Some(d.root.fields["status"].text));
        StatusDispatch(variant, d, MaxResults(variant), true, status);
        if status == Ok && "results" in d.root.fields && d.root.fields["results"].JArray? {
          ResultsCount(variant, MaxResults(variant), true, d.root.fields);
        }
      }
    }
  }

  /** The provider's `convert` adds nothing: what the engine sees is the call's own result, under the name "Google Maps Api". */
  lemma ConvertIsIdentity(variant: Variant, apiKey: Option<string>, download: Url -> Result<Document>, q: Query)
    requires Validate(q).None?
    ensures Converted(AsProvider(variant, apiKey, download), q) ==
            match q
            case ByName(name) => LocationCall(variant, apiKey, download, name.value)
            case ByCoordinate(latitude, longitude) => CoordinateCall(variant, apiKey, download, latitude, longitude)
    ensures AsProvider(variant, apiKey, download).name == "Google Maps Api"
  {
  }

  // ---------------------------------------------------------------------------
  // Quota exhaustion through RetryWithDelay

  /**
   * As written, a quota error that persists ends with a NullPointerException:
   * the lookup through the adapter fails with a cause-less
   * RetriableException; `retryWhen` re-subscribes once after 2000 ms, the
   * same reply fails the same way, and `Flowable.error(null)` refuses the
   * null cause.
   */
  lemma QuotaExhaustionAsWritten(variant: Variant, apiKey: Option<string>, download: Url -> Result<Document>,
                                 policy: Option<SwitchPolicy>, q: Query)
    requires Validate(q).None?
    requires download(QueryRequest(apiKey, q)).Success?
    requires HasStatus(download(QueryRequest(apiKey, q)).value, GoogleStatus.OverQueryLimit)
    ensures var r := Lookup([AsProvider(variant, apiKey, download)], policy, q);
            && r.Failure? && r.error.RetriableException? && r.error.cause.None?
            && RetryRun(0, RetryMax, RetryDelayMillis, [r.error, r.error]) ==
               [Resubscribe(2000), Emit(NullPointer(Some("throwable is null")))]
  {
    var document := download(QueryRequest(apiKey, q)).value;
    ReplyClassification(variant, document, GoogleStatus.OverQueryLimit);
    var p := AsProvider(variant, apiKey, download);
    ProviderFailureAborts([p], policy, q, []);
    var r := Lookup([p], policy, q);
    OneRetry(r.error, r.error);
  }

  /**
   * With the cause kept, the caller receives the GoogleMapsException itself,
   * carrying OVER_QUERY_LIMIT, after the one retry.
   */
  lemma QuotaExhaustionSurfacesStatus(variant: Variant, apiKey: Option<string>, download: Url -> Result<Document>,
                                      policy: Option<SwitchPolicy>, q: Query)
    requires Validate(q).None?
    requires download(QueryRequest(apiKey, q)).Success?
    requires HasStatus(download(QueryRequest(apiKey, q)).value, GoogleStatus.OverQueryLimit)
    ensures var r := Lookup([AsProviderCorrected(variant, apiKey, download)], policy, q);
            var e := StatusFailure(GoogleStatus.OverQueryLimit, download(QueryRequest(apiKey, q)).value.root.fields);
            && r.Failure? && r.error.RetriableException?
            && RetryRun(0, RetryMax, RetryDelayMillis, [r.error, r.error]) == [Resubscribe(2000), Emit(e)]
            && e.GoogleMapsException? && e.status == Some(GoogleStatus.OverQueryLimit)
  {
    var document := download(QueryRequest(apiKey, q)).value;
    ReplyClassificationCorrected(variant, document, GoogleStatus.OverQueryLimit);
    var p := AsProviderCorrected(variant, apiKey, download);
    ProviderFailureAborts([p], policy, q, []);
    var r := Lookup([p], policy, q);
    OneRetry(r.error, r.error);
  }
}
