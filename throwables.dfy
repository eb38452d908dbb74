/**
 * The exceptions that travel through the geocoder, as values, and the
 * operations of GoogleMapsException.java on them.
 *
 * An exception object is never changed after it is thrown, so the setters
 * of GoogleMapsException (used once, right after `forStatus`) become
 * functional updates.
 */
module Throwables {
  import opened Wrappers
  import opened GoogleStatus

  /** Why the engine rejected its arguments (the three IllegalArgumentExceptions). */
  datatype ArgumentFault =
    | LatitudeOutOfRange(latitude: real)
    | LongitudeOutOfRange(longitude: real)
    | NullLocationName

  datatype Throwable =
      /** java.lang.IllegalArgumentException thrown by the engine's validation. */
    | IllegalArgument(fault: ArgumentFault)
      /** org.json.JSONException. */
    | JsonException(message: string)
      /** `Exception(cause)`: a plain java.lang.Exception wrapping a cause. */
    | PlainException(wrapped: Throwable)
      /** GoogleMapsException with its two mutable fields and its cause. */
    | GoogleMapsException(status: Option<Status>, errorMessage: Option<string>, cause: Option<Throwable>)
      /** RetriableException: the marker of a failure worth retrying. */
    | RetriableException(detail: Option<string>, cause: Option<Throwable>)
      /** java.io.IOException from a Downloader. */
    | IoException(message: string)
      /** java.lang.NullPointerException (a null dereference, `!!`, or a null passed where one is refused). */
    | NullPointer(detail: Option<string>)
      /** java.lang.NumberFormatException from `toDouble`/`parseDouble` of a non-numeric string. */
    | NumberFormat(input: string)
      /** IllegalArgumentException of `ArrayList(initialCapacity)` for a negative capacity. */
    | IllegalCapacity(capacity: int)
      /** Any other failure of a provider the model treats as abstract. */
    | ProviderFailure(message: string)

  /** A computation that returns a value or throws. */
  datatype Result<+T> = Success(value: T) | Failure(error: Throwable) {

    predicate IsFailure() {
      Failure?
    }

    function PropagateFailure<U>(): Result<U>
      requires Failure?
    {
      Failure(error)
    }

    function Extract(): T
      requires Success?
    {
      value
    }
  }

  /** Applying a throwing function to each element in order: the first failure ends it. */
  function MapResult<T, U>(f: T -> Result<U>, xs: seq<T>): (r: Result<seq<U>>)
    decreases |xs|
  {
    if xs == [] then Success([])
    else
      var before :- MapResult(f, xs[..|xs| - 1]);
      var y :- f(xs[|xs| - 1]);
      Success(before + [y])
  }

  /** A successful map keeps length and order. */
  lemma {:induction false} MapResultElementwise<T, U>(f: T -> Result<U>, xs: seq<T>)
    ensures MapResult(f, xs).Success? <==> forall i :: 0 <= i < |xs| ==> f(xs[i]).Success?
    ensures MapResult(f, xs).Success? ==>
              |MapResult(f, xs).value| == |xs| && forall i :: 0 <= i < |xs| ==> f(xs[i]) == Success(MapResult(f, xs).value[i])
    decreases |xs|
  {
    if xs != [] {
      var n := |xs|;
      MapResultElementwise(f, xs[..n - 1]);
      assert forall i :: 0 <= i < n - 1 ==> xs[..n - 1][i] == xs[i];
    }
  }

  /** A failed map fails with the error of the first element that fails. */
  lemma {:induction false} MapResultFirstFailure<T, U>(f: T -> Result<U>, xs: seq<T>)
    requires MapResult(f, xs).Failure?
    ensures exists i :: 0 <= i < |xs| && f(xs[i]) == Failure(MapResult(f, xs).error)
                        && forall j :: 0 <= j < i ==> f(xs[j]).Success?
    decreases |xs|
  {
    var n := |xs|;
    var prefix := xs[..n - 1];
    assert forall j :: 0 <= j < n - 1 ==> prefix[j] == xs[j];
    if MapResult(f, prefix).Failure? {
      MapResultFirstFailure(f, prefix);
    } else {
      MapResultElementwise(f, prefix);
      assert f(xs[n - 1]) == Failure(MapResult(f, xs).error);
    }
  }

  /** Once an element fails, the later ones are never reached. */
  lemma {:induction false} MapResultFailureStops<T, U>(f: T -> Result<U>, xs: seq<T>, i: nat, n: nat)
    requires i <= n <= |xs|
    requires MapResult(f, xs[..i]).Failure?
    ensures MapResult(f, xs[..n]) == MapResult(f, xs[..i])
    decreases n
  {
    if n > i {
      MapResultFailureStops(f, xs, i, n - 1);
      assert xs[..n][..n - 1] == xs[..n - 1];
    }
  }

  const GoogleMapsExceptionClass := "com.prolificinteractive.geocoder.api.googlemaps.GoogleMapsException"

  /** The runtime class name that `Throwable.toString` starts with. */
  function ClassName(t: Throwable): string {
    match t
    case IllegalArgument(_) => "java.lang.IllegalArgumentException"
    case JsonException(_) => "org.json.JSONException"
    case PlainException(_) => "java.lang.Exception"
    case GoogleMapsException(_, _, _) => GoogleMapsExceptionClass
    case RetriableException(_, _) => "com.prolificinteractive.geocoder.RetriableException"
    case IoException(_) => "java.io.IOException"
    case NullPointer(_) => "java.lang.NullPointerException"
    case NumberFormat(_) => "java.lang.NumberFormatException"
    case IllegalCapacity(_) => "java.lang.IllegalArgumentException"
    case ProviderFailure(_) => "java.lang.Exception"
  }

  /** Decimal text of a natural number. */
  function NatText(n: nat): (s: string)
    ensures |s| > 0
  {
    var digit := ['0' + (n % 10) as char];
    if n < 10 then digit else NatText(n / 10) + digit
  }

  function IntText(n: int): string {
    if n < 0 then "-" + NatText(-n) else NatText(n)
  }

  /**
   * `toString()` of any throwable: GoogleMapsException's override, else the
   * class name followed by ": " and the message when there is one.
   */
  function Describe(t: Throwable): (s: string)
    decreases t, 1
  {
    match t
    case GoogleMapsException(_, _, _) => MapsToString(t)
    case _ =>
      var message := DetailMessage(t);
      if message.Some? then ClassName(t) + ": " + message.value else ClassName(t)
  }

  /** `getMessage()` of the throwables that do not override `toString`. */
  function DetailMessage(t: Throwable): Option<string>
    requires !t.GoogleMapsException?
    decreases t, 0
  {
    match t
    case IllegalArgument(f) => Some(
      match f
      // The rendering of the rejected coordinate after "== " is not modelled.
      case LatitudeOutOfRange(_) => "latitude == "
      case LongitudeOutOfRange(_) => "longitude == "
      case NullLocationName => "locationName == null")
    case JsonException(m) => Some(m)
    case PlainException(c) => Some(Describe(c))
    case RetriableException(m, _) => m
    case IoException(m) => Some(m)
    case NullPointer(m) => m
    case NumberFormat(s) => Some("For input string: \"" + s + "\"")
    case IllegalCapacity(n) => Some("Illegal Capacity: " + IntText(n))
    case ProviderFailure(m) => Some(m)
  }

  /** `GoogleMapsException.forStatus`: the status set, no error message, no cause. */
  function ForStatus(status: Status): (e: Throwable)
    ensures e.GoogleMapsException? && e.status == Some(status)
    ensures e.errorMessage.None? && e.cause.None?
  {
    GoogleMapsException(Some(status), None, None)
  }

  /** `new GoogleMapsException(cause)`: no status, no error message, the cause kept. */
  function WrapCause(cause: Throwable): (e: Throwable)
    ensures e.GoogleMapsException? && e.cause == Some(cause)
    ensures e.status.None? && e.errorMessage.None?
  {
    GoogleMapsException(None, None, Some(cause))
  }

  /** `setErrorMessage`: replaces the error message and keeps status and cause. */
  function WithErrorMessage(e: Throwable, message: string): (r: Throwable)
    requires e.GoogleMapsException?
    ensures r.GoogleMapsException? && r.errorMessage == Some(message)
    ensures r.status == e.status && r.cause == e.cause
  {
    e.(errorMessage := Some(message))
  }

  /**
   * `GoogleMapsException.toString`: the error message when it is non-null and
   * non-empty, else the status name, else the cause's string, else
   * `Throwable.toString` (the bare class name, as such an exception has no message).
   */
  function MapsToString(e: Throwable): (s: string)
    requires e.GoogleMapsException?
    decreases e, 0
  {
    if e.errorMessage.Some? && e.errorMessage.value != "" then e.errorMessage.value
    else if e.status.Some? then Name(e.status.value)
    else if e.cause.Some? then Describe(e.cause.value)
    else GoogleMapsExceptionClass
  }

  /** `isCausedByNetworkError`: the cause is an IOException. */
  predicate IsCausedByNetworkError(e: Throwable)
    requires e.GoogleMapsException?
  {
    e.cause.Some? && e.cause.value.IoException?
  }

  /** Every throwable's string is non-empty; for the override this needs the cause's. */
  lemma {:induction false} DescribeNonEmpty(t: Throwable)
    ensures Describe(t) != ""
    decreases t
  {
    if t.GoogleMapsException? && !(t.errorMessage.Some? && t.errorMessage.value != "") && t.status.None? && t.cause.Some? {
      DescribeNonEmpty(t.cause.value);
    }
  }

  /**
   * The string of a GoogleMapsException follows its priority order: a non-empty
   * message wins, else the status name, else the cause; and it is never empty.
   */
  lemma MapsToStringPriority(e: Throwable)
    requires e.GoogleMapsException?
    ensures e.errorMessage.Some? && e.errorMessage.value != "" ==> MapsToString(e) == e.errorMessage.value
    ensures (e.errorMessage.None? || e.errorMessage.value == "") && e.status.Some? ==> MapsToString(e) == Name(e.status.value)
    ensures (e.errorMessage.None? || e.errorMessage.value == "") && e.status.None? && e.cause.Some? ==>
              MapsToString(e) == Describe(e.cause.value)
    ensures MapsToString(e) != ""
  {
    DescribeNonEmpty(e);
  }

  /**
   * Round trip between `forStatus`, `toString` and `Status.fromString`: the
   * string of an exception made for a status parses back to that status, and an
   * empty error message set on it does not change this.
   */
  lemma ForStatusRoundTrip(status: Status, message: Option<string>)
    requires message == None || message == Some("")
    ensures var e := if message.Some? then WithErrorMessage(ForStatus(status), message.value) else ForStatus(status);
            FromString(Some(MapsToString(e))) == status
  {
    NameRoundTrip(status);
  }

  /** Only an IOException cause makes `isCausedByNetworkError` true; `forStatus` exceptions never are. */
  lemma NetworkErrorOnlyFromIo(e: Throwable, status: Status)
    requires e.GoogleMapsException?
    ensures IsCausedByNetworkError(e) <==> exists m :: e.cause == Some(IoException(m))
    ensures !IsCausedByNetworkError(ForStatus(status))
  {
  }
}
