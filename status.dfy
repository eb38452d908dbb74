/**
 * The status codes of the Google Geocoding response and their parsing
 * (Status.kt).
 */
module GoogleStatus {
  import opened Wrappers

  /** The six constants of the Kotlin enum, in declaration order. */
  datatype Status = Ok | ZeroResults | OverQueryLimit | RequestDenied | InvalidRequest | UnknownError

  const AllStatuses: seq<Status> := [Ok, ZeroResults, OverQueryLimit, RequestDenied, InvalidRequest, UnknownError]

  /** `Enum.name()`: the constant's identifier as written in the enum. */
  function Name(s: Status): string {
    match s
    case Ok => "OK"
    case ZeroResults => "ZERO_RESULTS"
    case OverQueryLimit => "OVER_QUERY_LIMIT"
    case RequestDenied => "REQUEST_DENIED"
    case InvalidRequest => "INVALID_REQUEST"
    case UnknownError => "UNKNOWN_ERROR"
  }

  /**
   * `Status.valueOf(s)`: the constant whose name is exactly `s` (case-sensitive);
   * `None` stands for the IllegalArgumentException it throws otherwise.
   */
  function ValueOf(s: string): (r: Option<Status>)
    ensures r.Some? ==> Name(r.value) == s
    ensures r.None? ==> forall st :: Name(st) != s
  {
    match s
    case "OK" => Some(Ok)
    case "ZERO_RESULTS" => Some(ZeroResults)
    case "OVER_QUERY_LIMIT" => Some(OverQueryLimit)
    case "REQUEST_DENIED" => Some(RequestDenied)
    case "INVALID_REQUEST" => Some(InvalidRequest)
    case "UNKNOWN_ERROR" => Some(UnknownError)
    case _ => None
  }

  /**
   * `Status.fromString`: null and "" give UNKNOWN_ERROR, an exact constant name
   * gives that constant, and any other string (another letter case included)
   * gives UNKNOWN_ERROR; it never throws.
   */
  function FromString(status: Option<string>): (r: Status)
    ensures status == None || status == Some("") ==> r == UnknownError
    ensures r != UnknownError ==> status == Some(Name(r))
    ensures forall st :: status == Some(Name(st)) ==> r == st
  {
    if status.None? || status.value == "" then UnknownError
    else ValueOf(status.value).GetOr(UnknownError)
  }

  /** Distinct constants have distinct names, so a name identifies its constant. */
  lemma {:induction false} NameInjective(a: Status, b: Status)
    requires Name(a) == Name(b)
    ensures a == b
  {
    match a
    case Ok =>
    case ZeroResults => assert Name(a)[0] == 'Z';
    case OverQueryLimit => assert Name(a)[1] == 'V';
    case RequestDenied => assert Name(a)[0] == 'R';
    case InvalidRequest => assert Name(a)[0] == 'I';
    case UnknownError => assert Name(a)[1] == 'N';
  }

  /** Round trip: parsing the name of any constant gives that constant back. */
  lemma NameRoundTrip(st: Status)
    ensures FromString(Some(Name(st))) == st
  {
  }

  /** A string that is no constant's name (for instance "ok") parses as UNKNOWN_ERROR. */
  lemma OtherStringsAreUnknown(s: string)
    requires forall st :: Name(st) != s
    ensures FromString(Some(s)) == UnknownError
  {
  }

  /** There are exactly six statuses, all distinct, and every status is one of them. */
  lemma SixStatuses(st: Status)
    ensures |AllStatuses| == 6 && st in AllStatuses
    ensures forall i, j :: 0 <= i < j < |AllStatuses| ==> AllStatuses[i] != AllStatuses[j]
  {
  }
}
