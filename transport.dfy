/**
 * The requests the providers hand to a Downloader, as data: an endpoint and
 * the query parameters in the order they are appended. How a URL is rendered
 * as text (percent-encoding, the printing of doubles) is not modelled.
 */
module Transport {

  /** The value of one query parameter. */
  datatype ParamValue =
      /** A string as given. */
    | Text(text: string)
      /** An Int printed in decimal. */
    | Whole(number: int)
      /** Doubles joined by commas, such as "lat,lng". */
    | Reals(numbers: seq<real>)
      /** Google's bounds format "swLat,swLng|neLat,neLng". */
    | Box(southwestLatitude: real, southwestLongitude: real, northeastLatitude: real, northeastLongitude: real)

  datatype Param = Param(key: string, value: ParamValue)

  datatype Url = Url(endpoint: string, query: seq<Param>) {

    /** `appendQueryParameter(key, value)`: the parameter goes last. */
    function Append(key: string, value: ParamValue): (u: Url)
      ensures u.endpoint == endpoint && u.query == query + [Param(key, value)]
    {
      Url(endpoint, query + [Param(key, value)])
    }
  }
}
