/**
 * The geocoding engine (Geocoder.kt and its Java twin Geocoder.java): the
 * argument checks, the pass over the providers in order, and the retry
 * decision of `RetryWithDelay`.
 */
module Engine {
  import opened Wrappers
  import opened Throwables
  import opened Model

  const LatMin: real := -90.0
  const LatMax: real := 90.0
  const LongMin: real := -180.0
  const LongMax: real := 180.0
  const RetryMax: int := 2
  const RetryDelayMillis: int := 2000

  /**
   * A geocoding API as the engine sees it: its name, its two calls (with the
   * downloader and any API key already bound) and its `convert`. `N` is the
   * API's own result list type.
   */
  datatype Provider<!N> = Provider(
    name: string,
    locationCall: string -> Result<N>,
    coordinateCall: (real, real) -> Result<N>,
    convert: N -> Result<seq<Address>>)

  /** `SwitchPolicy.shouldSwitch(geocoderName, addresses)`. */
  type SwitchPolicy = (string, seq<Address>) -> bool

  /** Stands for a `Downloader.Factory` object; what its downloaders do is part of the provider calls. */
  datatype DownloaderFactory = DownloaderFactory(id: nat)

  /** The two queries: a location name (null allowed) or a coordinate. */
  datatype Query = ByName(locationName: Option<string>) | ByCoordinate(latitude: real, longitude: real)

  /** The argument checks made before any provider is called, latitude before longitude. */
  function Validate(q: Query): (fault: Option<ArgumentFault>)
    ensures q.ByName? ==> (fault.Some? <==> q.locationName.None?)
    ensures q.ByCoordinate? && (q.latitude < LatMin || q.latitude > LatMax) ==>
              fault == Some(LatitudeOutOfRange(q.latitude))
    ensures q.ByCoordinate? && LatMin <= q.latitude <= LatMax && (q.longitude < LongMin || q.longitude > LongMax) ==>
              fault == Some(LongitudeOutOfRange(q.longitude))
    ensures q.ByCoordinate? && LatMin <= q.latitude <= LatMax && LongMin <= q.longitude <= LongMax ==> fault.None?
  {
    match q
    case ByName(name) => if name.None? then Some(NullLocationName) else None
    case ByCoordinate(latitude, longitude) =>
      if latitude < LatMin || latitude > LatMax then Some(LatitudeOutOfRange(latitude))
      else if longitude < LongMin || longitude > LongMax then Some(LongitudeOutOfRange(longitude))
      else None
  }

  /** One provider's call for the query followed by its `convert`. */
  function Converted<N>(p: Provider<N>, q: Query): Result<seq<Address>>
    requires Validate(q).None?
  {
    var raw :- match q
               case ByName(name) => p.locationCall(name.value)
               case ByCoordinate(latitude, longitude) => p.coordinateCall(latitude, longitude);
    p.convert(raw)
  }

  /**
   * The `for` loop over the providers, `last` being `newAddress`. A null
   * policy is the NullPointerException of `switchPolicy!!` (Kotlin) or of
   * the call on null (Java), met after the first provider has run.
   */
  function Pass<N>(ps: seq<Provider<N>>, policy: Option<SwitchPolicy>, q: Query, last: seq<Address>): Result<seq<Address>>
    requires Validate(q).None?
    decreases |ps|
  {
    if ps == [] then Success(last)
    else
      var converted :- Converted(ps[0], q);
      if policy.None? then Failure(NullPointer(None))
      else if policy.value(ps[0].name, converted) then Pass(ps[1..], policy, q, converted)
      else Success(converted)
  }

  /** How many providers the pass calls. */
  function Invoked<N>(ps: seq<Provider<N>>, policy: Option<SwitchPolicy>, q: Query): (k: nat)
    requires Validate(q).None?
    ensures k <= |ps|
    ensures ps != [] ==> k >= 1
    decreases |ps|
  {
    if ps == [] then 0
    else
      match Converted(ps[0], q)
      case Failure(_) => 1
      case Success(converted) =>
        if policy.Some? && policy.value(ps[0].name, converted) then 1 + Invoked(ps[1..], policy, q) else 1
  }

  /** `getFromLocation`/`getFromLocationName` on one downloader: the checks, then the pass from the empty list. */
  function Lookup<N>(ps: seq<Provider<N>>, policy: Option<SwitchPolicy>, q: Query): Result<seq<Address>> {
    var fault := Validate(q);
    if fault.Some? then Failure(IllegalArgument(fault.value))
    else Pass(ps, policy, q, [])
  }

  /**
   * The checks come first: a rejected argument is the result whatever the
   * providers would do; the coordinate bounds themselves and the empty name
   * are accepted.
   */
  lemma ValidationFirst<N>(ps: seq<Provider<N>>, qs: seq<Provider<N>>, policy: Option<SwitchPolicy>, q: Query)
    requires Validate(q).Some?
    ensures Lookup(ps, policy, q) == Lookup(qs, policy, q) == Failure(IllegalArgument(Validate(q).value))
    ensures Validate(ByCoordinate(LatMin, LongMin)).None? && Validate(ByCoordinate(LatMax, LongMax)).None?
    ensures Validate(ByName(Some(""))).None?
  {
  }

  /** The pass depends only on the providers it calls: the ones after them are never reached. */
  lemma {:induction false} PassUsesInvokedPrefix<N>(ps: seq<Provider<N>>, policy: Option<SwitchPolicy>, q: Query, last: seq<Address>)
    requires Validate(q).None?
    ensures Pass(ps, policy, q, last) == Pass(ps[..Invoked(ps, policy, q)], policy, q, last)
    decreases |ps|
  {
    if ps != [] {
      var k := Invoked(ps, policy, q);
      var prefix := ps[..k];
      assert prefix[0] == ps[0];
      var c := Converted(ps[0], q);
      if c.Success? && policy.Some? && policy.value(ps[0].name, c.value) {
        PassUsesInvokedPrefix(ps[1..], policy, q, c.value);
        assert prefix[1..] == ps[1..][..Invoked(ps[1..], policy, q)];
      } else if c.Success? && policy.Some? {
        assert k == 1;
      }
    }
  }

  /**
   * The providers run in list order and the policy is asked once per
   * provider, with its name and its converted list: every provider before
   * the last one called succeeded and was told to switch. A successful pass
   * returns the last called provider's list, and stops before the end of the
   * list only on a `false`. With no providers the result is the empty list.
   */
  lemma {:induction false} PassOrder<N>(ps: seq<Provider<N>>, policy: Option<SwitchPolicy>, q: Query, last: seq<Address>)
    requires Validate(q).None?
    ensures ps == [] ==> Pass(ps, policy, q, last) == Success(last)
    ensures var k := Invoked(ps, policy, q);
            forall i :: 0 <= i < k - 1 ==>
              Converted(ps[i], q).Success? && policy.Some? && policy.value(ps[i].name, Converted(ps[i], q).value)
    ensures var k := Invoked(ps, policy, q);
            ps != [] && Pass(ps, policy, q, last).Success? ==>
              policy.Some? && Pass(ps, policy, q, last) == Converted(ps[k - 1], q)
              && (k < |ps| ==> !policy.value(ps[k - 1].name, Converted(ps[k - 1], q).value))
    ensures var k := Invoked(ps, policy, q);
            ps != [] && Pass(ps, policy, q, last).Failure? ==>
              (Converted(ps[k - 1], q).Failure? && Pass(ps, policy, q, last) == Converted(ps[k - 1], q))
              || (Converted(ps[k - 1], q).Success? && policy.None? && Pass(ps, policy, q, last) == Failure(NullPointer(None)))
    decreases |ps|
  {
    if ps != [] {
      var c := Converted(ps[0], q);
      if c.Success? && policy.Some? && policy.value(ps[0].name, c.value) {
        PassOrder(ps[1..], policy, q, c.value);
        var k := Invoked(ps, policy, q);
        forall i | 0 <= i < k - 1
          ensures Converted(ps[i], q).Success? && policy.Some? && policy.value(ps[i].name, Converted(ps[i], q).value)
        {
          if i > 0 {
            assert ps[i] == ps[1..][i - 1];
          }
        }
        if ps[1..] != [] {
          assert ps[k - 1] == ps[1..][Invoked(ps[1..], policy, q) - 1];
        }
      }
    }
  }

  /** An exception from a provider's call or its `convert` ends the pass with that exception. */
  lemma ProviderFailureAborts<N>(ps: seq<Provider<N>>, policy: Option<SwitchPolicy>, q: Query, last: seq<Address>)
    requires Validate(q).None? && ps != []
    requires Converted(ps[0], q).Failure?
    ensures Pass(ps, policy, q, last) == Converted(ps[0], q)
    ensures Invoked(ps, policy, q) == 1
  {
  }

  /** The policy that never switches (Kotlin's builder default). */
  const NeverSwitch: SwitchPolicy := (name: string, addresses: seq<Address>) => false

  /** Under a policy that never switches only the first provider is called, and its list is the answer. */
  lemma NeverSwitchCallsOne<N>(ps: seq<Provider<N>>, q: Query)
    requires Validate(q).None? && ps != []
    ensures Invoked(ps, Some(NeverSwitch), q) == 1
    ensures Lookup(ps, Some(NeverSwitch), q) == Converted(ps[0], q)
  {
  }

  /** The list of providers, an object that the builder and the geocoders it builds share. */
  class ProviderList<N> {
    var items: seq<Provider<N>>

    constructor ()
      ensures items == []
    {
      items := [];
    }

    /** `ArrayList.add`. */
    method Add(p: Provider<N>)
      modifies this
      ensures items == old(items) + [p]
    {
      items := items + [p];
    }
  }

  class Geocoder<N> {
    const downloaderFactory: Option<DownloaderFactory>
    const switchPolicy: Option<SwitchPolicy>
    const geocodingApis: ProviderList<N>

    constructor (downloaderFactory: Option<DownloaderFactory>, switchPolicy: Option<SwitchPolicy>, geocodingApis: ProviderList<N>)
      ensures this.downloaderFactory == downloaderFactory && this.switchPolicy == switchPolicy
      ensures this.geocodingApis == geocodingApis
    {
      this.downloaderFactory := downloaderFactory;
      this.switchPolicy := switchPolicy;
      this.geocodingApis := geocodingApis;
    }

    /** The loop shared by both queries, over the providers in the list at the time of the call. */
    method CallProviders(q: Query) returns (r: Result<seq<Address>>, ghost invoked: nat)
      requires Validate(q).None?
      ensures r == Pass(geocodingApis.items, switchPolicy, q, [])
      ensures invoked == Invoked(geocodingApis.items, switchPolicy, q)
    {
      var ps := geocodingApis.items;
      var newAddress: seq<Address> := [];
      var i := 0;
      invoked := 0;
      while i < |ps|
        invariant 0 <= i <= |ps|
        invariant Pass(ps, switchPolicy, q, []) == Pass(ps[i..], switchPolicy, q, newAddress)
        invariant Invoked(ps, switchPolicy, q) == i + Invoked(ps[i..], switchPolicy, q)
      {
        assert ps[i..][0] == ps[i] && ps[i..][1..] == ps[i + 1..];
        var api := ps[i];
        var address := match q
                       case ByName(name) => api.locationCall(name.value)
                       case ByCoordinate(latitude, longitude) => api.coordinateCall(latitude, longitude);
        if address.Failure? {
          return Failure(address.error), i + 1;
        }
        var converted := api.convert(address.value);
        if converted.Failure? {
          return Failure(converted.error), i + 1;
        }
        newAddress := converted.value;
        if switchPolicy.None? {
          return Failure(NullPointer(None)), i + 1;
        }
        if !switchPolicy.value(api.name, newAddress) {
          return Success(newAddress), i + 1;
        }
        i := i + 1;
      }
      r := Success(newAddress);
      invoked := i;
    }

    /** The private `getFromLocation(downloader, latitude, longitude)`. */
    method GetFromLocation(latitude: real, longitude: real) returns (r: Result<seq<Address>>, ghost invoked: nat)
      ensures r == Lookup(geocodingApis.items, switchPolicy, ByCoordinate(latitude, longitude))
      ensures invoked == if Validate(ByCoordinate(latitude, longitude)).Some? then 0
                         else Invoked(geocodingApis.items, switchPolicy, ByCoordinate(latitude, longitude))
    {
      if latitude < LatMin || latitude > LatMax {
        return Failure(IllegalArgument(LatitudeOutOfRange(latitude))), 0;
      }
      if longitude < LongMin || longitude > LongMax {
        return Failure(IllegalArgument(LongitudeOutOfRange(longitude))), 0;
      }
      r, invoked := CallProviders(ByCoordinate(latitude, longitude));
    }

    /** The private `getFromLocationName(downloader, locationName)`. */
    method GetFromLocationName(locationName: Option<string>) returns (r: Result<seq<Address>>, ghost invoked: nat)
      ensures r == Lookup(geocodingApis.items, switchPolicy, ByName(locationName))
      ensures invoked == if locationName.None? then 0 else Invoked(geocodingApis.items, switchPolicy, ByName(locationName))
    {
      if locationName.None? {
        return Failure(IllegalArgument(NullLocationName)), 0;
      }
      r, invoked := CallProviders(ByName(locationName));
    }
  }

  // ---------------------------------------------------------------------------
  // RetryWithDelay

  /** What the handler answers for one error: resubscribe after a delay, or end the chain with an error. */
  datatype Decision = Resubscribe(delayMillis: int) | Emit(error: Throwable)

  /**
   * `Flowable.error(t)`: RxJava refuses a null throwable with a
   * NullPointerException "throwable is null", which is then what the chain emits.
   */
  function ErrorOf(t: Option<Throwable>): (e: Throwable)
    ensures t.Some? ==> e == t.value
    ensures t.None? ==> e == NullPointer(Some("throwable is null"))
  {
    if t.Some? then t.value else NullPointer(Some("throwable is null"))
  }

  /** The decision for `error` when the counter stands at `count`, with the counter afterwards. */
  function RetryStep(count: int, maxRetries: int, retryDelayMillis: int, error: Throwable): (Decision, int) {
    if error.RetriableException? then
      var next := count + 1;
      if next < maxRetries then (Resubscribe(next * retryDelayMillis), next)
      else (Emit(ErrorOf(error.cause)), next)
    else (Emit(error), count)
  }

  /** The decisions for a run of errors, starting from the counter `count`. */
  function RetryRun(count: int, maxRetries: int, retryDelayMillis: int, errors: seq<Throwable>): (ds: seq<Decision>)
    ensures |ds| == |errors|
    decreases |errors|
  {
    if errors == [] then []
    else
      var step := RetryStep(count, maxRetries, retryDelayMillis, errors[0]);
      [step.0] + RetryRun(step.1, maxRetries, retryDelayMillis, errors[1..])
  }

  /**
   * The schedule for a run of retriable errors: the `k`-th one (from 1)
   * resubscribes after `k * retryDelayMillis` while `k` is below `maxRetries`,
   * and from then on the error's cause is emitted.
   */
  lemma {:induction false} RetrySchedule(count: int, maxRetries: int, retryDelayMillis: int, errors: seq<Throwable>)
    requires forall i :: 0 <= i < |errors| ==> errors[i].RetriableException?
    ensures forall i :: 0 <= i < |errors| ==>
              RetryRun(count, maxRetries, retryDelayMillis, errors)[i] ==
              if count + i + 1 < maxRetries then Resubscribe((count + i + 1) * retryDelayMillis)
              else Emit(ErrorOf(errors[i].cause))
    decreases |errors|
  {
    if errors != [] {
      RetrySchedule(count + 1, maxRetries, retryDelayMillis, errors[1..]);
      var ds := RetryRun(count, maxRetries, retryDelayMillis, errors);
      forall i | 0 <= i < |errors|
        ensures ds[i] == if count + i + 1 < maxRetries then Resubscribe((count + i + 1) * retryDelayMillis)
                         else Emit(ErrorOf(errors[i].cause))
      {
        if i > 0 {
          assert ds[i] == RetryRun(count + 1, maxRetries, retryDelayMillis, errors[1..])[i - 1];
          assert errors[i] == errors[1..][i - 1];
        }
      }
    }
  }

  /**
   * With the engine's constants (2 and 2000 ms) a fresh handler gives exactly
   * one re-attempt, after 2000 ms; the second retriable error ends the chain
   * with its cause.
   */
  lemma OneRetry(first: Throwable, second: Throwable)
    requires first.RetriableException? && second.RetriableException?
    ensures RetryRun(0, RetryMax, RetryDelayMillis, [first, second]) ==
            [Resubscribe(2000), Emit(ErrorOf(second.cause))]
  {
    RetrySchedule(0, RetryMax, RetryDelayMillis, [first, second]);
  }

  /** An error that is not retriable is emitted unchanged and leaves the counter alone. */
  lemma NonRetriableUntouched(count: int, maxRetries: int, retryDelayMillis: int, error: Throwable)
    requires !error.RetriableException?
    ensures RetryStep(count, maxRetries, retryDelayMillis, error) == (Emit(error), count)
  {
  }

  /** The `retryWhen` handler: its counter survives from one error to the next. */
  class RetryWithDelay {
    const maxRetries: int
    const retryDelayMillis: int
    var retryCount: int

    constructor (maxRetries: int, retryDelayMillis: int)
      ensures this.maxRetries == maxRetries && this.retryDelayMillis == retryDelayMillis
      ensures retryCount == 0
    {
      this.maxRetries := maxRetries;
      this.retryDelayMillis := retryDelayMillis;
      retryCount := 0;
    }

    /** The `flatMap` function applied to one error of the upstream. */
    method OnError(throwable: Throwable) returns (d: Decision)
      modifies this
      ensures (d, retryCount) == RetryStep(old(retryCount), maxRetries, retryDelayMillis, throwable)
    {
      if throwable.RetriableException? {
        retryCount := retryCount + 1;
        if retryCount < maxRetries {
          return Resubscribe(retryCount * retryDelayMillis);
        } else {
          return Emit(ErrorOf(throwable.cause));
        }
      }
      return Emit(throwable);
    }
  }

  /** A public call's handler (`RetryWithDelay(RETRY_MAX, RETRY_DELAY_MILLIS)`) fed a run of errors. */
  method RetryDecisions(errors: seq<Throwable>) returns (ds: seq<Decision>)
    ensures ds == RetryRun(0, RetryMax, RetryDelayMillis, errors)
  {
    var handler := new RetryWithDelay(RetryMax, RetryDelayMillis);
    ds := [];
    var i := 0;
    while i < |errors|
      invariant 0 <= i <= |errors|
      invariant handler.maxRetries == RetryMax && handler.retryDelayMillis == RetryDelayMillis
      invariant ds + RetryRun(handler.retryCount, RetryMax, RetryDelayMillis, errors[i..]) ==
                RetryRun(0, RetryMax, RetryDelayMillis, errors)
    {
      assert errors[i..][0] == errors[i] && errors[i..][1..] == errors[i + 1..];
      var d := handler.OnError(errors[i]);
      ds := ds + [d];
      i := i + 1;
    }
  }
}
