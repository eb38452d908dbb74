# geocoder, modelled in Dafny

This project models the core of the prolificinteractive `geocoder` library for Android. The library turns a coordinate pair or a place name into a list of postal addresses. It asks a list of geocoding back-ends ("APIs") in order and stops when the switch policy says so. The library ships as Kotlin sources with Java twins. Where the twins differ, the model takes a `Variant` (`Kotlin` or `Java`) and proves each variant's behaviour.

Modules, one file each:

- `Wrappers` (`wrappers.dfy`): `Option`.
- `Throwables` (`throwables.dfy`):
  - the exceptions the core raises and passes on, with `Result` and the generic element-wise `MapResult`;
  - `GoogleMapsException`: `forStatus`, the cause constructor, `setErrorMessage`, `isCausedByNetworkError` and `toString`.
- `GoogleStatus` (`status.dfy`): the `Status` enum and `Status.fromString`.
- `Model` (`address.dfy`):
  - the `Address` record with its 37 address-component fields, `Location`, `Viewport` and `Bounds`;
  - the `copy` operation;
  - the table from Google `types` strings to fields.
- `Json` (`json.dfy`): the JSON tree the parser reads and the org.json accessors it uses.
- `Transport` (`transport.dfy`): request URLs as a base plus an ordered list of query parameters.
- `GoogleParser` (`parser.dfy`): `Parser.parseJson`, `parseResults`, `parseGeometry` and `parseAddressComponents`. The loops are methods, each proved equal to a recursive specification function.
- `GoogleMaps` (`googlemaps.dfy`): the Google Maps adapter. It covers request building, reply classification into retriable and non-retriable failures, and `convert`. `AsProvider` is the adapter as written, whose retriable failure has no cause; `AsProviderCorrected` keeps the cause (see Findings).
- `Osm` (`osm.dfy`): the OpenStreetMap adapter. It covers `OSMAddress.getAddress`, `convert`, the requests and the single-result reverse call.
- `Engine` (`engine.dfy`):
  - `Geocoder`: argument validation and the provider loop;
  - the `RetryWithDelay` handler as a class with a counter;
  - the decision sequence of `retryWhen`.
- `Builder` (`builder.dfy`): `GeocoderBuilder` as a class over a shared provider list, and `build`.

A provider is a value: its name, what its call answers for each query (addresses or a throwable), and what its `convert` answers. The downloader is folded into that answer. The engine's loop is a method. `Engine.Pass` specifies it, and the lemmas about `Pass` state the order, the early stop and the failure behaviour.

### Where the code and the library's description differ

The model follows the code in each case.

- The retry constants are `RETRY_MAX = 2` and `RETRY_DELAY_MILLIS = 2000`, and the counter is pre-incremented. So a retriable failure is re-attempted once, after 2000 ms, and not twice (`Engine.OneRetry`).
- `getFromLocationName` rejects only a null name. An empty name is passed on to the providers (`Engine.ValidationFirst`).
- Retries re-subscribe to the whole lookup. The same downloader and the same geocoder state are used again, and no fresh provider list is built.

## Model

| member | source | states |
|---|---|---|
| Engine.Validate | geocoder/src/main/java/com/prolificinteractive/geocoder/Geocoder.kt:99-104 | A coordinate query is rejected exactly when latitude is outside [-90, 90] (reported first) or else longitude is outside [-180, 180]; a name query is rejected exactly when the name is null. |
| Engine.Converted | geocoder/src/main/java/com/prolificinteractive/geocoder/Geocoder.kt:108-109 | One provider's call for the query followed by its `convert`; what the pass does with it is stated by `Engine.PassOrder` and `Engine.ProviderFailureAborts`. |
| Engine.Pass | geocoder/src/main/java/com/prolificinteractive/geocoder/Geocoder.kt:106-116 | The provider loop's specification; its order, early stop and failures are stated by `Engine.PassOrder` and `Engine.PassUsesInvokedPrefix`. |
| Engine.Lookup | geocoder/src/main/java/com/prolificinteractive/geocoder/Geocoder.kt:94-117 | The checks, then the pass from the empty list; stated by `Engine.ValidationFirst` and by the ensures of `Engine.Geocoder.GetFromLocation`. |
| Engine.ValidationFirst | geocoder/src/main/java/com/prolificinteractive/geocoder/Geocoder.java:120-125 | A rejected argument is the result whatever the providers would do; the bounds -90/90 and -180/180 and the empty name are accepted. |
| Engine.Invoked | geocoder/src/main/java/com/prolificinteractive/geocoder/Geocoder.kt:107-114 | The number of providers a pass calls is at most the list length and at least one for a non-empty list. |
| Engine.PassOrder | geocoder/src/main/java/com/prolificinteractive/geocoder/Geocoder.kt:106-116 | Providers run in list order; every provider before the last one called converted successfully and was told to switch; a successful pass returns the last called provider's list and stops early only on `false`; no providers gives the starting empty list; a failure is the last called provider's failure or the null-policy NullPointerException. |
| Engine.PassUsesInvokedPrefix | geocoder/src/main/java/com/prolificinteractive/geocoder/Geocoder.kt:127-133 | The result depends only on the providers actually called: the providers after them are never reached. |
| Engine.ProviderFailureAborts | geocoder/src/main/java/com/prolificinteractive/geocoder/Geocoder.kt:108-109 | An exception from the first provider's call or convert is the result, and no other provider is called. |
| Engine.NeverSwitchCallsOne | geocoder/src/main/java/com/prolificinteractive/geocoder/GeocoderBuilder.kt:9-13 | Under the never-switch policy only the first provider is called and its converted list is the answer. |
| Engine.ProviderList.constructor | geocoder/src/main/java/com/prolificinteractive/geocoder/GeocoderBuilder.kt:7 | A new provider list is empty. |
| Engine.ProviderList.Add | geocoder/src/main/java/com/prolificinteractive/geocoder/GeocoderBuilder.kt:17 | `add` appends the provider at the end and changes nothing else. |
| Engine.Geocoder.constructor | geocoder/src/main/java/com/prolificinteractive/geocoder/Geocoder.java:31-38 | The geocoder keeps the factory, the policy and the very list object it is given. |
| Engine.Geocoder.CallProviders | geocoder/src/main/java/com/prolificinteractive/geocoder/Geocoder.java:147-156 | The loop returns what the pass specification returns, and calls as many providers as it counts. |
| Engine.Geocoder.GetFromLocation | geocoder/src/main/java/com/prolificinteractive/geocoder/Geocoder.kt:94-117 | The coordinate lookup is the checks followed by the pass; on a rejected argument no provider is called. |
| Engine.Geocoder.GetFromLocationName | geocoder/src/main/java/com/prolificinteractive/geocoder/Geocoder.java:140-157 | The name lookup is the null check followed by the pass; on a null name no provider is called. |
| Engine.ErrorOf | geocoder/src/main/java/com/prolificinteractive/geocoder/Geocoder.kt:156 | `Flowable.error` emits the given throwable, and a NullPointerException "throwable is null" for a null one. |
| Engine.RetryStep | geocoder/src/main/java/com/prolificinteractive/geocoder/Geocoder.kt:148-162 | One `apply` of the retry handler; its schedule is stated by `Engine.RetrySchedule`, `Engine.OneRetry` and `Engine.NonRetriableUntouched`. |
| Engine.RetryRun | geocoder/src/main/java/com/prolificinteractive/geocoder/Geocoder.kt:148-163 | One decision per error, in order. |
| Engine.RetrySchedule | geocoder/src/main/java/com/prolificinteractive/geocoder/Geocoder.kt:149-157 | For a run of retriable errors the k-th (from 1 after the starting count) resubscribes after k times the delay while k is below the maximum, and emits the error's cause from then on. |
| Engine.OneRetry | geocoder/src/main/java/com/prolificinteractive/geocoder/Geocoder.kt:168-169 | With the constants 2 and 2000 there is exactly one re-attempt, after 2000 ms; the second retriable error ends the chain with its cause. |
| Engine.NonRetriableUntouched | geocoder/src/main/java/com/prolificinteractive/geocoder/Geocoder.kt:162 | A non-retriable error is emitted unchanged and the counter is left alone. |
| Engine.RetryWithDelay.constructor | geocoder/src/main/java/com/prolificinteractive/geocoder/Geocoder.java:167-170 | The handler starts with the given maximum and delay and a zero counter. |
| Engine.RetryWithDelay.OnError | geocoder/src/main/java/com/prolificinteractive/geocoder/Geocoder.java:179-194 | The decision and the new counter are the retry step for the old counter: pre-increment on a retriable error, timer while below the maximum, else the cause. |
| Engine.RetryDecisions | geocoder/src/main/java/com/prolificinteractive/geocoder/Geocoder.kt:54 | A handler made with `RETRY_MAX` and `RETRY_DELAY_MILLIS`, fed a run of errors, answers the retry schedule from a zero counter. |
| Builder.NonNull | geocoder/src/main/java/com/prolificinteractive/geocoder/GeocoderBuilder.kt:15-21 | The kept APIs are no more than the calls; every kept API is one of the non-null arguments, and every non-null argument is kept. |
| Builder.NonNullSnoc | geocoder/src/main/java/com/prolificinteractive/geocoder/GeocoderBuilder.kt:15-21 | Call order is kept: a further non-null API goes after the earlier ones, a null one adds nothing. |
| Builder.WithApi | geocoder/src/main/java/com/prolificinteractive/geocoder/GeocoderBuilder.kt:16-18 | One `addGeocodingApi` on the list; its effect is stated by `Builder.WithApisAppendsNonNull` and `Builder.GeocoderBuilder.AddGeocodingApi`. |
| Builder.WithApis | geocoder/src/main/java/com/prolificinteractive/geocoder/GeocoderBuilder.kt:15-21 | A series of `addGeocodingApi` calls; stated by `Builder.WithApisAppendsNonNull` and `Builder.WithApisSnoc`. |
| Builder.WithApisAppendsNonNull | geocoder/src/main/java/com/prolificinteractive/geocoder/GeocoderBuilder.kt:15-21 | A series of `addGeocodingApi` calls appends exactly the non-null APIs, in call order, after the providers already there. |
| Builder.NullApisIgnored | geocoder/src/main/java/com/prolificinteractive/geocoder/GeocoderBuilder.java:11-17 | Calls with null leave the list unchanged. |
| Builder.NonNullOfNulls | geocoder/src/main/java/com/prolificinteractive/geocoder/GeocoderBuilder.java:12 | Only nulls keep nothing. |
| Builder.WithApisSnoc | geocoder/src/main/java/com/prolificinteractive/geocoder/GeocoderBuilder.kt:15-21 | One more call after a series acts on the list the series left. |
| Builder.DefaultSwitchPolicy | geocoder/src/main/java/com/prolificinteractive/geocoder/GeocoderBuilder.kt:9-13 | The Kotlin builder starts with a policy that answers `false` for every name and list; the Java builder starts with null. |
| Builder.GeocoderBuilder.constructor | geocoder/src/main/java/com/prolificinteractive/geocoder/GeocoderBuilder.kt:7-13 | A fresh builder has a new empty list, no downloader factory and the variant's default policy. |
| Builder.GeocoderBuilder.AddGeocodingApi | geocoder/src/main/java/com/prolificinteractive/geocoder/GeocoderBuilder.kt:15-21 | A non-null API is appended to the shared list, a null one changes nothing; the builder itself is returned. |
| Builder.GeocoderBuilder.SetDownloaderFactory | geocoder/src/main/java/com/prolificinteractive/geocoder/GeocoderBuilder.kt:27-30 | The factory is replaced (last write wins), the policy is untouched, the builder is returned. |
| Builder.GeocoderBuilder.SetSwitchPolicy | geocoder/src/main/java/com/prolificinteractive/geocoder/GeocoderBuilder.kt:32-35 | The policy is replaced (last write wins), the factory is untouched, the builder is returned. |
| Builder.GeocoderBuilder.Build | geocoder/src/main/java/com/prolificinteractive/geocoder/GeocoderBuilder.kt:23-25 | A new geocoder with the builder's factory and policy and the builder's own list object, not a copy. |
| Builder.BuildWith | geocoder/src/main/java/com/prolificinteractive/geocoder/GeocoderBuilder.java:11-21 | A fresh builder, a series of `addGeocodingApi` calls and `build` give a geocoder over exactly the non-null APIs in call order, with the default policy and no factory. |
| Builder.AddAfterBuild | geocoder/src/main/java/com/prolificinteractive/geocoder/GeocoderBuilder.java:19-21 | An API added to the builder after `build` is in the built geocoder's list, since the list is shared. |
| Model.EmptyAddress | geocoder/src/main/java/com/prolificinteractive/geocoder/model/Address.kt:11-61 | `Address()` has every field null. |
| Model.Get | geocoder/src/main/java/com/prolificinteractive/geocoder/model/Address.kt:11-61 | Reading a component field; `Model.Set` and `Model.FieldwiseEquality` state its laws. |
| Model.TypeName | geocoder-googlemaps/src/main/java/com/prolificinteractive/geocoder/api/googlemaps/Parser.kt:138-176 | The type string of each field's `when` branch; `Model.TypeNameRoundTrip` and `Model.FieldForTypeIff` state that each string selects exactly its field. |
| Model.FieldForType | geocoder-googlemaps/src/main/java/com/prolificinteractive/geocoder/api/googlemaps/Parser.kt:138-176 | The `when (type)` dispatch; stated by `Model.FieldForTypeIff`. |
| Model.Set | geocoder/src/main/java/com/prolificinteractive/geocoder/model/Address.kt:11 | `copy` of one component field sets that field and leaves every other field as it was. |
| Model.FieldwiseEquality | geocoder/src/main/java/com/prolificinteractive/geocoder/model/Address.kt:11 | Two addresses are equal exactly when all their fields are. |
| Model.CopyLaws | geocoder/src/main/java/com/prolificinteractive/geocoder/model/Address.kt:11 | Copying a field's own value changes nothing; a second copy of a field overrides the first. |
| Model.TypeNameRoundTrip | geocoder-googlemaps/src/main/java/com/prolificinteractive/geocoder/api/googlemaps/Parser.kt:138-176 | Every one of the 37 fields is selected by its own type string. |
| Model.FieldForTypeIff | geocoder-googlemaps/src/main/java/com/prolificinteractive/geocoder/api/googlemaps/Parser.java:100-252 | A type string selects a field exactly when it is that field's type string; any other string selects nothing. |
| GoogleStatus.ValueOf | geocoder-googlemaps/src/main/java/com/prolificinteractive/geocoder/api/googlemaps/Status.kt:65 | `valueOf` answers the constant whose name is exactly the string, and fails only when no constant has that name. |
| GoogleStatus.Name | geocoder-googlemaps/src/main/java/com/prolificinteractive/geocoder/api/googlemaps/Status.kt:23-56 | The constant names; stated by `GoogleStatus.NameInjective` and `GoogleStatus.NameRoundTrip`. |
| GoogleStatus.FromString | geocoder-googlemaps/src/main/java/com/prolificinteractive/geocoder/api/googlemaps/Status.kt:60-70 | Null and empty give UNKNOWN_ERROR; a constant's exact name gives that constant; anything else gives UNKNOWN_ERROR; it never fails. |
| GoogleStatus.NameInjective | geocoder-googlemaps/src/main/java/com/prolificinteractive/geocoder/api/googlemaps/Status.kt:29-56 | Distinct constants have distinct names. |
| GoogleStatus.NameRoundTrip | geocoder-googlemaps/src/main/java/com/prolificinteractive/geocoder/api/googlemaps/Status.kt:64-65 | Parsing a constant's name gives that constant back. |
| GoogleStatus.OtherStringsAreUnknown | geocoder-googlemaps/src/main/java/com/prolificinteractive/geocoder/api/googlemaps/Status.kt:66-68 | A string that is no constant's name parses as UNKNOWN_ERROR. |
| GoogleStatus.SixStatuses | geocoder-googlemaps/src/main/java/com/prolificinteractive/geocoder/api/googlemaps/Status.kt:23-56 | There are exactly six distinct statuses and every status is one of them. |
| Throwables.ForStatus | geocoder-googlemaps/src/main/java/com/prolificinteractive/geocoder/api/googlemaps/GoogleMapsException.java:36-40 | `forStatus` sets the status and leaves the message and the cause absent. |
| Throwables.MapsToString | geocoder-googlemaps/src/main/java/com/prolificinteractive/geocoder/api/googlemaps/GoogleMapsException.java:72-84 | `toString`; stated by `Throwables.MapsToStringPriority` and `Throwables.ForStatusRoundTrip`. |
| Throwables.IsCausedByNetworkError | geocoder-googlemaps/src/main/java/com/prolificinteractive/geocoder/api/googlemaps/GoogleMapsException.java:67-69 | `isCausedByNetworkError`; stated by `Throwables.NetworkErrorOnlyFromIo`. |
| Throwables.WrapCause | geocoder-googlemaps/src/main/java/com/prolificinteractive/geocoder/api/googlemaps/GoogleMapsException.java:45-47 | The cause constructor keeps the cause and sets no status and no message. |
| Throwables.WithErrorMessage | geocoder-googlemaps/src/main/java/com/prolificinteractive/geocoder/api/googlemaps/GoogleMapsException.java:63-65 | `setErrorMessage` replaces the message and keeps status and cause. |
| Throwables.MapsToStringPriority | geocoder-googlemaps/src/main/java/com/prolificinteractive/geocoder/api/googlemaps/GoogleMapsException.java:72-84 | `toString` is the non-empty message, else the status name, else the cause's string; it is never empty. |
| Throwables.DescribeNonEmpty | geocoder-googlemaps/src/main/java/com/prolificinteractive/geocoder/api/googlemaps/GoogleMapsException.java:79-83 | Every throwable's string, the cause's included, is non-empty. |
| Throwables.ForStatusRoundTrip | geocoder-googlemaps/src/main/java/com/prolificinteractive/geocoder/api/googlemaps/GoogleMapsException.java:76-78 | The string of an exception made for a status, with no or an empty message, parses back to that status. |
| Throwables.NetworkErrorOnlyFromIo | geocoder-googlemaps/src/main/java/com/prolificinteractive/geocoder/api/googlemaps/GoogleMapsException.java:67-69 | `isCausedByNetworkError` holds exactly when the cause is an IOException; never for `forStatus` exceptions. |
| Throwables.MapResultElementwise | geocoder-openstreetmap/src/main/java/com/prolificinteractive/geocoder/api/openstreetmaps/OpenStreetMaps.kt:43-45 | Mapping succeeds exactly when every element does; then it keeps length and order, element i being the image of input i. |
| Throwables.MapResultFirstFailure | geocoder-openstreetmap/src/main/java/com/prolificinteractive/geocoder/api/openstreetmaps/OpenStreetMaps.kt:44 | A failed mapping fails with the error of the first element that fails. |
| Throwables.MapResultFailureStops | geocoder-openstreetmap/src/main/java/com/prolificinteractive/geocoder/api/openstreetmaps/OpenStreetMaps.java:33-35 | Once a prefix fails, longer prefixes fail with the same error. |
| Json.ObjectOf | geocoder-googlemaps/src/main/java/com/prolificinteractive/geocoder/api/googlemaps/Parser.kt:282 | The document is accepted exactly when its root is an object; every failure is a JSONException. |
| Json.GetString | geocoder-googlemaps/src/main/java/com/prolificinteractive/geocoder/api/googlemaps/Parser.kt:289 | `getString` succeeds exactly on a present string member and returns its text; otherwise a JSONException. |
| Json.GetDouble | geocoder-googlemaps/src/main/java/com/prolificinteractive/geocoder/api/googlemaps/Parser.kt:238 | `getDouble` succeeds exactly on a present number member; otherwise a JSONException. |
| Json.GetObject | geocoder-googlemaps/src/main/java/com/prolificinteractive/geocoder/api/googlemaps/Parser.kt:231 | `getJSONObject` succeeds exactly on a present object member; otherwise a JSONException. |
| Json.GetArray | geocoder-googlemaps/src/main/java/com/prolificinteractive/geocoder/api/googlemaps/Parser.kt:119-120 | `getJSONArray` succeeds exactly on a present array member; otherwise a JSONException. |
| Json.ObjectAt | geocoder-googlemaps/src/main/java/com/prolificinteractive/geocoder/api/googlemaps/Parser.kt:122 | An array element read as an object succeeds exactly when it is one; otherwise a JSONException. |
| Json.StringAt | geocoder-googlemaps/src/main/java/com/prolificinteractive/geocoder/api/googlemaps/Parser.kt:137 | An array element read as a string succeeds exactly when it is one; otherwise a JSONException. |
| GoogleParser.ReadLocation | geocoder-googlemaps/src/main/java/com/prolificinteractive/geocoder/api/googlemaps/Parser.kt:236-239 | A location is read exactly when lat and lng are numbers, and holds them. |
| GoogleParser.ReadCorners | geocoder-googlemaps/src/main/java/com/prolificinteractive/geocoder/api/googlemaps/Parser.kt:241-252 | Corners are absent when the member or either corner is absent; when both corners are well-formed they are read southwest first; a result always comes from such corners; failures are JSONExceptions. |
| GoogleParser.ReadOptionalString | geocoder-googlemaps/src/main/java/com/prolificinteractive/geocoder/api/googlemaps/Parser.kt:232-234 | An absent member gives null, a string member its text, anything else a JSONException. |
| GoogleParser.ReadOptionalLocation | geocoder-googlemaps/src/main/java/com/prolificinteractive/geocoder/api/googlemaps/Parser.kt:236-239 | An absent member gives null; a present one must be an object with lat and lng, and gives that location. |
| GoogleParser.ParseGeometry | geocoder-googlemaps/src/main/java/com/prolificinteractive/geocoder/api/googlemaps/Parser.kt:221-274 | Geometry parsing leaves the formatted address and the component fields alone; failures are JSONExceptions. |
| GoogleParser.GeometryLocation | geocoder-googlemaps/src/main/java/com/prolificinteractive/geocoder/api/googlemaps/Parser.kt:221-274 | Without geometry Kotlin clears the four geometry fields and Java changes nothing; with it, parsing succeeds exactly when every member reads, and the location type is the location_type text and the location the lat/lng of "location", null when absent in Kotlin and kept in Java. |
| GoogleParser.MakeViewport | geocoder-googlemaps/src/main/java/com/prolificinteractive/geocoder/api/googlemaps/Parser.kt:250 | Kotlin's positional `Viewport(northeast, southwest)`; stated by `GoogleParser.ViewportOrientation`. |
| GoogleParser.ViewportOrientation | geocoder-googlemaps/src/main/java/com/prolificinteractive/geocoder/api/googlemaps/Parser.kt:243-250 | With both viewport corners present, Kotlin's `southwest` field holds the JSON northeast corner and vice versa; Java keeps the JSON orientation. |
| GoogleParser.BoundsOrientation | geocoder-googlemaps/src/main/java/com/prolificinteractive/geocoder/api/googlemaps/Parser.kt:254-263 | Bounds keep the JSON orientation in both twins. |
| GoogleParser.CornersRequired | geocoder-googlemaps/src/main/java/com/prolificinteractive/geocoder/api/googlemaps/Parser.java:275-317 | A viewport or bounds is set only from a member with both corners; otherwise Kotlin leaves it null and Java leaves the previous value. |
| GoogleParser.ComponentValue | geocoder-googlemaps/src/main/java/com/prolificinteractive/geocoder/api/googlemaps/Parser.kt:126-131 | The value is `long_name` when present, else `short_name`. |
| GoogleParser.Assign | geocoder-googlemaps/src/main/java/com/prolificinteractive/geocoder/api/googlemaps/Parser.kt:138-176 | One type string sets exactly the field it selects to the value; an unknown string changes nothing. |
| GoogleParser.AssignByName | geocoder-googlemaps/src/main/java/com/prolificinteractive/geocoder/api/googlemaps/Parser.java:100-252 | One type string sets exactly the field whose type string it is, and no other field. |
| GoogleParser.ApplyTypes | geocoder-googlemaps/src/main/java/com/prolificinteractive/geocoder/api/googlemaps/Parser.kt:136-137 | A failure of the type loop is a JSONException. |
| GoogleParser.ApplyComponent | geocoder-googlemaps/src/main/java/com/prolificinteractive/geocoder/api/googlemaps/Parser.kt:122-136 | A failure of one component's pass is a JSONException. |
| GoogleParser.ApplyComponents | geocoder-googlemaps/src/main/java/com/prolificinteractive/geocoder/api/googlemaps/Parser.kt:121-122 | A failure of the component loop is a JSONException. |
| GoogleParser.ComponentFailureStops | geocoder-googlemaps/src/main/java/com/prolificinteractive/geocoder/api/googlemaps/Parser.java:83-84 | Once a component fails, the later components are never read: the failure is the result. |
| GoogleParser.TypeFailureStops | geocoder-googlemaps/src/main/java/com/prolificinteractive/geocoder/api/googlemaps/Parser.java:98-99 | Once a type string fails, the later ones are never read. |
| GoogleParser.ComponentsSpec | geocoder-googlemaps/src/main/java/com/prolificinteractive/geocoder/api/googlemaps/Parser.kt:181-218 | Component parsing leaves location, location type, viewport and bounds untouched; Kotlin resets the formatted address to null, Java keeps it; failures are JSONExceptions. |
| GoogleParser.AssignTypes | geocoder-googlemaps/src/main/java/com/prolificinteractive/geocoder/api/googlemaps/Parser.kt:136-177 | The type loop computes the specification of the type loop. |
| GoogleParser.AssignComponent | geocoder-googlemaps/src/main/java/com/prolificinteractive/geocoder/api/googlemaps/Parser.java:84-97 | One pass of the component loop computes its specification: skip a component without types or without a non-empty value. |
| GoogleParser.AssignComponents | geocoder-googlemaps/src/main/java/com/prolificinteractive/geocoder/api/googlemaps/Parser.java:83-254 | The component loop computes its specification. |
| GoogleParser.ParseAddressComponents | geocoder-googlemaps/src/main/java/com/prolificinteractive/geocoder/api/googlemaps/Parser.java:77-256 | The method computes the component specification for both twins. |
| GoogleParser.SelectsIff | geocoder-googlemaps/src/main/java/com/prolificinteractive/geocoder/api/googlemaps/Parser.kt:136-176 | Some of the first n type strings selects a field exactly when that field's own type string is among them. |
| GoogleParser.TypesSetNamed | geocoder-googlemaps/src/main/java/com/prolificinteractive/geocoder/api/googlemaps/Parser.kt:136-177 | After n type strings a field holds the component's value exactly when its own type string is among them, and keeps its earlier value otherwise. |
| GoogleParser.TypesSetSelected | geocoder-googlemaps/src/main/java/com/prolificinteractive/geocoder/api/googlemaps/Parser.kt:136-177 | After n type strings exactly the selected fields hold the value and the others keep theirs. |
| GoogleParser.TypesSetExactly | geocoder-googlemaps/src/main/java/com/prolificinteractive/geocoder/api/googlemaps/Parser.java:98-252 | After a component's types, exactly the fields whose type strings are listed hold the value (a multi-type component sets them all; unknown types are ignored). |
| GoogleParser.ComponentEffect | geocoder-googlemaps/src/main/java/com/prolificinteractive/geocoder/api/googlemaps/Parser.kt:123-177 | One component changes exactly the fields it names, to its value; a component without types or with an absent or empty value changes nothing. |
| GoogleParser.LaterComponentsWin | geocoder-googlemaps/src/main/java/com/prolificinteractive/geocoder/api/googlemaps/Parser.kt:121-179 | After n components each field holds the value of the last component naming it, or its starting value. |
| GoogleParser.ComponentFields | geocoder-googlemaps/src/main/java/com/prolificinteractive/geocoder/api/googlemaps/Parser.kt:79-218 | Each of the 37 fields ends with the last naming component's value; where none names it, Kotlin leaves null and Java the address's own value. |
| GoogleParser.ParseOne | geocoder-googlemaps/src/main/java/com/prolificinteractive/geocoder/api/googlemaps/Parser.kt:327-339 | A failure to read one result is a JSONException. |
| GoogleParser.ResultCountBounds | geocoder-googlemaps/src/main/java/com/prolificinteractive/geocoder/api/googlemaps/Parser.kt:323 | The count is min(length, maxResults) for a non-negative limit; Kotlin's -1 reads all; Java's -1 stays -1; the count is negative exactly for the negative limits each twin does not special-case. |
| GoogleParser.ResultCount | geocoder-googlemaps/src/main/java/com/prolificinteractive/geocoder/api/googlemaps/Parser.java:366 | The number of results read; stated by `GoogleParser.ResultCountBounds`. |
| GoogleParser.ParseEach | geocoder-googlemaps/src/main/java/com/prolificinteractive/geocoder/api/googlemaps/Parser.kt:325-341 | Reading n results gives n addresses, address j being result j's, in input order. |
| GoogleParser.ParseEachSucceeds | geocoder-googlemaps/src/main/java/com/prolificinteractive/geocoder/api/googlemaps/Parser.java:368-384 | Reading n results succeeds exactly when each of them reads. |
| GoogleParser.ResultFailureStops | geocoder-googlemaps/src/main/java/com/prolificinteractive/geocoder/api/googlemaps/Parser.kt:325-327 | Once a result fails, the later ones are never read. |
| GoogleParser.ResultsSpec | geocoder-googlemaps/src/main/java/com/prolificinteractive/geocoder/api/googlemaps/Parser.kt:318-343 | A failure of `parseResults` is a JSONException or the capacity failure of a negative count. |
| GoogleParser.ParseResult | geocoder-googlemaps/src/main/java/com/prolificinteractive/geocoder/api/googlemaps/Parser.java:370-383 | The loop body computes one result's address. |
| GoogleParser.ParseResults | geocoder-googlemaps/src/main/java/com/prolificinteractive/geocoder/api/googlemaps/Parser.java:361-386 | The loop computes the `parseResults` specification. |
| GoogleParser.FormattedAddressKept | geocoder-googlemaps/src/main/java/com/prolificinteractive/geocoder/api/googlemaps/Parser.java:373-380 | With components parsed, Kotlin's addresses have no formatted address and Java's keep the JSON one. |
| GoogleParser.WrapJson | geocoder-googlemaps/src/main/java/com/prolificinteractive/geocoder/api/googlemaps/Parser.kt:311-312 | Only JSONExceptions are wrapped in a GoogleMapsException with them as cause; anything else passes. |
| GoogleParser.StatusFailure | geocoder-googlemaps/src/main/java/com/prolificinteractive/geocoder/api/googlemaps/Parser.kt:299-308 | The exception carries the status, no cause, and the error_message exactly when it reads as a string. |
| GoogleParser.ParseJson | geocoder-googlemaps/src/main/java/com/prolificinteractive/geocoder/api/googlemaps/Parser.java:322-359 | Text that is not JSON becomes a GoogleMapsException around a JSONException; every failure is a GoogleMapsException, the missing-status exception or the capacity failure. |
| GoogleParser.StatusDispatch | geocoder-googlemaps/src/main/java/com/prolificinteractive/geocoder/api/googlemaps/Parser.kt:277-315 | Missing status gives the plain exception; ZERO_RESULTS and OK without results give the empty list; OK with results reads them; every other status gives its GoogleMapsException. |
| GoogleParser.StatusFailureOnlyFromStatus | geocoder-googlemaps/src/main/java/com/prolificinteractive/geocoder/api/googlemaps/Parser.kt:299-308 | A GoogleMapsException carrying a status comes from a response with that status, other than OK and ZERO_RESULTS. |
| GoogleParser.ResultsCount | geocoder-googlemaps/src/main/java/com/prolificinteractive/geocoder/api/googlemaps/Parser.java:366-385 | A successful read with a non-negative limit has min(length, limit) addresses; Kotlin's -1 reads all; Java's -1 fails with the capacity error. |
| GoogleMaps.BaseRequest | geocoder-googlemaps/src/main/java/com/prolificinteractive/geocoder/api/googlemaps/GoogleMaps.kt:98-104 | The base request has the endpoint and a `key` parameter exactly when the key is non-null and non-empty, holding the key. |
| GoogleMaps.MaxResults | geocoder-googlemaps/src/main/java/com/prolificinteractive/geocoder/api/googlemaps/GoogleMaps.java:15 | Kotlin's -1 and Java's 5; their effect is stated by `GoogleMaps.ResultLimits`. |
| GoogleMaps.LocationRequest | geocoder-googlemaps/src/main/java/com/prolificinteractive/geocoder/api/googlemaps/GoogleMaps.kt:79-80 | The `address` request; stated by `GoogleMaps.RequestLayout`. |
| GoogleMaps.CoordinateRequest | geocoder-googlemaps/src/main/java/com/prolificinteractive/geocoder/api/googlemaps/GoogleMaps.kt:23-24 | The `latlng` request; stated by `GoogleMaps.RequestLayout`. |
| GoogleMaps.RequestLayout | geocoder-googlemaps/src/main/java/com/prolificinteractive/geocoder/api/googlemaps/GoogleMaps.java:38-39 | Each request keeps the key rule and ends with its own parameter: `address`, or `latlng` as latitude then longitude. |
| GoogleMaps.ClassifyAsWritten | geocoder-googlemaps/src/main/java/com/prolificinteractive/geocoder/api/googlemaps/GoogleMaps.kt:30-36 | As written: OVER_QUERY_LIMIT becomes a RetriableException with the exception's string as message and no cause; anything else is rethrown unchanged. |
| GoogleMaps.Classify | geocoder-googlemaps/src/main/java/com/prolificinteractive/geocoder/api/googlemaps/GoogleMaps.java:45-51 | Corrected: the same classification, with the GoogleMapsException kept as the cause. |
| GoogleMaps.Respond | geocoder-googlemaps/src/main/java/com/prolificinteractive/geocoder/api/googlemaps/GoogleMaps.kt:26-37 | The calls as written: a download failure passes through unclassified; the classification of a reply is stated by `GoogleMaps.ReplyClassification`. |
| GoogleMaps.Answer | geocoder-googlemaps/src/main/java/com/prolificinteractive/geocoder/api/googlemaps/GoogleMaps.kt:84-94 | A download failure passes through unclassified; a parser failure goes through the catch block. |
| GoogleMaps.RespondCorrected | geocoder-googlemaps/src/main/java/com/prolificinteractive/geocoder/api/googlemaps/GoogleMaps.java:72-78 | The calls with the cause kept: a download failure passes through; the classification is stated by `GoogleMaps.ReplyClassificationCorrected`. |
| GoogleMaps.LocationCall | geocoder-googlemaps/src/main/java/com/prolificinteractive/geocoder/api/googlemaps/GoogleMaps.kt:74-96 | `locationCall` as written; stated by `GoogleMaps.ReplyClassification` and `GoogleMaps.QuotaExhaustionAsWritten`. |
| GoogleMaps.CoordinateCall | geocoder-googlemaps/src/main/java/com/prolificinteractive/geocoder/api/googlemaps/GoogleMaps.kt:17-39 | `coordinateCall` as written; stated by `GoogleMaps.ReplyClassification` and `GoogleMaps.QuotaExhaustionAsWritten`. |
| GoogleMaps.LocationCallWithBounds | geocoder-googlemaps/src/main/java/com/prolificinteractive/geocoder/api/googlemaps/GoogleMaps.kt:41-72 | `locationCallWithBounds` as written, on the same `Respond`. |
| GoogleMaps.AsProvider | geocoder-googlemaps/src/main/java/com/prolificinteractive/geocoder/api/googlemaps/GoogleMaps.kt:9-15 | The adapter as written, as the engine sees it; stated by `GoogleMaps.ConvertIsIdentity` and `GoogleMaps.QuotaExhaustionAsWritten`. |
| GoogleMaps.AsProviderCorrected | geocoder-googlemaps/src/main/java/com/prolificinteractive/geocoder/api/googlemaps/GoogleMaps.kt:30-36 | The adapter with the cause kept; stated by `GoogleMaps.QuotaExhaustionSurfacesStatus`. |
| GoogleMaps.QueryRequest | geocoder-googlemaps/src/main/java/com/prolificinteractive/geocoder/api/googlemaps/GoogleMaps.kt:23-24 | The request each engine query makes the adapter send; used by the quota lemmas. |
| GoogleMaps.ReplyClassification | geocoder-googlemaps/src/main/java/com/prolificinteractive/geocoder/api/googlemaps/GoogleMaps.kt:86-94 | As written, an OVER_QUERY_LIMIT reply gives a RetriableException whose message is the GoogleMapsException's string and whose cause is null; any other error status gives the parser's GoogleMapsException unchanged. |
| GoogleMaps.ReplyClassificationCorrected | geocoder-googlemaps/src/main/java/com/prolificinteractive/geocoder/api/googlemaps/GoogleMaps.java:45-51 | Corrected: an OVER_QUERY_LIMIT reply gives a RetriableException with the same message and the GoogleMapsException as its cause; other error statuses are unchanged. |
| GoogleMaps.RetriableOnlyForQuota | geocoder-googlemaps/src/main/java/com/prolificinteractive/geocoder/api/googlemaps/GoogleMaps.java:72-78 | A retriable failure only comes from a reply whose status is OVER_QUERY_LIMIT. |
| GoogleMaps.ResultLimits | geocoder-googlemaps/src/main/java/com/prolificinteractive/geocoder/api/googlemaps/GoogleMaps.java:15 | Java returns at most five addresses; Kotlin returns every result of an OK reply. |
| GoogleMaps.ConvertIsIdentity | geocoder-googlemaps/src/main/java/com/prolificinteractive/geocoder/api/googlemaps/GoogleMaps.kt:11-13 | `convert` returns its input: the engine sees the call's own result, under the name "Google Maps Api". |
| GoogleMaps.QuotaExhaustionAsWritten | geocoder-googlemaps/src/main/java/com/prolificinteractive/geocoder/api/googlemaps/GoogleMaps.kt:31-33 | A lookup through the adapter as written, on a persistent OVER_QUERY_LIMIT reply, fails with a cause-less RetriableException; the retry handler re-subscribes once after 2000 ms and then ends in a NullPointerException "throwable is null". |
| GoogleMaps.QuotaExhaustionSurfacesStatus | geocoder/src/main/java/com/prolificinteractive/geocoder/Geocoder.kt:149-157 | Through the corrected adapter, a persistent quota error is retried once and then surfaces the parser's GoogleMapsException carrying OVER_QUERY_LIMIT. |
| Osm.ToDouble | geocoder-openstreetmap/src/main/java/com/prolificinteractive/geocoder/api/openstreetmaps/OSMAddress.kt:36-37 | A numeric string gives its number; any other string a NumberFormatException. |
| Osm.GetAddress | geocoder-openstreetmap/src/main/java/com/prolificinteractive/geocoder/api/openstreetmaps/OSMAddress.kt:27-40 | `getAddress` in both twins; stated by `Osm.AddressMapping` and `Osm.NullHandling`. |
| Osm.DetailFields | geocoder-openstreetmap/src/main/java/com/prolificinteractive/geocoder/api/openstreetmaps/OSMAddress.kt:29-33 | Exactly the five detail-fed fields that are non-null in the detail are set, to the detail's values; none without a detail. |
| Osm.AddressMapping | geocoder-openstreetmap/src/main/java/com/prolificinteractive/geocoder/api/openstreetmaps/OSMAddress.kt:27-40 | country, city as level 2, state as level 1, neighbourhood, postcode and display_name are mapped; the location is always present; every other field is null. |
| Osm.NullHandling | geocoder-openstreetmap/src/main/java/com/prolificinteractive/geocoder/api/openstreetmaps/OSMAddress.java:29-42 | Java succeeds exactly when the detail is present and lon and lat are both numbers, giving location (lat, lon); it fails with a NullPointerException on a null detail, then a null lon, then a null lat. Kotlin succeeds exactly when each present coordinate is a number and keeps absent ones null. A non-numeric lon fails with a NumberFormatException in both, and a non-numeric lat after a good lon too. |
| Osm.ConvertElementwise | geocoder-openstreetmap/src/main/java/com/prolificinteractive/geocoder/api/openstreetmaps/OpenStreetMaps.kt:43-45 | `convert` keeps length and order, element i being place i's address; a failure is the first failing place's. |
| Osm.ConvertOne | geocoder-openstreetmap/src/main/java/com/prolificinteractive/geocoder/api/openstreetmaps/OpenStreetMaps.kt:44 | One element of `convert`: a null element is a NullPointerException, else its `getAddress`. |
| Osm.Convert | geocoder-openstreetmap/src/main/java/com/prolificinteractive/geocoder/api/openstreetmaps/OpenStreetMaps.kt:43-45 | `convert`; stated by `Osm.ConvertElementwise` and `Osm.ConvertLoop`. |
| Osm.ConvertLoop | geocoder-openstreetmap/src/main/java/com/prolificinteractive/geocoder/api/openstreetmaps/OpenStreetMaps.java:31-37 | The Java loop computes the element-by-element conversion. |
| Osm.RequestLayouts | geocoder-openstreetmap/src/main/java/com/prolificinteractive/geocoder/api/openstreetmaps/OpenStreetMaps.kt:87-97 | Every Kotlin request starts with format=json and addressdetails=1; the box is longitude first; Java's reverse request sends lat then lon and no address details. |
| Osm.CoordinateCall | geocoder-openstreetmap/src/main/java/com/prolificinteractive/geocoder/api/openstreetmaps/OpenStreetMaps.kt:49-66 | A successful reply to the twin's reverse request gives exactly the list holding that one place; a failed download or decoding passes through. |
| Osm.ReverseRequest | geocoder-openstreetmap/src/main/java/com/prolificinteractive/geocoder/api/openstreetmaps/OpenStreetMaps.kt:55-58 | The twin's reverse request; stated by `Osm.RequestLayouts`. |
| Osm.LocationCall | geocoder-openstreetmap/src/main/java/com/prolificinteractive/geocoder/api/openstreetmaps/OpenStreetMaps.kt:68-85 | `locationCall`: the decoded reply to the twin's search request, as it is. |
| Osm.AsProvider | geocoder-openstreetmap/src/main/java/com/prolificinteractive/geocoder/api/openstreetmaps/OpenStreetMaps.kt:43-47 | The adapter as the engine sees it; stated by `Osm.ReverseGivesOne`. |
| Osm.ReverseGivesOne | geocoder-openstreetmap/src/main/java/com/prolificinteractive/geocoder/api/openstreetmaps/OpenStreetMaps.java:39-53 | Through the engine, a reverse lookup gives the one converted place (or its conversion failure, or the download failure), so never more than one address, under the name "Open Street Maps Api". |
## Left out

- Threading, `Flowable`/`Single` scheduling, cancellation and back-pressure are not modelled. The Rx chain is reduced to the order of calls and results, and the retry timer to the delay it is given.
- The `Downloader`, its factory, the HTTP transport and the network are not modelled. A provider's call is a parameter answering each query with addresses or a throwable, so IOExceptions arrive as that answer.
- Decoding response bytes into JSON is not modelled. The parser starts from a JSON tree or from a `Malformed` document. The OpenStreetMap adapter's Gson decoding is not modelled either: its places arrive already decoded, with absent members as `None`.
- org.json's coercions (a numeric string read by `getDouble`, a number read by `getString`) are not modelled. Each accessor accepts exactly its own JSON kind.
- The message texts of JSONExceptions are approximations. An array index is not rendered in them. Only the exception class and the error path are modelled exactly.
- Floating point is modelled by `real`: NaN, infinities and rounding are not represented. `Osm.ToDouble` accepts decimal numerals only.
- `Uri` encoding and `String.format` rendering are not modelled. A URL is a base plus an ordered list of typed parameters.
- `Parcelable`, AutoValue builders, `equals`/`hashCode` beyond field-wise equality, and Android `Context` plumbing are not modelled.
- Engine.RetryWithDelay.OnError: `retryCount * retryDelayMillis` is computed on unbounded integers. With the shipped constants it is at most 4000, so Java `int` overflow does not arise.
- GoogleMaps.ResultLimits: the Kotlin adapter's `maxResults` argument is not used by its calls, which pass `MAX_RESULTS = -1`. That argument and the Kotlin arity mismatch are not modelled.
- `GoogleMaps.locationCallWithBounds` is modelled (`GoogleMaps.LocationCallWithBounds`), but the engine never calls it, so no engine lemma uses it.
- The text of the IllegalArgumentException messages is simplified. Which argument is rejected, and in what order, is modelled.
- Engine.RetryRun: its contract states only that one decision is made per error. What the decisions are is stated by `Engine.RetrySchedule` and `Engine.OneRetry`.

## Findings

| source | as written | input that shows it | evidently intended | confidence | as-written member | corrected member |
|---|---|---|---|---|---|---|
| geocoder-googlemaps/src/main/java/com/prolificinteractive/geocoder/api/googlemaps/GoogleMaps.kt:33 | `RetriableException(e.toString())` is built without a cause, and `RetryWithDelay` ends the chain with `Flowable.error(throwable.cause)`, i.e. `Flowable.error(null)` | a reply with status `OVER_QUERY_LIMIT` on both attempts: the lookup fails with NullPointerException "throwable is null" instead of the quota error | keep the GoogleMapsException as the cause, so the quota error with status `OVER_QUERY_LIMIT` surfaces after the retry | not executed | GoogleMaps.QuotaExhaustionAsWritten | GoogleMaps.QuotaExhaustionSurfacesStatus |
