/**
 * The interpreter of a Google Geocoding response (Parser.kt and its Java
 * twin Parser.java).
 *
 * `ParseJson` is the status dispatch. The reading of the result list and of
 * the address components are loops in the source; they are the methods
 * `ParseResults` and `ParseAddressComponents`, each proved equal to a
 * recursive specification function that the dispatch and the lemmas use.
 * Where the twins differ the members take a `Variant`.
 */
module GoogleParser {
  import opened Wrappers
  import opened GoogleStatus
  import opened Throwables
  import opened Model
  import opened Json

  /** `Location(getDouble("lat"), getDouble("lng"))`, latitude read first. */
  function ReadLocation(o: JsonObject): (r: Result<Location>)
    ensures r.Success? <==> "lat" in o && o["lat"].JNumber? && "lng" in o && o["lng"].JNumber?
    ensures r.Success? ==> r.value == Location(Some(o["lat"].number), Some(o["lng"].number))
  {
    var latitude :- GetDouble(o, "lat");
    var longitude :- GetDouble(o, "lng");
    Success(Location(Some(latitude), Some(longitude)))
  }

  /** The (southwest, northeast) corners a well-formed "viewport" or "bounds" object holds. */
  ghost predicate HasCorners(geometry: JsonObject, key: string, southwest: Location, northeast: Location) {
    && key in geometry && geometry[key].JObject?
    && var box := geometry[key].fields;
    && "southwest" in box && box["southwest"].JObject? && ReadLocation(box["southwest"].fields) == Success(southwest)
    && "northeast" in box && box["northeast"].JObject? && ReadLocation(box["northeast"].fields) == Success(northeast)
  }

  /**
   * The corners of a "viewport" or "bounds" member: absent when the member is
   * absent or lacks either corner, and read southwest first when both exist.
   */
  function ReadCorners(geometry: JsonObject, key: string): (r: Result<Option<(Location, Location)>>)
    ensures key !in geometry ==> r == Success(None)
    ensures r.Success? && r.value.Some? ==> HasCorners(geometry, key, r.value.value.0, r.value.value.1)
    ensures forall sw, ne :: HasCorners(geometry, key, sw, ne) ==> r == Success(Some((sw, ne)))
    ensures (key in geometry && geometry[key].JObject? &&
             ("southwest" !in geometry[key].fields || "northeast" !in geometry[key].fields)) ==> r == Success(None)
    ensures r.Failure? ==> r.error.JsonException?
  {
    if key !in geometry then Success(None)
    else
      var box :- GetObject(geometry, key);
      if "southwest" in box && "northeast" in box then
        var sw :- GetObject(box, "southwest");
        var southwest :- ReadLocation(sw);
        var ne :- GetObject(box, "northeast");
        var northeast :- ReadLocation(ne);
        Success(Some((southwest, northeast)))
      else
        Success(None)
  }

  /** An optional string member: absent gives `None`, present must be a string. */
  function ReadOptionalString(o: JsonObject, key: string): (r: Result<Option<string>>)
    ensures r == (if key !in o then Success(None)
                  else if o[key].JString? then Success(Some(o[key].text))
                  else Failure(Mismatch(key, "String")))
  {
    if key !in o then Success(None)
    else
      var s :- GetString(o, key);
      Success(Some(s))
  }

  /** An optional location member: absent gives `None`, present must be an object with lat and lng. */
  function ReadOptionalLocation(o: JsonObject, key: string): (r: Result<Option<Location>>)
    ensures key !in o ==> r == Success(None)
    ensures r.Success? && r.value.Some? ==> key in o && o[key].JObject? && ReadLocation(o[key].fields) == Success(r.value.value)
    ensures key in o && o[key].JObject? && ReadLocation(o[key].fields).Success? ==>
              r == Success(Some(ReadLocation(o[key].fields).value))
    ensures r.Failure? ==> r.error.JsonException?
  {
    if key !in o then Success(None)
    else
      var l :- GetObject(o, key);
      var location :- ReadLocation(l);
      Success(Some(location))
  }

  /**
   * The viewport built from the (southwest, northeast) corners: Kotlin calls
   * `Viewport(locationNortheast, locationSouthwest)` positionally, so its
   * corners are swapped; Java uses the named setters.
   */
  function MakeViewport(variant: Variant, corners: (Location, Location)): Viewport {
    match variant
    case Kotlin => Viewport(corners.1, corners.0)
    case Java => Viewport(corners.0, corners.1)
  }

  /** `a ?: b` for the Java builder: a setter that is not called keeps the field. */
  function Keep<T>(update: Option<T>, current: Option<T>): Option<T> {
    if update.Some? then update else current
  }

  /**
   * `parseGeometry`. Kotlin copies all four geometry fields from its locals
   * (null when not read); Java calls only the setters of the members present.
   */
  function ParseGeometry(variant: Variant, result: JsonObject, a: Address): (r: Result<Address>)
    ensures r.Success? ==> r.value.formattedAddress == a.formattedAddress && r.value.components == a.components
    ensures r.Failure? ==> r.error.JsonException?
  {
    if "geometry" !in result then
      Success(if variant == Kotlin then a.(locationType := None, location := None, viewport := None, bounds := None) else a)
    else
      var geometry :- GetObject(result, "geometry");
      var locationType :- ReadOptionalString(geometry, "location_type");
      var location :- ReadOptionalLocation(geometry, "location");
      var viewportCorners :- ReadCorners(geometry, "viewport");
      var boundsCorners :- ReadCorners(geometry, "bounds");
      var viewport := if viewportCorners.Some? then Some(MakeViewport(variant, viewportCorners.value)) else None;
      var bounds := if boundsCorners.Some? then Some(Bounds(boundsCorners.value.0, boundsCorners.value.1)) else None;
      Success(match variant
        case Kotlin => a.(locationType := locationType, location := location, viewport := viewport, bounds := bounds)
        case Java => a.(locationType := Keep(locationType, a.locationType), location := Keep(location, a.location),
                        viewport := Keep(viewport, a.viewport), bounds := Keep(bounds, a.bounds)))
  }

  /**
   * The viewport's orientation: when the JSON viewport has both corners,
   * Kotlin's `southwest` field holds the JSON northeast corner and its
   * `northeast` field the JSON southwest corner; Java keeps the JSON
   * orientation; bounds keep it in both.
   */
  lemma ViewportOrientation(variant: Variant, result: JsonObject, a: Address, southwest: Location, northeast: Location)
    requires ParseGeometry(variant, result, a).Success?
    requires "geometry" in result && result["geometry"].JObject?
    requires HasCorners(result["geometry"].fields, "viewport", southwest, northeast)
    ensures var v := ParseGeometry(variant, result, a).value.viewport;
            v == Some(if variant == Kotlin then Viewport(northeast, southwest) else Viewport(southwest, northeast))
  {
  }

  /** Bounds are never swapped. */
  lemma BoundsOrientation(variant: Variant, result: JsonObject, a: Address, southwest: Location, northeast: Location)
    requires ParseGeometry(variant, result, a).Success?
    requires "geometry" in result && result["geometry"].JObject?
    requires HasCorners(result["geometry"].fields, "bounds", southwest, northeast)
    ensures ParseGeometry(variant, result, a).value.bounds == Some(Bounds(southwest, northeast))
  {
  }

  /**
   * A viewport or bounds is set only from a JSON member that has both corners;
   * otherwise Kotlin leaves it null and Java leaves the previous value.
   */
  lemma CornersRequired(variant: Variant, result: JsonObject, a: Address)
    requires ParseGeometry(variant, result, a).Success?
    ensures var r := ParseGeometry(variant, result, a).value;
            && (r.viewport != (if variant == Kotlin then None else a.viewport) ==>
                  "geometry" in result && exists sw, ne :: HasCorners(result["geometry"].fields, "viewport", sw, ne))
            && (r.bounds != (if variant == Kotlin then None else a.bounds) ==>
                  "geometry" in result && exists sw, ne :: HasCorners(result["geometry"].fields, "bounds", sw, ne))
  {
    if "geometry" in result {
      var g := result["geometry"].fields;
      var v := ReadCorners(g, "viewport");
      if v.Success? && v.value.Some? {
        assert HasCorners(g, "viewport", v.value.value.0, v.value.value.1);
      }
      var b := ReadCorners(g, "bounds");
      if b.Success? && b.value.Some? {
        assert HasCorners(g, "bounds", b.value.value.0, b.value.value.1);
      }
    }
  }

  /**
   * The location and its type. Without "geometry", Kotlin clears all four
   * geometry fields and Java changes nothing. With it, geometry parsing
   * succeeds exactly when "geometry" is an object and its "location_type",
   * "location", "viewport" and "bounds" members all read; then the location
   * type is the "location_type" text and the location the "location" object's
   * lat and lng, each null when absent in Kotlin and kept from the address
   * when absent in Java.
   */
  lemma GeometryLocation(variant: Variant, result: JsonObject, a: Address)
    ensures var r := ParseGeometry(variant, result, a);
            "geometry" !in result ==>
              r == Success(if variant == Kotlin then a.(locationType := None, location := None, viewport := None, bounds := None)
                           else a)
    ensures var r := ParseGeometry(variant, result, a);
            "geometry" in result ==>
              (r.Success? <==> result["geometry"].JObject?
                               && ReadOptionalString(result["geometry"].fields, "location_type").Success?
                               && ReadOptionalLocation(result["geometry"].fields, "location").Success?
                               && ReadCorners(result["geometry"].fields, "viewport").Success?
                               && ReadCorners(result["geometry"].fields, "bounds").Success?)
    ensures var r := ParseGeometry(variant, result, a);
            r.Success? && "geometry" in result ==>
              var g := result["geometry"].fields;
              var locationType := ReadOptionalString(g, "location_type").value;
              var location := ReadOptionalLocation(g, "location").value;
              && locationType == (if "location_type" in g then Some(g["location_type"].text) else None)
              && (location.Some? <==> "location" in g)
              && (location.Some? ==> Success(location.value) == ReadLocation(g["location"].fields))
              && r.value.locationType == (if variant == Kotlin then locationType else Keep(locationType, a.locationType))
              && r.value.location == (if variant == Kotlin then location else Keep(location, a.location))
  {
  }

  // ---------------------------------------------------------------------------
  // Address components

  /** The text of a component: `long_name` when present, else `short_name`, else null. */
  function ComponentValue(component: JsonObject): (r: Result<Option<string>>)
    ensures "long_name" in component ==> r == ReadOptionalString(component, "long_name")
    ensures "long_name" !in component ==> r == ReadOptionalString(component, "short_name")
  {
    if "long_name" in component then ReadOptionalString(component, "long_name")
    else ReadOptionalString(component, "short_name")
  }

  /** The field update for one type string: its field takes the value, an unknown type changes nothing. */
  function Assign(fields: map<Component, string>, t: string, value: string): (r: map<Component, string>)
    ensures forall c :: Find(r, c) == if FieldForType(t) == Some(c) then Some(value) else Find(fields, c)
  {
    match FieldForType(t)
    case Some(field) => fields[field := value]
    case None => fields
  }

  /** The same update stated by type strings: exactly the field named `t` takes the value. */
  lemma AssignByName(fields: map<Component, string>, t: string, value: string)
    ensures forall c :: Find(Assign(fields, t, value), c) == if t == TypeName(c) then Some(value) else Find(fields, c)
  {
    forall c ensures Find(Assign(fields, t, value), c) == if t == TypeName(c) then Some(value) else Find(fields, c) {
      FieldForTypeIff(t, c);
    }
  }

  /** The inner `for (t in 0 until types.length())` after its first `n` iterations. */
  function ApplyTypes(fields: map<Component, string>, types: seq<Json>, n: nat, value: string): (r: Result<map<Component, string>>)
    requires n <= |types|
    ensures r.Failure? ==> r.error.JsonException?
    decreases n
  {
    if n == 0 then Success(fields)
    else
      var before :- ApplyTypes(fields, types, n - 1, value);
      var t :- StringAt(types, n - 1);
      Success(Assign(before, t, value))
  }

  /**
   * One pass of the outer loop over component `i`: it must be an object; it
   * is skipped without "types" or without a non-empty value; otherwise every
   * one of its types is applied.
   */
  function ApplyComponent(fields: map<Component, string>, components: seq<Json>, i: nat): (r: Result<map<Component, string>>)
    requires i < |components|
    ensures r.Failure? ==> r.error.JsonException?
  {
    var component :- ObjectAt(components, i);
    if "types" !in component then Success(fields)
    else
      var value :- ComponentValue(component);
      if value.None? || value.value == "" then Success(fields)
      else
        var types :- GetArray(component, "types");
        ApplyTypes(fields, types, |types|, value.value)
  }

  /** The outer `for (a in 0 until addressComponents.length())` after its first `n` iterations. */
  function ApplyComponents(fields: map<Component, string>, components: seq<Json>, n: nat): (r: Result<map<Component, string>>)
    requires n <= |components|
    ensures r.Failure? ==> r.error.JsonException?
    decreases n
  {
    if n == 0 then Success(fields)
    else
      var before :- ApplyComponents(fields, components, n - 1);
      ApplyComponent(before, components, n - 1)
  }

  /** Once a component fails, the loop over the later ones is never reached: the failure is the result. */
  lemma {:induction false} ComponentFailureStops(fields: map<Component, string>, components: seq<Json>, i: nat, n: nat)
    requires i <= n <= |components|
    requires ApplyComponents(fields, components, i).Failure?
    ensures ApplyComponents(fields, components, n) == ApplyComponents(fields, components, i)
    decreases n
  {
    if n > i {
      ComponentFailureStops(fields, components, i, n - 1);
    }
  }

  /** Once a type string fails, the later ones are never read. */
  lemma {:induction false} TypeFailureStops(fields: map<Component, string>, types: seq<Json>, t: nat, n: nat, value: string)
    requires t <= n <= |types|
    requires ApplyTypes(fields, types, t, value).Failure?
    ensures ApplyTypes(fields, types, n, value) == ApplyTypes(fields, types, t, value)
    decreases n
  {
    if n > t {
      TypeFailureStops(fields, types, t, n - 1, value);
      TypeFailureStep(fields, types, n, value);
    }
  }

  /** A failed prefix of the type loop fails the next step with the same error. */
  lemma TypeFailureStep(fields: map<Component, string>, types: seq<Json>, n: nat, value: string)
    requires 0 < n <= |types|
    requires ApplyTypes(fields, types, n - 1, value).Failure?
    ensures ApplyTypes(fields, types, n, value) == ApplyTypes(fields, types, n - 1, value)
  {
  }

  /**
   * `parseAddressComponents` as a value. Kotlin starts from 37 null locals
   * and copies them, and a null `formattedAddress`, over the address; Java
   * calls the setters on the builder, so the address's other fields stay.
   */
  function ComponentsSpec(variant: Variant, result: JsonObject, a: Address): (r: Result<Address>)
    ensures r.Success? ==> r.value.location == a.location && r.value.locationType == a.locationType
    ensures r.Success? ==> r.value.viewport == a.viewport && r.value.bounds == a.bounds
    ensures r.Success? ==> r.value.formattedAddress == (if variant == Kotlin then None else a.formattedAddress)
    ensures r.Failure? ==> r.error.JsonException?
  {
    var start := if variant == Kotlin then map[] else a.components;
    var fields :- if "address_components" in result then
                    var components :- GetArray(result, "address_components");
                    ApplyComponents(start, components, |components|)
                  else Success(start);
    Success(if variant == Kotlin then a.(formattedAddress := None, components := fields) else a.(components := fields))
  }

  /** The inner loop of `parseAddressComponents`: every type string of one component sets its field. */
  method AssignTypes(fields: map<Component, string>, types: seq<Json>, value: string) returns (r: Result<map<Component, string>>)
    ensures r == ApplyTypes(fields, types, |types|, value)
  {
    var current := fields;
    var t := 0;
    while t < |types|
      invariant 0 <= t <= |types|
      invariant ApplyTypes(fields, types, t, value) == Success(current)
    {
      var typeName := StringAt(types, t);
      if typeName.Failure? {
        TypeFailureStops(fields, types, t + 1, |types|, value);
        return Failure(typeName.error);
      }
      current := Assign(current, typeName.value, value);
      t := t + 1;
    }
    r := Success(current);
  }

  /** One pass of the outer loop of `parseAddressComponents`, over component `i`. */
  method AssignComponent(fields: map<Component, string>, components: seq<Json>, i: nat) returns (r: Result<map<Component, string>>)
    requires i < |components|
    ensures r == ApplyComponent(fields, components, i)
  {
    var component := ObjectAt(components, i);
    if component.Failure? {
      return Failure(component.error);
    }
    if "types" !in component.value {
      return Success(fields);
    }
    var value := ComponentValue(component.value);
    if value.Failure? {
      return Failure(value.error);
    }
    if value.value.None? || value.value.value == "" {
      return Success(fields);
    }
    var types := GetArray(component.value, "types");
    if types.Failure? {
      return Failure(types.error);
    }
    r := AssignTypes(fields, types.value, value.value.value);
  }

  /** The outer loop of `parseAddressComponents`, over the components in order. */
  method AssignComponents(start: map<Component, string>, components: seq<Json>) returns (r: Result<map<Component, string>>)
    ensures r == ApplyComponents(start, components, |components|)
  {
    var fields := start;
    var i := 0;
    while i < |components|
      invariant 0 <= i <= |components|
      invariant ApplyComponents(start, components, i) == Success(fields)
    {
      var applied := AssignComponent(fields, components, i);
      if applied.Failure? {
        ComponentFailureStops(start, components, i + 1, |components|);
        return Failure(applied.error);
      }
      fields := applied.value;
      i := i + 1;
    }
    r := Success(fields);
  }

  /** `parseAddressComponents`: the loops over the components and their types, then the copy onto the address. */
  method ParseAddressComponents(variant: Variant, result: JsonObject, a: Address) returns (r: Result<Address>)
    ensures r == ComponentsSpec(variant, result, a)
  {
    var fields: map<Component, string> := if variant == Kotlin then map[] else a.components;
    if "address_components" in result {
      var got := GetArray(result, "address_components");
      if got.Failure? {
        return Failure(got.error);
      }
      var applied := AssignComponents(fields, got.value);
      if applied.Failure? {
        return Failure(applied.error);
      }
      fields := applied.value;
    }
    if variant == Kotlin {
      r := Success(a.(formattedAddress := None, components := fields));
    } else {
      r := Success(a.(components := fields));
    }
  }

  // ---------------------------------------------------------------------------
  // What the component loops compute, stated without the loops

  /** The value of one field in the loop's state (null when never assigned). */
  function Find(fields: map<Component, string>, c: Component): Option<string> {
    if c in fields then Some(fields[c]) else None
  }

  /**
   * The value component `component` gives field `c`: it is an object with a
   * "types" array listing `c`'s type string and a non-empty value; `None` when
   * it does not name `c` or is skipped.
   */
  ghost function Contribution(component: Json, c: Component): Option<string> {
    if !component.JObject? then None
    else
      var f := component.fields;
      var value := ComponentValue(f);
      if "types" in f && f["types"].JArray? && JString(TypeName(c)) in f["types"].items
         && value.Success? && value.value.Some? && value.value.value != ""
      then value.value
      else None
  }

  /** The value that the last of the first `n` components naming `c` gives it. */
  ghost function LastNamed(components: seq<Json>, n: nat, c: Component): Option<string>
    requires n <= |components|
  {
    if n == 0 then None
    else if Contribution(components[n - 1], c).Some? then Contribution(components[n - 1], c)
    else LastNamed(components, n - 1, c)
  }

  /** Some of the first `n` type strings selects field `c` in the `when`. */
  ghost predicate Selects(types: seq<Json>, n: nat, c: Component)
    requires n <= |types|
    decreases n
  {
    n > 0 && (Selects(types, n - 1, c) || (types[n - 1].JString? && FieldForType(types[n - 1].text) == Some(c)))
  }

  /** A field is selected exactly when its own type string is among the first `n`. */
  lemma {:induction false} SelectsIff(types: seq<Json>, n: nat, c: Component)
    requires n <= |types|
    ensures Selects(types, n, c) <==> JString(TypeName(c)) in types[..n]
    decreases n
  {
    if n > 0 {
      SelectsIff(types, n - 1, c);
      assert types[..n] == types[..n - 1] + [types[n - 1]];
      if types[n - 1].JString? {
        FieldForTypeIff(types[n - 1].text, c);
      }
    }
  }

  /** The `n`-th type string sets field `c` exactly when it is `c`'s type string. */
  lemma TypesStep(fields: map<Component, string>, types: seq<Json>, n: nat, value: string, c: Component)
    requires 0 < n <= |types|
    requires ApplyTypes(fields, types, n, value).Success?
    ensures ApplyTypes(fields, types, n - 1, value).Success?
    ensures Find(ApplyTypes(fields, types, n, value).value, c) ==
            if types[n - 1] == JString(TypeName(c)) then Some(value)
            else Find(ApplyTypes(fields, types, n - 1, value).value, c)
  {
    AssignByName(ApplyTypes(fields, types, n - 1, value).value, types[n - 1].text, value);
  }

  /**
   * Last write wins over a run of states: if each step sets field `c` to
   * `value` exactly when its type string is `name`, and keeps it otherwise,
   * the last state holds `value` exactly when `name` occurs.
   */
  lemma {:induction false} LastWrite(states: seq<map<Component, string>>, types: seq<Json>, name: Json, value: string, c: Component)
    requires |states| == |types| + 1
    requires forall k :: 0 < k < |states| ==>
               Find(states[k], c) == if types[k - 1] == name then Some(value) else Find(states[k - 1], c)
    ensures Find(states[|types|], c) == if name in types then Some(value) else Find(states[0], c)
    decreases |types|
  {
    if types != [] {
      var n := |types|;
      LastWrite(states[..n], types[..n - 1], name, value, c);
      assert types == types[..n - 1] + [types[n - 1]];
    }
  }

  /** The states the type loop passes through. */
  function TypeStates(fields: map<Component, string>, types: seq<Json>, n: nat, value: string): (states: seq<map<Component, string>>)
    requires n <= |types|
    requires ApplyTypes(fields, types, n, value).Success?
    ensures |states| == n + 1
    ensures forall k :: 0 <= k <= n ==> ApplyTypes(fields, types, k, value) == Success(states[k])
    decreases n
  {
    if n == 0 then [fields]
    else TypeStates(fields, types, n - 1, value) + [ApplyTypes(fields, types, n, value).value]
  }

  /** After `n` type strings, field `c` holds the value exactly when its type string is among them. */
  lemma TypesSetNamed(fields: map<Component, string>, types: seq<Json>, n: nat, value: string, c: Component)
    requires n <= |types|
    requires ApplyTypes(fields, types, n, value).Success?
    ensures Find(ApplyTypes(fields, types, n, value).value, c) ==
            if JString(TypeName(c)) in types[..n] then Some(value) else Find(fields, c)
  {
    var states := TypeStates(fields, types, n, value);
    forall k | 0 < k <= n
      ensures Find(states[k], c) == if types[..n][k - 1] == JString(TypeName(c)) then Some(value) else Find(states[k - 1], c)
    {
      TypesStep(fields, types, k, value, c);
    }
    LastWrite(states, types[..n], JString(TypeName(c)), value, c);
  }

  /**
   * After the type loop, exactly the fields whose type strings were listed
   * hold the value (a multi-type component sets them all; unknown types are
   * ignored).
   */
  lemma TypesSetExactly(fields: map<Component, string>, types: seq<Json>, n: nat, value: string)
    requires n <= |types|
    requires ApplyTypes(fields, types, n, value).Success?
    ensures forall c :: Find(ApplyTypes(fields, types, n, value).value, c) ==
                        if JString(TypeName(c)) in types[..n] then Some(value) else Find(fields, c)
  {
    forall c ensures Find(ApplyTypes(fields, types, n, value).value, c) ==
                     if JString(TypeName(c)) in types[..n] then Some(value) else Find(fields, c) {
      TypesSetNamed(fields, types, n, value, c);
    }
  }

  /** Stated through the `when`: after `n` type strings, exactly the selected fields hold the value. */
  lemma TypesSetSelected(fields: map<Component, string>, types: seq<Json>, n: nat, value: string)
    requires n <= |types|
    requires ApplyTypes(fields, types, n, value).Success?
    ensures forall c :: Find(ApplyTypes(fields, types, n, value).value, c) ==
                        if Selects(types, n, c) then Some(value) else Find(fields, c)
  {
    forall c ensures Find(ApplyTypes(fields, types, n, value).value, c) ==
                     if Selects(types, n, c) then Some(value) else Find(fields, c) {
      TypesSetNamed(fields, types, n, value, c);
      SelectsIff(types, n, c);
    }
  }

  /** One component changes exactly the fields it names, to its value. */
  lemma ComponentEffect(fields: map<Component, string>, components: seq<Json>, i: nat)
    requires i < |components|
    requires ApplyComponent(fields, components, i).Success?
    ensures forall c :: Find(ApplyComponent(fields, components, i).value, c) ==
                        if Contribution(components[i], c).Some? then Contribution(components[i], c) else Find(fields, c)
  {
    var component := components[i];
    if component.JObject? && "types" in component.fields {
      var value := ComponentValue(component.fields);
      if value.Success? && value.value.Some? && value.value.value != "" {
        var types := component.fields["types"].items;
        TypesSetExactly(fields, types, |types|, value.value.value);
        assert types[..|types|] == types;
      }
    }
  }

  /**
   * Later components overwrite earlier ones: after the first `n` components
   * each field holds the value of the last component that names it, or its
   * starting value when none does.
   */
  lemma {:induction false} LaterComponentsWin(fields: map<Component, string>, components: seq<Json>, n: nat)
    requires n <= |components|
    requires ApplyComponents(fields, components, n).Success?
    ensures forall c :: Find(ApplyComponents(fields, components, n).value, c) ==
                        if LastNamed(components, n, c).Some? then LastNamed(components, n, c) else Find(fields, c)
    decreases n
  {
    if n > 0 {
      LaterComponentsWin(fields, components, n - 1);
      ComponentEffect(ApplyComponents(fields, components, n - 1).value, components, n - 1);
    }
  }

  /**
   * The components' effect on an address: each of the 37 fields ends with the
   * value of the last component naming it. Where none does, Kotlin leaves it
   * null and Java leaves the address's own value.
   */
  lemma ComponentFields(variant: Variant, result: JsonObject, a: Address)
    requires ComponentsSpec(variant, result, a).Success?
    requires "address_components" in result && result["address_components"].JArray?
    ensures var components := result["address_components"].items;
            forall c :: Get(ComponentsSpec(variant, result, a).value, c) ==
                        if LastNamed(components, |components|, c).Some? then LastNamed(components, |components|, c)
                        else if variant == Kotlin then None else Get(a, c)
  {
    var components := result["address_components"].items;
    LaterComponentsWin(if variant == Kotlin then map[] else a.components, components, |components|);
  }

  // ---------------------------------------------------------------------------
  // Results

  /**
   * One address from `results[i]`: formatted_address when present, then the
   * geometry, then the components when asked for.
   */
  function ParseOne(variant: Variant, results: seq<Json>, i: nat, withComponents: bool): (r: Result<Address>)
    requires i < |results|
    ensures r.Failure? ==> r.error.JsonException?
  {
    var result :- ObjectAt(results, i);
    var formatted :- ReadOptionalString(result, "formatted_address");
    var withGeometry :- ParseGeometry(variant, result, EmptyAddress().(formattedAddress := formatted));
    if withComponents then ComponentsSpec(variant, result, withGeometry) else Success(withGeometry)
  }

  /**
   * How many results are read. Kotlin: `maxResults` when the list is at least
   * that long and `maxResults != -1`, else the length. Java has no `-1` case.
   */
  function ResultCount(variant: Variant, length: nat, maxResults: int): int {
    match variant
    case Kotlin => if length >= maxResults && maxResults != -1 then maxResults else length
    case Java => if length >= maxResults then maxResults else length
  }

  /** The count is `min(length, maxResults)` for a non-negative limit; Kotlin's `-1` reads everything. */
  lemma ResultCountBounds(variant: Variant, length: nat, maxResults: int)
    ensures maxResults >= 0 ==> ResultCount(variant, length, maxResults) == if length < maxResults then length else maxResults
    ensures variant == Kotlin && maxResults == -1 ==> ResultCount(variant, length, maxResults) == length
    ensures variant == Java && maxResults == -1 ==> ResultCount(variant, length, maxResults) == -1
    ensures ResultCount(variant, length, maxResults) < 0 <==>
              maxResults < 0 && (variant == Java || maxResults != -1)
  {
  }

  /** The first `n` addresses, in input order; the first result that fails ends the reading. */
  function ParseEach(variant: Variant, results: seq<Json>, n: nat, withComponents: bool): (r: Result<seq<Address>>)
    requires n <= |results|
    ensures r.Success? ==> |r.value| == n
    ensures r.Success? ==> forall j :: 0 <= j < n ==> ParseOne(variant, results, j, withComponents) == Success(r.value[j])
    ensures r.Failure? ==> r.error.JsonException?
    decreases n
  {
    if n == 0 then Success([])
    else
      var before :- ParseEach(variant, results, n - 1, withComponents);
      var address :- ParseOne(variant, results, n - 1, withComponents);
      Success(before + [address])
  }

  /** Reading all of the first `n` results succeeds exactly when each of them does. */
  lemma {:induction false} ParseEachSucceeds(variant: Variant, results: seq<Json>, n: nat, withComponents: bool)
    requires n <= |results|
    ensures ParseEach(variant, results, n, withComponents).Success? <==>
            forall j :: 0 <= j < n ==> ParseOne(variant, results, j, withComponents).Success?
    decreases n
  {
    if n > 0 {
      ParseEachSucceeds(variant, results, n - 1, withComponents);
    }
  }

  /** Once a result fails, the later ones are never read. */
  lemma {:induction false} ResultFailureStops(variant: Variant, results: seq<Json>, i: nat, n: nat, withComponents: bool)
    requires i <= n <= |results|
    requires ParseEach(variant, results, i, withComponents).Failure?
    ensures ParseEach(variant, results, n, withComponents) == ParseEach(variant, results, i, withComponents)
    decreases n
  {
    if n > i {
      ResultFailureStops(variant, results, i, n - 1, withComponents);
    }
  }

  /**
   * `parseResults` as a value: a negative count is the IllegalArgumentException
   * of `ArrayList(count)`, which is not a JSONException.
   */
  function ResultsSpec(variant: Variant, maxResults: int, withComponents: bool, o: JsonObject): (r: Result<seq<Address>>)
    ensures r.Failure? ==> r.error.JsonException? || r.error.IllegalCapacity?
  {
    var results :- GetArray(o, "results");
    var count := ResultCount(variant, |results|, maxResults);
    if count < 0 then Failure(IllegalCapacity(count))
    else ParseEach(variant, results, count, withComponents)
  }

  /** The body of the loop of `parseResults`: one address from `results[i]`. */
  method ParseResult(variant: Variant, results: seq<Json>, i: nat, withComponents: bool) returns (r: Result<Address>)
    requires i < |results|
    ensures r == ParseOne(variant, results, i, withComponents)
  {
    var result := ObjectAt(results, i);
    if result.Failure? {
      return Failure(result.error);
    }
    var formatted := ReadOptionalString(result.value, "formatted_address");
    if formatted.Failure? {
      return Failure(formatted.error);
    }
    r := ParseGeometry(variant, result.value, EmptyAddress().(formattedAddress := formatted.value));
    if r.Success? && withComponents {
      r := ParseAddressComponents(variant, result.value, r.value);
    }
  }

  /** `parseResults`: the loop that fills the ArrayList. */
  method ParseResults(variant: Variant, maxResults: int, withComponents: bool, o: JsonObject) returns (r: Result<seq<Address>>)
    ensures r == ResultsSpec(variant, maxResults, withComponents, o)
  {
    var got := GetArray(o, "results");
    if got.Failure? {
      return Failure(got.error);
    }
    var results := got.value;
    var count := ResultCount(variant, |results|, maxResults);
    if count < 0 {
      return Failure(IllegalCapacity(count));
    }
    var addressList: seq<Address> := [];
    var i := 0;
    while i < count
      invariant 0 <= i <= count <= |results|
      invariant ParseEach(variant, results, i, withComponents) == Success(addressList)
    {
      var address := ParseResult(variant, results, i, withComponents);
      if address.Failure? {
        ResultFailureStops(variant, results, i + 1, count, withComponents);
        return Failure(address.error);
      }
      addressList := addressList + [address.value];
      i := i + 1;
    }
    r := Success(addressList);
  }

  /**
   * With components parsed, Kotlin returns every address without its
   * formatted address, while Java keeps it: the Java builder field is never
   * cleared.
   */
  lemma FormattedAddressKept(variant: Variant, results: seq<Json>, i: nat)
    requires i < |results|
    requires ParseOne(variant, results, i, true).Success?
    ensures var r := ParseOne(variant, results, i, true).value;
            match variant
            case Kotlin => r.formattedAddress.None?
            case Java =>
              && results[i].JObject?
              && r.formattedAddress == (if "formatted_address" in results[i].fields then Some(results[i].fields["formatted_address"].text) else None)
  {
  }

  // ---------------------------------------------------------------------------
  // The status dispatch

  /** `catch (e: JSONException) { throw GoogleMapsException(e) }`: only JSONExceptions are wrapped. */
  function WrapJson<T>(r: Result<T>): (w: Result<T>)
    ensures r.Success? ==> w == r
    ensures r.Failure? && r.error.JsonException? ==> w == Failure(WrapCause(r.error))
    ensures r.Failure? && !r.error.JsonException? ==> w == r
  {
    if r.Failure? && r.error.JsonException? then Failure(WrapCause(r.error)) else r
  }

  /** The exception for a status other than OK and ZERO_RESULTS, with `error_message` when it reads as a string. */
  function StatusFailure(status: Status, o: JsonObject): (e: Throwable)
    ensures e.GoogleMapsException? && e.status == Some(status) && e.cause.None?
    ensures e.errorMessage == if "error_message" in o && o["error_message"].JString? then Some(o["error_message"].text) else None
  {
    var e := ForStatus(status);
    match ReadOptionalString(o, "error_message")
    case Success(Some(message)) => WithErrorMessage(e, message)
    case _ => e
  }

  /** The exception for a response without "status": a plain Exception around a JSONException. */
  const MissingStatus: Throwable := PlainException(JsonException("No \"status\" field"))

  /** `parseJson` on a decoded response. */
  function ParseJson(variant: Variant, document: Document, maxResults: int, withComponents: bool): (r: Result<seq<Address>>)
    ensures document.Malformed? ==> r == Failure(WrapCause(JsonException(document.reason)))
    ensures r.Failure? ==> r.error.GoogleMapsException? || r.error == MissingStatus || r.error.IllegalCapacity?
  {
    var o :- WrapJson(ObjectOf(document));
    if "status" !in o then Failure(MissingStatus)
    else
      var text :- WrapJson(GetString(o, "status"));
      var status := FromString(Some(text));
      if status == Ok then
        if "results" in o then WrapJson(ResultsSpec(variant, maxResults, withComponents, o)) else Success([])
      else if status == ZeroResults then Success([])
      else Failure(StatusFailure(status, o))
  }

  /** A response whose root object has a string "status". */
  ghost predicate HasStatus(document: Document, status: Status) {
    document.Parsed? && document.root.JObject? && "status" in document.root.fields
    && document.root.fields["status"].JString?
    && FromString(Some(document.root.fields["status"].text)) == status
  }

  /**
   * The status dispatch: a missing status is a plain exception, OK without
   * results and ZERO_RESULTS are the empty list, OK with results reads them,
   * and every other status is a GoogleMapsException carrying it.
   */
  lemma StatusDispatch(variant: Variant, document: Document, maxResults: int, withComponents: bool, status: Status)
    ensures document.Parsed? && document.root.JObject? && "status" !in document.root.fields ==>
              ParseJson(variant, document, maxResults, withComponents) == Failure(MissingStatus)
    ensures HasStatus(document, status) && status == ZeroResults ==>
              ParseJson(variant, document, maxResults, withComponents) == Success([])
    ensures HasStatus(document, status) && status == Ok && "results" !in document.root.fields ==>
              ParseJson(variant, document, maxResults, withComponents) == Success([])
    ensures HasStatus(document, status) && status == Ok && "results" in document.root.fields ==>
              ParseJson(variant, document, maxResults, withComponents) ==
              WrapJson(ResultsSpec(variant, maxResults, withComponents, document.root.fields))
    ensures HasStatus(document, status) && status != Ok && status != ZeroResults ==>
              ParseJson(variant, document, maxResults, withComponents) == Failure(StatusFailure(status, document.root.fields))
  {
  }

  /** Conversely, a GoogleMapsException that carries a status comes from a response with that status. */
  lemma StatusFailureOnlyFromStatus(variant: Variant, document: Document, maxResults: int, withComponents: bool)
    requires var r := ParseJson(variant, document, maxResults, withComponents);
             r.Failure? && r.error.GoogleMapsException? && r.error.status.Some?
    ensures var e := ParseJson(variant, document, maxResults, withComponents).error;
            HasStatus(document, e.status.value) && e.status.value != Ok && e.status.value != ZeroResults
  {
  }

  /**
   * The count of a successful read: with a non-negative limit, at most that
   * many addresses and all of them when there are fewer; Kotlin's `-1` reads
   * every result; Java's `-1` is the capacity failure.
   */
  lemma ResultsCount(variant: Variant, maxResults: int, withComponents: bool, o: JsonObject)
    requires "results" in o && o["results"].JArray?
    ensures var n := |o["results"].items|;
            var r := ResultsSpec(variant, maxResults, withComponents, o);
            && (r.Success? && maxResults >= 0 ==> |r.value| == if n < maxResults then n else maxResults)
            && (r.Success? && variant == Kotlin && maxResults == -1 ==> |r.value| == n)
            && (variant == Java && maxResults == -1 ==> r == Failure(IllegalCapacity(-1)))
  {
    ResultCountBounds(variant, |o["results"].items|, maxResults);
  }
}
