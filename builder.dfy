/**
 * GeocoderBuilder.kt / GeocoderBuilder.java: collects the providers, the
 * downloader factory and the switch policy, and builds a `Geocoder` that
 * shares the builder's own provider list.
 */
module Builder {
  import opened Wrappers
  import opened Model
  import opened Engine

  /** The provider list after `addGeocodingApi(api)`: a null API leaves it as it was. */
  function WithApi<N>(items: seq<Provider<N>>, api: Option<Provider<N>>): seq<Provider<N>> {
    if api.Some? then items + [api.value] else items
  }

  /** The provider list after a series of `addGeocodingApi` calls, in call order. */
  function WithApis<N>(items: seq<Provider<N>>, apis: seq<Option<Provider<N>>>): (r: seq<Provider<N>>)
    decreases |apis|
  {
    if apis == [] then items else WithApis(WithApi(items, apis[0]), apis[1..])
  }

  /** The non-null APIs of a series of calls, in call order. */
  function NonNull<N>(apis: seq<Option<Provider<N>>>): (r: seq<Provider<N>>)
    ensures |r| <= |apis|
    ensures forall p :: p in r ==> Some(p) in apis
    ensures forall i :: 0 <= i < |apis| && apis[i].Some? ==> apis[i].value in r
    decreases |apis|
  {
    if apis == [] then []
    else (if apis[0].Some? then [apis[0].value] else []) + NonNull(apis[1..])
  }

  /**
   * Call order is kept: one more call appends its API after those of the
   * earlier calls when it is non-null, and nothing when it is null.
   */
  lemma {:induction false} NonNullSnoc<N>(apis: seq<Option<Provider<N>>>, api: Option<Provider<N>>)
    ensures NonNull(apis + [api]) == NonNull(apis) + (if api.Some? then [api.value] else [])
    decreases |apis|
  {
    if apis == [] {
      assert [] + [api] == [api];
      assert [api][1..] == [];
    } else {
      assert (apis + [api])[0] == apis[0];
      assert (apis + [api])[1..] == apis[1..] + [api];
      NonNullSnoc(apis[1..], api);
    }
  }

  /**
   * Adding a series of APIs appends exactly the non-null ones, in call
   * order, after the providers already there.
   */
  lemma {:induction false} WithApisAppendsNonNull<N>(items: seq<Provider<N>>, apis: seq<Option<Provider<N>>>)
    ensures WithApis(items, apis) == items + NonNull(apis)
    decreases |apis|
  {
    if apis != [] {
      WithApisAppendsNonNull(WithApi(items, apis[0]), apis[1..]);
      if apis[0].Some? {
        assert items + [apis[0].value] + NonNull(apis[1..]) == items + ([apis[0].value] + NonNull(apis[1..]));
      } else {
        assert [] + NonNull(apis[1..]) == NonNull(apis[1..]);
      }
    }
  }

  /** Null APIs never reach the list: all-null calls leave it unchanged. */
  lemma NullApisIgnored<N>(items: seq<Provider<N>>, apis: seq<Option<Provider<N>>>)
    requires forall i :: 0 <= i < |apis| ==> apis[i].None?
    ensures WithApis(items, apis) == items
  {
    WithApisAppendsNonNull(items, apis);
    NonNullOfNulls(apis);
  }

  lemma {:induction false} NonNullOfNulls<N>(apis: seq<Option<Provider<N>>>)
    requires forall i :: 0 <= i < |apis| ==> apis[i].None?
    ensures NonNull(apis) == []
    decreases |apis|
  {
    if apis != [] {
      assert forall i :: 0 <= i < |apis[1..]| ==> apis[1..][i] == apis[i + 1];
      NonNullOfNulls(apis[1..]);
    }
  }

  /** The switch policy a fresh builder holds: Kotlin's never-switch object, Java's null. */
  function DefaultSwitchPolicy(variant: Variant): (r: Option<SwitchPolicy>)
    ensures variant == Kotlin ==> r.Some? && forall name, addresses :: !r.value(name, addresses)
    ensures variant == Java ==> r.None?
  {
    if variant == Kotlin then Some(NeverSwitch) else None
  }

  class GeocoderBuilder<N> {
    const geocodingApis: ProviderList<N>
    var downloaderFactory: Option<DownloaderFactory>
    var switchPolicy: Option<SwitchPolicy>

    /** A fresh builder: no providers, no downloader factory, the variant's default policy. */
    constructor (variant: Variant)
      ensures fresh(geocodingApis) && geocodingApis.items == []
      ensures downloaderFactory.None?
      ensures switchPolicy == DefaultSwitchPolicy(variant)
    {
      geocodingApis := new ProviderList();
      downloaderFactory := None;
      switchPolicy := DefaultSwitchPolicy(variant);
    }

    /** `addGeocodingApi`: appends a non-null API to the shared list and returns this builder. */
    method AddGeocodingApi(api: Option<Provider<N>>) returns (self: GeocoderBuilder<N>)
      modifies geocodingApis
      ensures geocodingApis.items == WithApi(old(geocodingApis.items), api)
      ensures self == this
    {
      if api.Some? {
        geocodingApis.Add(api.value);
      }
      self := this;
    }

    /** `setDownloaderFactory`: the last value set wins. */
    method SetDownloaderFactory(factory: Option<DownloaderFactory>) returns (self: GeocoderBuilder<N>)
      modifies this
      ensures downloaderFactory == factory && switchPolicy == old(switchPolicy)
      ensures self == this
    {
      downloaderFactory := factory;
      self := this;
    }

    /** `setSwitchPolicy`: the last value set wins. */
    method SetSwitchPolicy(policy: Option<SwitchPolicy>) returns (self: GeocoderBuilder<N>)
      modifies this
      ensures switchPolicy == policy && downloaderFactory == old(downloaderFactory)
      ensures self == this
    {
      switchPolicy := policy;
      self := this;
    }

    /** `build`: a geocoder over this builder's own provider list, not a copy of it. */
    method Build() returns (g: Geocoder<N>)
      ensures fresh(g)
      ensures g.downloaderFactory == downloaderFactory && g.switchPolicy == switchPolicy
      ensures g.geocodingApis == geocodingApis
    {
      g := new Geocoder(downloaderFactory, switchPolicy, geocodingApis);
    }
  }

  /**
   * A series of `addGeocodingApi` calls on a fresh builder, then `build`:
   * the geocoder queries exactly the non-null APIs, in call order, with the
   * variant's default policy.
   */
  method BuildWith<N>(variant: Variant, apis: seq<Option<Provider<N>>>) returns (g: Geocoder<N>)
    ensures g.geocodingApis.items == NonNull(apis)
    ensures g.switchPolicy == DefaultSwitchPolicy(variant) && g.downloaderFactory.None?
  {
    var builder := new GeocoderBuilder(variant);
    var i := 0;
    while i < |apis|
      invariant 0 <= i <= |apis|
      invariant fresh(builder.geocodingApis)
      invariant builder.geocodingApis.items == WithApis([], apis[..i])
      invariant builder.switchPolicy == DefaultSwitchPolicy(variant) && builder.downloaderFactory.None?
    {
      WithApisSnoc([], apis[..i], apis[i]);
      assert apis[..i + 1] == apis[..i] + [apis[i]];
      var _ := builder.AddGeocodingApi(apis[i]);
      i := i + 1;
    }
    assert apis[..i] == apis;
    WithApisAppendsNonNull([], apis);
    g := builder.Build();
  }

  /** Adding one more API after a series of calls. */
  lemma {:induction false} WithApisSnoc<N>(items: seq<Provider<N>>, apis: seq<Option<Provider<N>>>, api: Option<Provider<N>>)
    ensures WithApis(items, apis + [api]) == WithApi(WithApis(items, apis), api)
    decreases |apis|
  {
    if apis == [] {
      assert [api][1..] == [];
    } else {
      assert (apis + [api])[1..] == apis[1..] + [api];
      WithApisSnoc(WithApi(items, apis[0]), apis[1..], api);
    }
  }

  /**
   * The built geocoder shares the builder's list: an API added to the
   * builder after `build` is one the geocoder then calls.
   */
  method AddAfterBuild<N>(variant: Variant, p: Provider<N>) returns (g: Geocoder<N>)
    ensures g.geocodingApis.items == [p]
  {
    var builder := new GeocoderBuilder(variant);
    g := builder.Build();
    var _ := builder.AddGeocodingApi(Some(p));
  }
}
