/**
 * The geocoder's value objects (model/Address.kt, Location.kt, Viewport.kt,
 * Bounds.kt): immutable records whose fields are all optional.
 *
 * The 37 address-component strings of `Address` are kept in one map from the
 * component's name to its value; a name absent from the map is a null field.
 */
module Model {
  import opened Wrappers

  /** Which of the two twin implementations, Kotlin or Java, a member follows where they differ. */
  datatype Variant = Kotlin | Java

  /** `Location(latitude: Double?, longitude: Double?)`. */
  datatype Location = Location(latitude: Option<real>, longitude: Option<real>)

  /** `Viewport(southwest, northeast)`: the positional order of the Kotlin constructor. */
  datatype Viewport = Viewport(southwest: Location, northeast: Location)

  /** `Bounds(southwest, northeast)`. */
  datatype Bounds = Bounds(southwest: Location, northeast: Location)

  /** The 37 address fields that a Google address component can set, in declaration order. */
  datatype Component =
    | StreetAddress | Route | Intersection | Political | Country
    | AdministrativeAreaLevel1 | AdministrativeAreaLevel2 | AdministrativeAreaLevel3
    | AdministrativeAreaLevel4 | AdministrativeAreaLevel5
    | ColloquialArea | Locality | Ward | SubLocality
    | SubLocalityLevel1 | SubLocalityLevel2 | SubLocalityLevel3 | SubLocalityLevel4 | SubLocalityLevel5
    | Neighborhood | Premise | SubPremise | PostalCode | NaturalFeature | Airport | Park
    | PointOfInterest | Floor | Establishment | Parking | PostBox | PostTown | Room
    | StreetNumber | BusStation | TrainStation | TransitStation

  /** The Address data class. */
  datatype Address = Address(
    formattedAddress: Option<string>,
    components: map<Component, string>,
    location: Option<Location>,
    locationType: Option<string>,
    viewport: Option<Viewport>,
    bounds: Option<Bounds>)

  /** `Address()`: every field null. */
  function EmptyAddress(): (a: Address)
    ensures a.formattedAddress.None? && a.locationType.None?
    ensures forall c :: Get(a, c).None?
    ensures a.location.None? && a.viewport.None? && a.bounds.None?
  {
    Address(None, map[], None, None, None, None)
  }

  /** The value of one component field (null when absent). */
  function Get(a: Address, c: Component): Option<string> {
    if c in a.components then Some(a.components[c]) else None
  }

  /** `a.copy(c = value)`: the same address with one component field replaced. */
  function Set(a: Address, c: Component, value: Option<string>): (r: Address)
    ensures Get(r, c) == value
    ensures forall d :: d != c ==> Get(r, d) == Get(a, d)
    ensures r.formattedAddress == a.formattedAddress && r.locationType == a.locationType
    ensures r.location == a.location && r.viewport == a.viewport && r.bounds == a.bounds
  {
    match value
    case Some(v) => a.(components := a.components[c := v])
    case None => a.(components := a.components - {c})
  }

  /** Every field of the two addresses holds the same value. */
  ghost predicate SameFields(a: Address, b: Address) {
    && a.formattedAddress == b.formattedAddress
    && (forall c :: Get(a, c) == Get(b, c))
    && a.location == b.location && a.locationType == b.locationType
    && a.viewport == b.viewport && a.bounds == b.bounds
  }

  /** Data-class equality: two addresses are equal exactly when all their fields are. */
  lemma FieldwiseEquality(a: Address, b: Address)
    ensures a == b <==> SameFields(a, b)
  {
    if SameFields(a, b) {
      assert forall c :: c in a.components <==> c in b.components by {
        forall c ensures c in a.components <==> c in b.components {
          assert Get(a, c) == Get(b, c);
        }
      }
      assert a.components.Keys == b.components.Keys;
      forall c | c in a.components ensures a.components[c] == b.components[c] {
        assert Get(a, c) == Get(b, c);
      }
      assert a.components == b.components;
    }
  }

  /**
   * `copy` of one field is determined by that field alone: copying the value an
   * address already holds gives the same address, and a second copy of the
   * same field overrides the first.
   */
  lemma CopyLaws(a: Address, c: Component, v: Option<string>, w: Option<string>)
    ensures Set(a, c, Get(a, c)) == a
    ensures Set(Set(a, c, v), c, w) == Set(a, c, w)
  {
    FieldwiseEquality(Set(a, c, Get(a, c)), a);
    FieldwiseEquality(Set(Set(a, c, v), c, w), Set(a, c, w));
  }

  /** The `types` string of the Google Geocoding API that names each component field. */
  function TypeName(c: Component): string {
    match c
    case StreetAddress => "street_address"
    case Route => "route"
    case Intersection => "intersection"
    case Political => "political"
    case Country => "country"
    case AdministrativeAreaLevel1 => "administrative_area_level_1"
    case AdministrativeAreaLevel2 => "administrative_area_level_2"
    case AdministrativeAreaLevel3 => "administrative_area_level_3"
    case AdministrativeAreaLevel4 => "administrative_area_level_4"
    case AdministrativeAreaLevel5 => "administrative_area_level_5"
    case ColloquialArea => "colloquial_area"
    case Locality => "locality"
    case Ward => "ward"
    case SubLocality => "sublocality"
    case SubLocalityLevel1 => "sublocality_level_1"
    case SubLocalityLevel2 => "sublocality_level_2"
    case SubLocalityLevel3 => "sublocality_level_3"
    case SubLocalityLevel4 => "sublocality_level_4"
    case SubLocalityLevel5 => "sublocality_level_5"
    case Neighborhood => "neighborhood"
    case Premise => "premise"
    case SubPremise => "subpremise"
    case PostalCode => "postal_code"
    case NaturalFeature => "natural_feature"
    case Airport => "airport"
    case Park => "park"
    case PointOfInterest => "point_of_interest"
    case Floor => "floor"
    case Establishment => "establishment"
    case Parking => "parking"
    case PostBox => "post_box"
    case PostTown => "postal_town"
    case Room => "room"
    case StreetNumber => "street_number"
    case BusStation => "bus_station"
    case TrainStation => "train_station"
    case TransitStation => "transit_station"
  }

  /** The fields whose type string begins with `first`. */
  function Candidates(first: char): seq<Component> {
    match first
    case 's' => [StreetAddress, SubLocality, SubLocalityLevel1, SubLocalityLevel2, SubLocalityLevel3, SubLocalityLevel4, SubLocalityLevel5, SubPremise, StreetNumber]
    case 'r' => [Route, Room]
    case 'i' => [Intersection]
    case 'p' => [Political, Premise, PostalCode, Park, PointOfInterest, Parking, PostBox, PostTown]
    case 'c' => [Country, ColloquialArea]
    case 'a' => [AdministrativeAreaLevel1, AdministrativeAreaLevel2, AdministrativeAreaLevel3, AdministrativeAreaLevel4, AdministrativeAreaLevel5, Airport]
    case 'l' => [Locality]
    case 'w' => [Ward]
    case 'n' => [Neighborhood, NaturalFeature]
    case 'f' => [Floor]
    case 'e' => [Establishment]
    case 'b' => [BusStation]
    case 't' => [TrainStation, TransitStation]
    case _ => []
  }

  /** The first of `cs` whose type string is `t`: the branches of the `when` tried in order. */
  function FirstNamed(t: string, cs: seq<Component>): Option<Component>
    decreases |cs|
  {
    if cs == [] then None
    else if TypeName(cs[0]) == t then Some(cs[0])
    else FirstNamed(t, cs[1..])
  }

  /**
   * The `when`/`switch` on a component's type: the field a recognised type
   * string sets, `None` for any other string (the ignored default case).
   * Only the branches whose type string starts with the same letter as `t`
   * are tried: every other branch fails on the first character anyway, and
   * a single 37-way string match made each parser lemma that unfolds the
   * dispatch several times more expensive to verify. `FieldForTypeIff` shows
   * the result is exactly that of a single match on `TypeName`.
   */
  function FieldForType(t: string): Option<Component> {
    if t == [] then None else FirstNamed(t, Candidates(t[0]))
  }

  /** No two fields of `cs` share a type string. */
  ghost predicate NamesDistinct(cs: seq<Component>) {
    forall i, j :: 0 <= i < j < |cs| ==> TypeName(cs[i]) != TypeName(cs[j])
  }

  /** The search answers a field of `cs` named `t`, and nothing only when no field of `cs` is named `t`. */
  lemma {:induction false} FirstNamedSound(t: string, cs: seq<Component>)
    ensures FirstNamed(t, cs).Some? ==> FirstNamed(t, cs).value in cs && TypeName(FirstNamed(t, cs).value) == t
    ensures FirstNamed(t, cs).None? ==> forall c :: c in cs ==> TypeName(c) != t
    decreases |cs|
  {
    if cs != [] && TypeName(cs[0]) != t {
      FirstNamedSound(t, cs[1..]);
    }
  }

  /** Among fields with distinct type strings, the search for a field's own type string finds that field. */
  lemma FirstNamedFinds(cs: seq<Component>, c: Component)
    requires NamesDistinct(cs) && c in cs
    ensures FirstNamed(TypeName(c), cs) == Some(c)
  {
    FirstNamedSound(TypeName(c), cs);
  }

  /** The lengths (and, within one length, a distinguishing letter) of the type strings of StreetAddress, SubLocality, SubLocalityLevel1. */
  lemma ShapeS1()
    ensures |TypeName(StreetAddress)| == 14
    ensures |TypeName(SubLocality)| == 11
    ensures |TypeName(SubLocalityLevel1)| == 19
    ensures TypeName(SubLocalityLevel1)[18] == '1'
  {
  }

  /** The lengths (and, within one length, a distinguishing letter) of the type strings of SubLocalityLevel2, SubLocalityLevel3, SubLocalityLevel4. */
  lemma ShapeS2()
    ensures |TypeName(SubLocalityLevel2)| == 19
    ensures |TypeName(SubLocalityLevel3)| == 19
    ensures |TypeName(SubLocalityLevel4)| == 19
    ensures TypeName(SubLocalityLevel2)[18] == '2'
    ensures TypeName(SubLocalityLevel3)[18] == '3'
    ensures TypeName(SubLocalityLevel4)[18] == '4'
  {
  }

  /** The lengths (and, within one length, a distinguishing letter) of the type strings of SubLocalityLevel5, SubPremise, StreetNumber. */
  lemma ShapeS3()
    ensures |TypeName(SubLocalityLevel5)| == 19
    ensures |TypeName(SubPremise)| == 10
    ensures |TypeName(StreetNumber)| == 13
    ensures TypeName(SubLocalityLevel5)[18] == '5'
  {
  }

  /** The type strings of the 's' group are pairwise distinct. */
  lemma DistinctS()
    ensures NamesDistinct(Candidates('s'))
  {
    ShapeS1();
    ShapeS2();
    ShapeS3();
  }

  /** The fields of the 's' group have type strings that start with 's'. */
  lemma InGroupS(c: Component)
    requires c == StreetAddress || c == SubLocality || c == SubLocalityLevel1 || c == SubLocalityLevel2 || c == SubLocalityLevel3 || c == SubLocalityLevel4 || c == SubLocalityLevel5 || c == SubPremise || c == StreetNumber
    ensures |TypeName(c)| > 0 && TypeName(c)[0] == 's' && c in Candidates('s')
  {
  }

  /** The lengths (and, within one length, a distinguishing letter) of the 'r' group's type strings. */
  lemma ShapeR()
    ensures |TypeName(Route)| == 5
    ensures |TypeName(Room)| == 4
  {
  }

  /** The type strings of the 'r' group are pairwise distinct. */
  lemma DistinctR()
    ensures NamesDistinct(Candidates('r'))
  {
    ShapeR();
  }

  /** The fields of the 'r' group have type strings that start with 'r'. */
  lemma InGroupR(c: Component)
    requires c == Route || c == Room
    ensures |TypeName(c)| > 0 && TypeName(c)[0] == 'r' && c in Candidates('r')
  {
  }

  /** The fields of the 'i' group have type strings that start with 'i'. */
  lemma InGroupI(c: Component)
    requires c == Intersection
    ensures |TypeName(c)| > 0 && TypeName(c)[0] == 'i' && c in Candidates('i')
  {
  }

  /** The lengths (and, within one length, a distinguishing letter) of the type strings of Political, Premise, PostalCode. */
  lemma ShapeP1()
    ensures |TypeName(Political)| == 9
    ensures |TypeName(Premise)| == 7
    ensures |TypeName(PostalCode)| == 11
    ensures TypeName(Premise)[1] == 'r'
    ensures TypeName(PostalCode)[7] == 'c'
  {
  }

  /** The lengths (and, within one length, a distinguishing letter) of the type strings of Park, PointOfInterest, Parking. */
  lemma ShapeP2()
    ensures |TypeName(Park)| == 4
    ensures |TypeName(PointOfInterest)| == 17
    ensures |TypeName(Parking)| == 7
    ensures TypeName(Parking)[1] == 'a'
  {
  }

  /** The lengths (and, within one length, a distinguishing letter) of the type strings of PostBox, PostTown. */
  lemma ShapeP3()
    ensures |TypeName(PostBox)| == 8
    ensures |TypeName(PostTown)| == 11
    ensures TypeName(PostTown)[7] == 't'
  {
  }

  /** The type strings of the 'p' group are pairwise distinct. */
  lemma DistinctP()
    ensures NamesDistinct(Candidates('p'))
  {
    ShapeP1();
    ShapeP2();
    ShapeP3();
  }

  /** The fields of the 'p' group have type strings that start with 'p'. */
  lemma InGroupP(c: Component)
    requires c == Political || c == Premise || c == PostalCode || c == Park || c == PointOfInterest || c == Parking || c == PostBox || c == PostTown
    ensures |TypeName(c)| > 0 && TypeName(c)[0] == 'p' && c in Candidates('p')
  {
  }

  /** The lengths (and, within one length, a distinguishing letter) of the 'c' group's type strings. */
  lemma ShapeC()
    ensures |TypeName(Country)| == 7
    ensures |TypeName(ColloquialArea)| == 15
  {
  }

  /** The type strings of the 'c' group are pairwise distinct. */
  lemma DistinctC()
    ensures NamesDistinct(Candidates('c'))
  {
    ShapeC();
  }

  /** The fields of the 'c' group have type strings that start with 'c'. */
  lemma InGroupC(c: Component)
    requires c == Country || c == ColloquialArea
    ensures |TypeName(c)| > 0 && TypeName(c)[0] == 'c' && c in Candidates('c')
  {
  }

  /** The lengths (and, within one length, a distinguishing letter) of the type strings of AdministrativeAreaLevel1, AdministrativeAreaLevel2, AdministrativeAreaLevel3. */
  lemma ShapeA1()
    ensures |TypeName(AdministrativeAreaLevel1)| == 27
    ensures |TypeName(AdministrativeAreaLevel2)| == 27
    ensures |TypeName(AdministrativeAreaLevel3)| == 27
    ensures TypeName(AdministrativeAreaLevel1)[26] == '1'
    ensures TypeName(AdministrativeAreaLevel2)[26] == '2'
    ensures TypeName(AdministrativeAreaLevel3)[26] == '3'
  {
  }

  /** The lengths (and, within one length, a distinguishing letter) of the type strings of AdministrativeAreaLevel4, AdministrativeAreaLevel5, Airport. */
  lemma ShapeA2()
    ensures |TypeName(AdministrativeAreaLevel4)| == 27
    ensures |TypeName(AdministrativeAreaLevel5)| == 27
    ensures |TypeName(Airport)| == 7
    ensures TypeName(AdministrativeAreaLevel4)[26] == '4'
    ensures TypeName(AdministrativeAreaLevel5)[26] == '5'
  {
  }

  /** The type strings of the 'a' group are pairwise distinct. */
  lemma DistinctA()
    ensures NamesDistinct(Candidates('a'))
  {
    ShapeA1();
    ShapeA2();
  }

  /** The fields of the 'a' group have type strings that start with 'a'. */
  lemma InGroupA(c: Component)
    requires c == AdministrativeAreaLevel1 || c == AdministrativeAreaLevel2 || c == AdministrativeAreaLevel3 || c == AdministrativeAreaLevel4 || c == AdministrativeAreaLevel5 || c == Airport
    ensures |TypeName(c)| > 0 && TypeName(c)[0] == 'a' && c in Candidates('a')
  {
  }

  /** The fields of the 'l' group have type strings that start with 'l'. */
  lemma InGroupL(c: Component)
    requires c == Locality
    ensures |TypeName(c)| > 0 && TypeName(c)[0] == 'l' && c in Candidates('l')
  {
  }

  /** The fields of the 'w' group have type strings that start with 'w'. */
  lemma InGroupW(c: Component)
    requires c == Ward
    ensures |TypeName(c)| > 0 && TypeName(c)[0] == 'w' && c in Candidates('w')
  {
  }

  /** The lengths (and, within one length, a distinguishing letter) of the 'n' group's type strings. */
  lemma ShapeN()
    ensures |TypeName(Neighborhood)| == 12
    ensures |TypeName(NaturalFeature)| == 15
  {
  }

  /** The type strings of the 'n' group are pairwise distinct. */
  lemma DistinctN()
    ensures NamesDistinct(Candidates('n'))
  {
    ShapeN();
  }

  /** The fields of the 'n' group have type strings that start with 'n'. */
  lemma InGroupN(c: Component)
    requires c == Neighborhood || c == NaturalFeature
    ensures |TypeName(c)| > 0 && TypeName(c)[0] == 'n' && c in Candidates('n')
  {
  }

  /** The fields of the 'f' group have type strings that start with 'f'. */
  lemma InGroupF(c: Component)
    requires c == Floor
    ensures |TypeName(c)| > 0 && TypeName(c)[0] == 'f' && c in Candidates('f')
  {
  }

  /** The fields of the 'e' group have type strings that start with 'e'. */
  lemma InGroupE(c: Component)
    requires c == Establishment
    ensures |TypeName(c)| > 0 && TypeName(c)[0] == 'e' && c in Candidates('e')
  {
  }

  /** The fields of the 'b' group have type strings that start with 'b'. */
  lemma InGroupB(c: Component)
    requires c == BusStation
    ensures |TypeName(c)| > 0 && TypeName(c)[0] == 'b' && c in Candidates('b')
  {
  }

  /** The lengths (and, within one length, a distinguishing letter) of the 't' group's type strings. */
  lemma ShapeT()
    ensures |TypeName(TrainStation)| == 13
    ensures |TypeName(TransitStation)| == 15
  {
  }

  /** The type strings of the 't' group are pairwise distinct. */
  lemma DistinctT()
    ensures NamesDistinct(Candidates('t'))
  {
    ShapeT();
  }

  /** The fields of the 't' group have type strings that start with 't'. */
  lemma InGroupT(c: Component)
    requires c == TrainStation || c == TransitStation
    ensures |TypeName(c)| > 0 && TypeName(c)[0] == 't' && c in Candidates('t')
  {
  }

  /** Every field lies in the group of its type string's first letter, whose type strings are distinct. */
  lemma InOwnGroup(c: Component)
    ensures |TypeName(c)| > 0
    ensures c in Candidates(TypeName(c)[0]) && NamesDistinct(Candidates(TypeName(c)[0]))
  {
    match c
    case StreetAddress | SubLocality | SubLocalityLevel1 | SubLocalityLevel2 | SubLocalityLevel3 | SubLocalityLevel4 | SubLocalityLevel5 | SubPremise | StreetNumber => InGroupS(c); DistinctS();
    case Route | Room => InGroupR(c); DistinctR();
    case Intersection => InGroupI(c);
    case Political | Premise | PostalCode | Park | PointOfInterest | Parking | PostBox | PostTown => InGroupP(c); DistinctP();
    case Country | ColloquialArea => InGroupC(c); DistinctC();
    case AdministrativeAreaLevel1 | AdministrativeAreaLevel2 | AdministrativeAreaLevel3 | AdministrativeAreaLevel4 | AdministrativeAreaLevel5 | Airport => InGroupA(c); DistinctA();
    case Locality => InGroupL(c);
    case Ward => InGroupW(c);
    case Neighborhood | NaturalFeature => InGroupN(c); DistinctN();
    case Floor => InGroupF(c);
    case Establishment => InGroupE(c);
    case BusStation => InGroupB(c);
    case TrainStation | TransitStation => InGroupT(c); DistinctT();
  }

  /** Every field's type string is recognised as that field: the dispatch covers all 37 fields. */
  lemma TypeNameRoundTrip(c: Component)
    ensures FieldForType(TypeName(c)) == Some(c)
  {
    InOwnGroup(c);
    FirstNamedFinds(Candidates(TypeName(c)[0]), c);
  }

  /** A type string selects field `c` exactly when it is `c`'s name. */
  lemma FieldForTypeIff(t: string, c: Component)
    ensures FieldForType(t) == Some(c) <==> t == TypeName(c)
  {
    TypeNameRoundTrip(c);
    if t != [] {
      FirstNamedSound(t, Candidates(t[0]));
    }
  }
}
