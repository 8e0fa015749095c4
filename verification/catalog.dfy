/**
 * The filter steps and sort comparators that every vendor page repeats in its own copy
 * of the `filteredVendors` pipeline, stated once on the shared vendor record.
 */
module Catalog {
  import opened Wrappers
  import opened Text
  import opened VendorCard
  import opened Seqs
  import opened Sorting

  // ---------------------------------------------------------------- filter steps

  /** The texts the search box is matched against: name, description and every specialty. */
  function SearchTexts(v: Vendor): seq<string> {
    [v.name, v.description] + v.specialties
  }

  /** Some text of `texts`, lower-cased, includes `q`. */
  function AnyIncludes(texts: seq<string>, q: string): (r: bool)
    ensures r <==> exists t :: t in texts && Includes(ToLower(t), q)
    decreases |texts|
  {
    if |texts| == 0 then false
    else
      assert forall t :: t in texts <==> t == texts[0] || t in texts[1..];
      Includes(ToLower(texts[0]), q) || AnyIncludes(texts[1..], q)
  }

  /**
   * The search step: skipped for an empty query; otherwise the lower-cased query must
   * occur inside the lower-cased form of one of `texts`.
   */
  function SearchPass(query: string, texts: seq<string>): (r: bool)
    ensures query == "" ==> r
    ensures query != "" ==> (r <==> exists t, i :: t in texts && OccursAt(ToLower(t), ToLower(query), i))
  {
    query == "" || AnyIncludes(texts, ToLower(query))
  }

  /** The search step read off the record: the query occurs in the name, the description or a specialty. */
  lemma SearchPassFields(query: string, v: Vendor)
    ensures SearchPass(query, SearchTexts(v)) <==>
              query == "" ||
              exists t, i :: (t == v.name || t == v.description || t in v.specialties) &&
                             OccursAt(ToLower(t), ToLower(query), i)
  {
    assert forall t :: t in SearchTexts(v) <==> t == v.name || t == v.description || t in v.specialties;
  }

  /** The category step: "all" passes everything, any other selection only its own category. */
  function CategoryPass(selected: string, c: Category): (r: bool)
    ensures r <==> selected == "all" || CategoryFromName(selected) == Some(c)
  {
    CategoryNameRoundTrip(c);
    selected == "all" || CategoryName(c) == selected
  }

  /** The price step: an empty selection passes everything, otherwise the tier must be selected. */
  function PricePass(selected: seq<string>, p: PriceRange): (r: bool)
    ensures r <==> |selected| == 0 || exists i :: 0 <= i < |selected| && PriceFromName(selected[i]) == Some(p)
  {
    PriceNameRoundTrip(p);
    |selected| == 0 || PriceName(p) in selected
  }

  /** A checkbox step such as open-only or verified-only: when set, the vendor's flag must hold. */
  function FlagPass(only: bool, flag: bool): (r: bool)
    ensures !only ==> r
    ensures only ==> (r <==> flag)
  {
    !only || flag
  }

  /**
   * The distance step of Discover: the number before the first space must not exceed
   * `maxDistance`; a label without a leading number reads as NaN and `NaN > max` is false.
   */
  function DistancePass(distance: string, maxDistance: real): (r: bool)
    ensures ParseFloat(BeforeFirst(distance, ' ')).None? ==> r
    ensures ParseFloat(BeforeFirst(distance, ' ')).Some? ==> (r <==> ParseFloat(BeforeFirst(distance, ' ')).value <= maxDistance)
  {
    match ParseFloat(BeforeFirst(distance, ' '))
    case None => true
    case Some(d) => !(d > maxDistance)
  }

  /** For a label of the fixtures' shape the distance step compares its value with the limit. */
  lemma DistancePassOnTenths(tenths: nat, unit: string, maxDistance: real)
    ensures DistancePass(TenthsLabel(tenths, unit), maxDistance) <==> tenths as real / 10.0 <= maxDistance
  {
    LabelStartsWithDigit(tenths, unit);
    ParseFloatOfFirstWord(TenthsLabel(tenths, unit));
    ParseTenthsLabel(tenths, unit);
  }

  // ---------------------------------------------------------------- comparators

  /** `b.rating - a.rating`: higher ratings first. */
  function RatingDesc(a: Vendor, b: Vendor): (r: real)
    ensures r <= 0.0 <==> a.rating >= b.rating
    ensures r == 0.0 <==> a.rating == b.rating
  {
    b.rating - a.rating
  }

  /** `b.reviewCount - a.reviewCount`: more reviews first. */
  function ReviewsDesc(a: Vendor, b: Vendor): (r: real)
    ensures r <= 0.0 <==> a.reviewCount >= b.reviewCount
    ensures r == 0.0 <==> a.reviewCount == b.reviewCount
  {
    (b.reviewCount - a.reviewCount) as real
  }

  /** `parseFloat(a.distance) - parseFloat(b.distance)`, with a NaN difference read as 0. */
  function DistanceAsc(a: Vendor, b: Vendor): (r: real)
    ensures ParseFloat(a.distance).None? || ParseFloat(b.distance).None? ==> r == 0.0
    ensures ParseFloat(a.distance).Some? && ParseFloat(b.distance).Some? ==>
              (r <= 0.0 <==> ParseFloat(a.distance).value <= ParseFloat(b.distance).value) &&
              (r == 0.0 <==> ParseFloat(a.distance).value == ParseFloat(b.distance).value)
  {
    match (ParseFloat(a.distance), ParseFloat(b.distance))
    case (Some(x), Some(y)) => x - y
    case _ => 0.0
  }

  /** `a.name.localeCompare(b.name)`, with code-point order standing in for the locale's collation. */
  function NameAsc(a: Vendor, b: Vendor): (r: real)
    ensures r <= 0.0 <==> CompareText(a.name, b.name) <= 0
    ensures r == 0.0 <==> a.name == b.name
  {
    CompareText(a.name, b.name) as real
  }

  /** A label that reads as NaN ties with every other label: the difference is NaN, taken as 0. */
  lemma UnparsedDistanceTies(a: Vendor, b: Vendor)
    requires ParseFloat(a.distance).None?
    ensures DistanceAsc(a, b) == 0.0 && DistanceAsc(b, a) == 0.0
  {
  }

  /** When every label reads as a number the distance comparator is a total preorder. */
  lemma DistanceAscIsPreorder(a: Vendor, b: Vendor, c: Vendor)
    requires ParseFloat(a.distance).Some? && ParseFloat(b.distance).Some? && ParseFloat(c.distance).Some?
    ensures DistanceAsc(a, b) <= 0.0 || DistanceAsc(b, a) <= 0.0
    ensures DistanceAsc(a, b) <= 0.0 && DistanceAsc(b, c) <= 0.0 ==> DistanceAsc(a, c) <= 0.0
    ensures DistanceAsc(a, b) <= 0.0 <==> ParseFloat(a.distance).value <= ParseFloat(b.distance).value
  {
  }

  /** The name comparator is a total preorder on all vendors. */
  lemma NameAscIsPreorder(a: Vendor, b: Vendor, c: Vendor)
    ensures NameAsc(a, b) <= 0.0 || NameAsc(b, a) <= 0.0
    ensures NameAsc(a, b) <= 0.0 && NameAsc(b, c) <= 0.0 ==> NameAsc(a, c) <= 0.0
  {
    CompareTextAntisymmetric(a.name, b.name);
    if NameAsc(a, b) <= 0.0 && NameAsc(b, c) <= 0.0 {
      CompareTextTransitive(a.name, b.name, c.name);
    }
  }

  /** `!vendor.isFavorite` applied to every record with the given id. */
  function ToggleFavorite(vs: seq<Vendor>, id: string): (r: seq<Vendor>)
    ensures |r| == |vs|
    ensures forall i :: 0 <= i < |vs| ==> r[i].(isFavorite := vs[i].isFavorite) == vs[i]
    ensures forall i :: 0 <= i < |vs| && vs[i].id != id ==> r[i] == vs[i]
    ensures forall i :: 0 <= i < |vs| && vs[i].id == id ==> (IsSet(r[i].isFavorite) <==> !IsSet(vs[i].isFavorite))
    ensures forall i :: 0 <= i < |vs| && vs[i].id == id ==> r[i].isFavorite.Some?
  {
    UpdateWhere(vs, HasId(id), FlipFavorite)
  }

  /** The test `vendor.id === id`. */
  function HasId(id: string): Vendor -> bool {
    (v: Vendor) => v.id == id
  }

  /** Every record carrying `id` has a defined favourite flag. */
  predicate FlagsDefined(vs: seq<Vendor>, id: string) {
    forall i :: 0 <= i < |vs| && vs[i].id == id ==> vs[i].isFavorite.Some?
  }

  /** Toggling an id twice restores the list when the flags it touches are defined. */
  lemma ToggleFavoriteTwice(vs: seq<Vendor>, id: string)
    requires FlagsDefined(vs, id)
    ensures ToggleFavorite(ToggleFavorite(vs, id), id) == vs
  {
    var once := ToggleFavorite(vs, id);
    var twice := ToggleFavorite(once, id);
    forall i | 0 <= i < |vs|
      ensures twice[i] == vs[i]
    {
      if vs[i].id == id {
        NegateTwice(vs[i].isFavorite);
      }
    }
  }

  /** Toggling an id no record carries changes nothing. */
  lemma ToggleFavoriteAbsent(vs: seq<Vendor>, id: string)
    requires forall i :: 0 <= i < |vs| ==> vs[i].id != id
    ensures ToggleFavorite(vs, id) == vs
  {
  }
}
