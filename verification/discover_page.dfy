/**
 * The Discover page: search, one category, a price-tier set, open-only and a maximum
 * distance slider; sorted by distance unless another key is picked.
 */
module DiscoverPage {
  import opened Wrappers
  import opened Text
  import opened VendorCard
  import opened Seqs
  import opened Sorting
  import opened Catalog

  /** The slider's starting and reset value, in miles. */
  const DefaultMaxDistance: real := 5.0

  /** The page state `filteredVendors` depends on; `maxDistance` is the slider's single value. */
  datatype State = State(
    vendors: seq<Vendor>,
    searchQuery: string,
    selectedCategory: string,
    selectedPriceRanges: seq<string>,
    showOpenOnly: bool,
    maxDistance: real,
    sortBy: string)

  /** The state the page starts in. */
  function Initial(vendors: seq<Vendor>): (st: State)
    ensures st.vendors == vendors && st.sortBy == "distance" && st.maxDistance == DefaultMaxDistance
    ensures !ClearButtonVisible(st)
  {
    State(vendors, "", "all", [], false, DefaultMaxDistance, "distance")
  }

  // ---------------------------------------------------------------- filter

  /** The conjunction of the five filter steps. */
  predicate Passes(st: State, v: Vendor) {
    && SearchPass(st.searchQuery, SearchTexts(v))
    && CategoryPass(st.selectedCategory, v.category)
    && PricePass(st.selectedPriceRanges, v.priceRange)
    && FlagPass(st.showOpenOnly, v.isOpen)
    && DistancePass(v.distance, st.maxDistance)
  }

  function Keep(st: State): Vendor -> bool {
    v => Passes(st, v)
  }

  /** `vendors.filter(...)`: the passing vendors, in order and with their multiplicities. */
  function Matching(st: State): (r: seq<Vendor>)
    ensures IsSubseq(r, st.vendors)
    ensures forall v :: v in r <==> v in st.vendors && Passes(st, v)
    ensures forall v :: multiset(r)[v] == if Passes(st, v) then multiset(st.vendors)[v] else 0
  {
    FilterSelects(st.vendors, Keep(st));
    FilterMembers(st.vendors, Keep(st));
    Filter(st.vendors, Keep(st))
  }

  /** A label without a leading number is never excluded by the distance slider. */
  lemma UnreadableDistancePasses(st: State, v: Vendor)
    requires ParseFloat(BeforeFirst(v.distance, ' ')).None?
    ensures Passes(st, v) <==> Passes(st.(maxDistance := 0.0), v)
    ensures Passes(st, v) <==> Passes(st.(maxDistance := DefaultMaxDistance), v)
  {
  }

  /**
   * The filter reads the label's first word while the sort reads the whole label: with a
   * leading space the filter sees NaN and lets the vendor through at any limit, while the
   * sort still places it by its distance.
   */
  lemma LeadingSpaceEscapesLimit(v: Vendor, tenths: nat, unit: string, maxDistance: real)
    requires v.distance == " " + TenthsLabel(tenths, unit)
    ensures DistancePass(v.distance, maxDistance)
    ensures ParseFloat(v.distance) == Some(tenths as real / 10.0)
  {
    LeadingSpaceSplitsReadings(tenths, unit);
  }

  /** The five steps read off the record: search, category, price tier, open-only and the distance limit. */
  lemma PassesExactly(st: State, v: Vendor)
    ensures Passes(st, v) <==>
              && (st.searchQuery == "" ||
                  exists t, i :: (t == v.name || t == v.description || t in v.specialties) &&
                                 OccursAt(ToLower(t), ToLower(st.searchQuery), i))
              && (st.selectedCategory == "all" || CategoryFromName(st.selectedCategory) == Some(v.category))
              && (|st.selectedPriceRanges| == 0 ||
                  exists i :: 0 <= i < |st.selectedPriceRanges| && PriceFromName(st.selectedPriceRanges[i]) == Some(v.priceRange))
              && (st.showOpenOnly ==> v.isOpen)
              && (ParseFloat(BeforeFirst(v.distance, ' ')).Some? ==> ParseFloat(BeforeFirst(v.distance, ' ')).value <= st.maxDistance)
  {
    SearchPassFields(st.searchQuery, v);
  }

  // ---------------------------------------------------------------- sort

  /** The comparator of `switch (sortBy)`: "distance" and the `default` branch share one. */
  function Comparator(sortBy: string): (Vendor, Vendor) -> real {
    if sortBy == "rating" then RatingDesc
    else if sortBy == "reviews" then ReviewsDesc
    else if sortBy == "alphabetical" then NameAsc
    else DistanceAsc
  }

  /** Every distance label in the list reads as a number. */
  predicate DistancesParse(vs: seq<Vendor>) {
    forall v :: v in vs ==> ParseFloat(v.distance).Some?
  }

  /** Keys that fall to the distance comparator. */
  predicate SortsByDistance(sortBy: string) {
    sortBy != "rating" && sortBy != "reviews" && sortBy != "alphabetical"
  }

  /** What each key's comparator says about a pair: zero or less means `a` may stay ahead of `b`. */
  lemma ComparatorKeys(sortBy: string, a: Vendor, b: Vendor)
    ensures sortBy == "rating" ==> (Comparator(sortBy)(a, b) <= 0.0 <==> a.rating >= b.rating)
    ensures sortBy == "reviews" ==> (Comparator(sortBy)(a, b) <= 0.0 <==> a.reviewCount >= b.reviewCount)
    ensures sortBy == "alphabetical" ==> (Comparator(sortBy)(a, b) <= 0.0 <==> CompareText(a.name, b.name) <= 0)
    ensures SortsByDistance(sortBy) && ParseFloat(a.distance).Some? && ParseFloat(b.distance).Some? ==>
              (Comparator(sortBy)(a, b) <= 0.0 <==> ParseFloat(a.distance).value <= ParseFloat(b.distance).value)
    ensures SortsByDistance(sortBy) && (ParseFloat(a.distance).None? || ParseFloat(b.distance).None?) ==>
              Comparator(sortBy)(a, b) == 0.0
  {
  }

  /** Every comparator is a total preorder, the distance one when every label reads as a number. */
  lemma ComparatorIsPreorder(sortBy: string, s: seq<Vendor>)
    requires SortsByDistance(sortBy) ==> DistancesParse(s)
    ensures TotalPreorderOn(Comparator(sortBy), s)
  {
    var cmp := Comparator(sortBy);
    if sortBy == "alphabetical" {
      forall a, b, c | a in s && b in s && c in s
        ensures cmp(a, b) <= 0.0 && cmp(b, c) <= 0.0 ==> cmp(a, c) <= 0.0
      {
        NameAscIsPreorder(a, b, c);
      }
      forall a, b | a in s && b in s
        ensures cmp(a, b) <= 0.0 || cmp(b, a) <= 0.0
      {
        NameAscIsPreorder(a, b, a);
      }
    } else if SortsByDistance(sortBy) {
      forall a, b, c | a in s && b in s && c in s
        ensures cmp(a, b) <= 0.0 && cmp(b, c) <= 0.0 ==> cmp(a, c) <= 0.0
      {
        DistanceAscIsPreorder(a, b, c);
      }
      forall a, b | a in s && b in s
        ensures cmp(a, b) <= 0.0 || cmp(b, a) <= 0.0
      {
        DistanceAscIsPreorder(a, b, a);
      }
    }
  }

  /** `filteredVendors`: the matching vendors, rearranged by the selected comparator. */
  function FilteredVendors(st: State): (r: seq<Vendor>)
    ensures multiset(r) == multiset(Matching(st))
    ensures forall v :: v in r <==> v in st.vendors && Passes(st, v)
  {
    var m := Matching(st);
    var r := Sort(m, Comparator(st.sortBy));
    assert forall v :: v in r <==> v in multiset(r);
    assert forall v :: v in m <==> v in multiset(m);
    r
  }

  /** Any key other than the three named ones gives the same list as "distance". */
  lemma UnknownKeySortsByDistance(st: State)
    requires SortsByDistance(st.sortBy)
    ensures FilteredVendors(st) == FilteredVendors(st.(sortBy := "distance"))
  {
    assert Matching(st) == Matching(st.(sortBy := "distance")) by {
      FilterCongruent(st.vendors, Keep(st), Keep(st.(sortBy := "distance")));
    }
  }

  /** Sorted on "rating": ratings never increase along the list. */
  lemma RatingOrder(st: State)
    requires st.sortBy == "rating"
    ensures var r := FilteredVendors(st);
            forall i, j :: 0 <= i < j < |r| ==> r[i].rating >= r[j].rating
  {
    ComparatorIsPreorder(st.sortBy, Matching(st));
    SortSorted(Matching(st), RatingDesc);
  }

  /** Sorted on "reviews": review counts never increase along the list. */
  lemma ReviewsOrder(st: State)
    requires st.sortBy == "reviews"
    ensures var r := FilteredVendors(st);
            forall i, j :: 0 <= i < j < |r| ==> r[i].reviewCount >= r[j].reviewCount
  {
    ComparatorIsPreorder(st.sortBy, Matching(st));
    SortSorted(Matching(st), ReviewsDesc);
  }

  /** Sorted on "alphabetical": names are in code-point order. */
  lemma NameOrder(st: State)
    requires st.sortBy == "alphabetical"
    ensures var r := FilteredVendors(st);
            forall i, j :: 0 <= i < j < |r| ==> CompareText(r[i].name, r[j].name) <= 0
  {
    ComparatorIsPreorder(st.sortBy, Matching(st));
    SortSorted(Matching(st), NameAsc);
  }

  /** Sorted on distance (the default) with readable labels: parsed distances never decrease. */
  lemma DistanceOrder(st: State)
    requires SortsByDistance(st.sortBy)
    requires DistancesParse(Matching(st))
    ensures var r := FilteredVendors(st);
            forall i, j :: 0 <= i < j < |r| ==>
              ParseFloat(r[i].distance).Some? && ParseFloat(r[j].distance).Some? &&
              ParseFloat(r[i].distance).value <= ParseFloat(r[j].distance).value
  {
    var m := Matching(st);
    assert Comparator(st.sortBy) == DistanceAsc;
    ComparatorIsPreorder(st.sortBy, m);
    SortSorted(m, DistanceAsc);
    var r := FilteredVendors(st);
    forall i | 0 <= i < |r|
      ensures ParseFloat(r[i].distance).Some?
    {
      assert r[i] in multiset(r);
    }
  }

  /** Vendors that tie on the active key keep the order they have in the state. */
  lemma TiesKeepOrder(st: State, x: Vendor)
    requires SortsByDistance(st.sortBy) ==> DistancesParse(Matching(st))
    requires x in Matching(st)
    ensures Filter(FilteredVendors(st), TiesWith(Comparator(st.sortBy), x))
         == Filter(Matching(st), TiesWith(Comparator(st.sortBy), x))
  {
    ComparatorIsPreorder(st.sortBy, Matching(st));
    SortStable(Matching(st), Comparator(st.sortBy), x);
  }

  // ---------------------------------------------------------------- handlers

  /** `handleToggleFavorite`: the shared toggle on this page's list; the filters are untouched. */
  function ToggleFavoriteIn(st: State, id: string): (r: State)
    ensures r == st.(vendors := r.vendors)
    ensures |r.vendors| == |st.vendors|
    ensures forall i :: 0 <= i < |st.vendors| && st.vendors[i].id != id ==> r.vendors[i] == st.vendors[i]
    ensures forall i :: 0 <= i < |st.vendors| && st.vendors[i].id == id ==>
              r.vendors[i].isFavorite.Some? &&
              (IsSet(r.vendors[i].isFavorite) <==> !IsSet(st.vendors[i].isFavorite)) &&
              r.vendors[i].(isFavorite := st.vendors[i].isFavorite) == st.vendors[i]
  {
    st.(vendors := ToggleFavorite(st.vendors, id))
  }

  /** No filter step looks at the favourite flag, so a toggle never changes how many vendors are found. */
  lemma ToggleKeepsCount(st: State, id: string)
    ensures |FilteredVendors(ToggleFavoriteIn(st, id))| == |FilteredVendors(st)|
  {
    var r := ToggleFavoriteIn(st, id);
    FilterCongruent(r.vendors, Keep(r), Keep(st));
    FilterUpdateLength(st.vendors, Keep(st), HasId(id), FlipFavorite);
  }

  /** `handlePriceRangeChange`: checking appends the tier, unchecking removes every copy of it. */
  function PriceRangeChange(st: State, priceRange: string, checked: bool): (r: State)
    ensures r == st.(selectedPriceRanges := r.selectedPriceRanges)
    ensures checked ==> r.selectedPriceRanges == st.selectedPriceRanges + [priceRange]
    ensures !checked ==> priceRange !in r.selectedPriceRanges && IsSubseq(r.selectedPriceRanges, st.selectedPriceRanges)
    ensures !checked ==> forall y :: y != priceRange ==> multiset(r.selectedPriceRanges)[y] == multiset(st.selectedPriceRanges)[y]
  {
    var next := SetChecked(st.selectedPriceRanges, priceRange, checked);
    assert checked ==> next == next[..|st.selectedPriceRanges|] + [next[|st.selectedPriceRanges|]];
    st.(selectedPriceRanges := next)
  }

  /** The "Clear filters" button is shown while a filter other than the distance slider is active. */
  function ClearButtonVisible(st: State): (r: bool)
    ensures !r ==> forall v :: Passes(st, v) <==> DistancePass(v.distance, st.maxDistance)
  {
    st.searchQuery != "" || st.selectedCategory != "all" || |st.selectedPriceRanges| > 0 || st.showOpenOnly
  }

  /** The header's clear action: the four filters and the slider back to their initial values. */
  function ClearAll(st: State): (r: State)
    ensures r.vendors == st.vendors && r.sortBy == st.sortBy
    ensures r.maxDistance == DefaultMaxDistance
    ensures !ClearButtonVisible(r)
    ensures forall v :: Passes(r, v) <==> DistancePass(v.distance, DefaultMaxDistance)
  {
    st.(searchQuery := "", selectedCategory := "all", selectedPriceRanges := [],
        showOpenOnly := false, maxDistance := DefaultMaxDistance)
  }

  /** The empty-result clear action: the four filters reset, the slider left where it is. */
  function ClearKeepDistance(st: State): (r: State)
    ensures r.vendors == st.vendors && r.sortBy == st.sortBy
    ensures r.maxDistance == st.maxDistance
    ensures !ClearButtonVisible(r)
    ensures forall v :: Passes(r, v) <==> DistancePass(v.distance, st.maxDistance)
  {
    st.(searchQuery := "", selectedCategory := "all", selectedPriceRanges := [], showOpenOnly := false)
  }

  /** The two clear actions agree exactly when the slider is at its default. */
  lemma ClearActionsAgree(st: State)
    ensures ClearAll(st) == ClearKeepDistance(st) <==> st.maxDistance == DefaultMaxDistance
  {
  }

  /** The button is hidden exactly when the empty-state clear would change nothing. */
  lemma ClearButtonHiddenIffCleared(st: State)
    ensures !ClearButtonVisible(st) <==> ClearKeepDistance(st) == st
  {
  }

  /** The button ignores the slider: a narrowed distance alone never shows it. */
  lemma ClearButtonIgnoresDistance(st: State, d: real)
    ensures ClearButtonVisible(st.(maxDistance := d)) == ClearButtonVisible(st)
  {
  }

  /**
   * With the button hidden, the list can still be shorter than the vendor list: a narrowed
   * slider filters on its own, so after the empty-state clear only the vendors within the
   * slider's limit remain.
   */
  lemma ClearKeepDistanceShowsWithinLimit(st: State)
    ensures Matching(ClearKeepDistance(st)) == Filter(st.vendors, WithinLimit(st.maxDistance))
  {
    FilterCongruent(st.vendors, Keep(ClearKeepDistance(st)), WithinLimit(st.maxDistance));
  }

  /** After the header's clear, every vendor whose label passes the default limit is listed. */
  lemma ClearAllShowsWithinDefault(st: State)
    ensures Matching(ClearAll(st)) == Filter(st.vendors, WithinLimit(DefaultMaxDistance))
  {
    FilterCongruent(st.vendors, Keep(ClearAll(st)), WithinLimit(DefaultMaxDistance));
  }

  function WithinLimit(maxDistance: real): Vendor -> bool {
    (v: Vendor) => DistancePass(v.distance, maxDistance)
  }
}
