/**
 * The Vendors page: the full directory with search, one category, a price-tier set,
 * open-only and verified-only checkboxes, and five sort keys ("rating" by default).
 */
module VendorsPage {
  import opened Wrappers
  import opened Text
  import opened VendorCard
  import opened Seqs
  import opened Sorting
  import opened Catalog

  /** A directory entry: the card's vendor plus the verified badge and the joining date (as its time value). */
  datatype ExtendedVendor = ExtendedVendor(base: Vendor, verified: bool, joinedDate: int)

  /** The page state that `filteredVendors` depends on. */
  datatype State = State(
    vendors: seq<ExtendedVendor>,
    searchQuery: string,
    selectedCategory: string,
    selectedPriceRanges: seq<string>,
    showOpenOnly: bool,
    showVerifiedOnly: bool,
    sortBy: string)

  /** The state the page starts in. */
  function Initial(vendors: seq<ExtendedVendor>): (st: State)
    ensures st.vendors == vendors && st.sortBy == "rating"
    ensures st.searchQuery == "" && st.selectedCategory == "all" && |st.selectedPriceRanges| == 0
    ensures !st.showOpenOnly && !st.showVerifiedOnly
    ensures forall v :: Passes(st, v)
  {
    State(vendors, "", "all", [], false, false, "rating")
  }

  // ---------------------------------------------------------------- filter

  /** The conjunction of the five filter steps. */
  predicate Passes(st: State, v: ExtendedVendor) {
    && SearchPass(st.searchQuery, SearchTexts(v.base))
    && CategoryPass(st.selectedCategory, v.base.category)
    && PricePass(st.selectedPriceRanges, v.base.priceRange)
    && FlagPass(st.showOpenOnly, v.base.isOpen)
    && FlagPass(st.showVerifiedOnly, v.verified)
  }

  function Keep(st: State): ExtendedVendor -> bool {
    v => Passes(st, v)
  }

  /**
   * `vendors.filter(...)`: the vendors that pass every step, in their original order and
   * with their original multiplicities.
   */
  function Matching(st: State): (r: seq<ExtendedVendor>)
    ensures IsSubseq(r, st.vendors)
    ensures forall v :: v in r <==> v in st.vendors && Passes(st, v)
    ensures forall v :: multiset(r)[v] == if Passes(st, v) then multiset(st.vendors)[v] else 0
  {
    FilterSelects(st.vendors, Keep(st));
    FilterMembers(st.vendors, Keep(st));
    Filter(st.vendors, Keep(st))
  }

  /** The five steps read off the record: search, category, price tier, open-only and verified-only. */
  lemma PassesExactly(st: State, v: ExtendedVendor)
    ensures Passes(st, v) <==>
              && (st.searchQuery == "" ||
                  exists t, i :: (t == v.base.name || t == v.base.description || t in v.base.specialties) &&
                                 OccursAt(ToLower(t), ToLower(st.searchQuery), i))
              && (st.selectedCategory == "all" || CategoryFromName(st.selectedCategory) == Some(v.base.category))
              && (|st.selectedPriceRanges| == 0 ||
                  exists i :: 0 <= i < |st.selectedPriceRanges| && PriceFromName(st.selectedPriceRanges[i]) == Some(v.base.priceRange))
              && (st.showOpenOnly ==> v.base.isOpen)
              && (st.showVerifiedOnly ==> v.verified)
  {
    SearchPassFields(st.searchQuery, v.base);
  }

  // ---------------------------------------------------------------- sort

  function ByRating(a: ExtendedVendor, b: ExtendedVendor): real { RatingDesc(a.base, b.base) }
  function ByReviews(a: ExtendedVendor, b: ExtendedVendor): real { ReviewsDesc(a.base, b.base) }
  function ByDistance(a: ExtendedVendor, b: ExtendedVendor): real { DistanceAsc(a.base, b.base) }
  function ByName(a: ExtendedVendor, b: ExtendedVendor): real { NameAsc(a.base, b.base) }

  /** `new Date(b.joinedDate).getTime() - new Date(a.joinedDate).getTime()`: newest first. */
  function ByNewest(a: ExtendedVendor, b: ExtendedVendor): (r: real)
    ensures r <= 0.0 <==> a.joinedDate >= b.joinedDate
    ensures r == 0.0 <==> a.joinedDate == b.joinedDate
  {
    (b.joinedDate - a.joinedDate) as real
  }

  /** The `default` branch: every pair compares equal. */
  function Unordered(a: ExtendedVendor, b: ExtendedVendor): real { 0.0 }

  /** The comparator the `switch (sortBy)` selects. */
  function Comparator(sortBy: string): (ExtendedVendor, ExtendedVendor) -> real {
    if sortBy == "rating" then ByRating
    else if sortBy == "reviews" then ByReviews
    else if sortBy == "distance" then ByDistance
    else if sortBy == "newest" then ByNewest
    else if sortBy == "alphabetical" then ByName
    else Unordered
  }

  /** The sort keys with their own branch. */
  predicate KnownKey(sortBy: string) {
    sortBy in ["rating", "reviews", "distance", "newest", "alphabetical"]
  }

  /** Every distance label in the list reads as a number. */
  predicate DistancesParse(vs: seq<ExtendedVendor>) {
    forall v :: v in vs ==> ParseFloat(v.base.distance).Some?
  }

  /** What each key's comparator says about a pair: zero or less means `a` may stay ahead of `b`. */
  lemma ComparatorKeys(sortBy: string, a: ExtendedVendor, b: ExtendedVendor)
    ensures sortBy == "rating" ==> (Comparator(sortBy)(a, b) <= 0.0 <==> a.base.rating >= b.base.rating)
    ensures sortBy == "reviews" ==> (Comparator(sortBy)(a, b) <= 0.0 <==> a.base.reviewCount >= b.base.reviewCount)
    ensures sortBy == "distance" && ParseFloat(a.base.distance).Some? && ParseFloat(b.base.distance).Some? ==>
              (Comparator(sortBy)(a, b) <= 0.0 <==> ParseFloat(a.base.distance).value <= ParseFloat(b.base.distance).value)
    ensures sortBy == "newest" ==> (Comparator(sortBy)(a, b) <= 0.0 <==> a.joinedDate >= b.joinedDate)
    ensures sortBy == "alphabetical" ==> (Comparator(sortBy)(a, b) <= 0.0 <==> CompareText(a.base.name, b.base.name) <= 0)
    ensures !KnownKey(sortBy) ==> Comparator(sortBy)(a, b) == 0.0
  {
  }

  /** Every comparator is a total preorder, the distance one when every label reads as a number. */
  lemma ComparatorIsPreorder(sortBy: string, s: seq<ExtendedVendor>)
    requires sortBy == "distance" ==> DistancesParse(s)
    ensures TotalPreorderOn(Comparator(sortBy), s)
  {
    var cmp := Comparator(sortBy);
    if sortBy == "alphabetical" {
      forall a, b, c | a in s && b in s && c in s
        ensures cmp(a, b) <= 0.0 || cmp(b, a) <= 0.0
        ensures cmp(a, b) <= 0.0 && cmp(b, c) <= 0.0 ==> cmp(a, c) <= 0.0
      {
        NameAscIsPreorder(a.base, b.base, c.base);
      }
      forall a, b | a in s && b in s
        ensures cmp(a, b) <= 0.0 || cmp(b, a) <= 0.0
      {
        NameAscIsPreorder(a.base, b.base, a.base);
      }
    } else if sortBy == "distance" {
      forall a, b, c | a in s && b in s && c in s
        ensures cmp(a, b) <= 0.0 && cmp(b, c) <= 0.0 ==> cmp(a, c) <= 0.0
      {
        DistanceAscIsPreorder(a.base, b.base, c.base);
      }
      forall a, b | a in s && b in s
        ensures cmp(a, b) <= 0.0 || cmp(b, a) <= 0.0
      {
        DistanceAscIsPreorder(a.base, b.base, a.base);
      }
    }
  }

  /** `filteredVendors`: the matching vendors, rearranged by the selected comparator. */
  function FilteredVendors(st: State): (r: seq<ExtendedVendor>)
    ensures multiset(r) == multiset(Matching(st))
    ensures forall v :: v in r <==> v in st.vendors && Passes(st, v)
  {
    var m := Matching(st);
    var r := Sort(m, Comparator(st.sortBy));
    assert forall v :: v in r <==> v in multiset(r);
    assert forall v :: v in m <==> v in multiset(m);
    r
  }

  /** Sorted on "rating": ratings never increase along the list. */
  lemma RatingOrder(st: State)
    requires st.sortBy == "rating"
    ensures var r := FilteredVendors(st);
            forall i, j :: 0 <= i < j < |r| ==> r[i].base.rating >= r[j].base.rating
  {
    ComparatorIsPreorder(st.sortBy, Matching(st));
    SortSorted(Matching(st), ByRating);
  }

  /** Sorted on "reviews": review counts never increase along the list. */
  lemma ReviewsOrder(st: State)
    requires st.sortBy == "reviews"
    ensures var r := FilteredVendors(st);
            forall i, j :: 0 <= i < j < |r| ==> r[i].base.reviewCount >= r[j].base.reviewCount
  {
    ComparatorIsPreorder(st.sortBy, Matching(st));
    SortSorted(Matching(st), ByReviews);
  }

  /** Sorted on "distance" with readable labels: parsed distances never decrease. */
  lemma DistanceOrder(st: State)
    requires st.sortBy == "distance"
    requires DistancesParse(Matching(st))
    ensures var r := FilteredVendors(st);
            forall i, j :: 0 <= i < j < |r| ==>
              ParseFloat(r[i].base.distance).Some? && ParseFloat(r[j].base.distance).Some? &&
              ParseFloat(r[i].base.distance).value <= ParseFloat(r[j].base.distance).value
  {
    var m := Matching(st);
    ComparatorIsPreorder(st.sortBy, m);
    SortSorted(m, ByDistance);
    var r := FilteredVendors(st);
    forall i | 0 <= i < |r|
      ensures ParseFloat(r[i].base.distance).Some?
    {
      assert r[i] in multiset(r);
    }
  }

  /** Sorted on "newest": joining dates never increase along the list. */
  lemma NewestOrder(st: State)
    requires st.sortBy == "newest"
    ensures var r := FilteredVendors(st);
            forall i, j :: 0 <= i < j < |r| ==> r[i].joinedDate >= r[j].joinedDate
  {
    assert Comparator(st.sortBy) == ByNewest;
    ComparatorIsPreorder(st.sortBy, Matching(st));
    SortSorted(Matching(st), ByNewest);
  }

  /** Sorted on "alphabetical": names are in code-point order. */
  lemma NameOrder(st: State)
    requires st.sortBy == "alphabetical"
    ensures var r := FilteredVendors(st);
            forall i, j :: 0 <= i < j < |r| ==> CompareText(r[i].base.name, r[j].base.name) <= 0
  {
    ComparatorIsPreorder(st.sortBy, Matching(st));
    SortSorted(Matching(st), ByName);
  }

  /** An unknown key compares every pair as equal, so the stable sort keeps the filtered order. */
  lemma UnknownKeyKeepsOrder(st: State)
    requires !KnownKey(st.sortBy)
    ensures FilteredVendors(st) == Matching(st)
  {
    assert Comparator(st.sortBy) == Unordered;
    SortOfSortedIsIdentity(Matching(st), Unordered);
  }

  /** Vendors that tie on the active key keep the order they have in the state. */
  lemma TiesKeepOrder(st: State, x: ExtendedVendor)
    requires st.sortBy == "distance" ==> DistancesParse(Matching(st))
    requires x in Matching(st)
    ensures Filter(FilteredVendors(st), TiesWith(Comparator(st.sortBy), x))
         == Filter(Matching(st), TiesWith(Comparator(st.sortBy), x))
  {
    ComparatorIsPreorder(st.sortBy, Matching(st));
    SortStable(Matching(st), Comparator(st.sortBy), x);
  }

  /** Re-sorting the visible list on the same key changes nothing. */
  lemma ResortChangesNothing(st: State)
    requires st.sortBy == "distance" ==> DistancesParse(Matching(st))
    ensures Sort(FilteredVendors(st), Comparator(st.sortBy)) == FilteredVendors(st)
  {
    ComparatorIsPreorder(st.sortBy, Matching(st));
    SortIdempotent(Matching(st), Comparator(st.sortBy));
  }

  // ---------------------------------------------------------------- handlers

  function HasId(id: string): ExtendedVendor -> bool {
    (v: ExtendedVendor) => v.base.id == id
  }

  function Flip(v: ExtendedVendor): ExtendedVendor {
    v.(base := FlipFavorite(v.base))
  }

  /** `handleToggleFavorite`: negates `isFavorite` on the records with the id and touches nothing else. */
  function ToggleFavorite(st: State, id: string): (r: State)
    ensures r == st.(vendors := r.vendors)
    ensures |r.vendors| == |st.vendors|
    ensures forall i :: 0 <= i < |st.vendors| && st.vendors[i].base.id != id ==> r.vendors[i] == st.vendors[i]
    ensures forall i :: 0 <= i < |st.vendors| && st.vendors[i].base.id == id ==>
              r.vendors[i].base.isFavorite.Some? &&
              (IsSet(r.vendors[i].base.isFavorite) <==> !IsSet(st.vendors[i].base.isFavorite)) &&
              r.vendors[i].(base := r.vendors[i].base.(isFavorite := st.vendors[i].base.isFavorite)) == st.vendors[i]
  {
    st.(vendors := UpdateWhere(st.vendors, HasId(id), Flip))
  }

  /** Toggling twice restores the state when the touched flags are defined. */
  lemma ToggleTwice(st: State, id: string)
    requires forall v :: v in st.vendors && v.base.id == id ==> v.base.isFavorite.Some?
    ensures ToggleFavorite(ToggleFavorite(st, id), id) == st
  {
    var twice := ToggleFavorite(ToggleFavorite(st, id), id).vendors;
    forall i | 0 <= i < |st.vendors|
      ensures twice[i] == st.vendors[i]
    {
      if st.vendors[i].base.id == id {
        assert st.vendors[i] in st.vendors;
        NegateTwice(st.vendors[i].base.isFavorite);
      }
    }
  }

  /** No filter step looks at the favourite flag, so a toggle never changes how many vendors are found. */
  lemma ToggleKeepsCount(st: State, id: string)
    ensures |FilteredVendors(ToggleFavorite(st, id))| == |FilteredVendors(st)|
  {
    var r := ToggleFavorite(st, id);
    FilterCongruent(r.vendors, Keep(r), Keep(st));
    FilterUpdateLength(st.vendors, Keep(st), HasId(id), Flip);
  }

  /** `handlePriceRangeChange`: checking appends the tier, unchecking removes every copy of it. */
  function PriceRangeChange(st: State, priceRange: string, checked: bool): (r: State)
    ensures r == st.(selectedPriceRanges := r.selectedPriceRanges)
    ensures checked ==> r.selectedPriceRanges == st.selectedPriceRanges + [priceRange]
    ensures !checked ==> priceRange !in r.selectedPriceRanges && IsSubseq(r.selectedPriceRanges, st.selectedPriceRanges)
    ensures !checked ==> forall y :: y != priceRange ==> multiset(r.selectedPriceRanges)[y] == multiset(st.selectedPriceRanges)[y]
  {
    var next := SetChecked(st.selectedPriceRanges, priceRange, checked);
    assert checked ==> next == next[..|st.selectedPriceRanges|] + [next[|st.selectedPriceRanges|]];
    st.(selectedPriceRanges := next)
  }

  /** After checking a tier, vendors of that tier pass the price step. */
  lemma CheckedTierPasses(st: State, p: PriceRange, v: ExtendedVendor)
    requires v.base.priceRange == p
    ensures PricePass(PriceRangeChange(st, PriceName(p), true).selectedPriceRanges, v.base.priceRange)
  {
    var sel := PriceRangeChange(st, PriceName(p), true).selectedPriceRanges;
    assert sel[|sel| - 1] == PriceName(p);
  }

  /** `clearFilters`: every filter back to its pass-everything value; vendors and sort key kept. */
  function ClearFilters(st: State): (r: State)
    ensures r.vendors == st.vendors && r.sortBy == st.sortBy
    ensures r.searchQuery == "" && r.selectedCategory == "all" && |r.selectedPriceRanges| == 0
    ensures !r.showOpenOnly && !r.showVerifiedOnly
    ensures r == Initial(st.vendors).(sortBy := st.sortBy)
    ensures forall v :: Passes(r, v)
  {
    st.(searchQuery := "", selectedCategory := "all", selectedPriceRanges := [],
        showOpenOnly := false, showVerifiedOnly := false)
  }

  /** After clearing, the page lists every vendor: the filter keeps all of them in order. */
  lemma ClearedShowsAll(st: State)
    ensures Matching(ClearFilters(st)) == st.vendors
    ensures multiset(FilteredVendors(ClearFilters(st))) == multiset(st.vendors)
  {
    FilterKeepsAll(st.vendors, Keep(ClearFilters(st)));
  }

  // ---------------------------------------------------------------- two-vendor scenario

  /**
   * An open food vendor followed by a closed drinks vendor: the "food" category keeps just
   * the first, and open-only with the category "all" or "food" keeps just the first.
   */
  lemma FoodAndOpenScenario(a: ExtendedVendor, b: ExtendedVendor, category: string)
    requires a.base.category == Food && a.base.isOpen
    requires b.base.category == Drinks && !b.base.isOpen
    requires category == "all" || category == "food"
    ensures Matching(State([a, b], "", "food", [], false, false, "rating")) == [a]
    ensures Matching(State([a, b], "", category, [], true, false, "rating")) == [a]
  {
    var st1 := State([a, b], "", "food", [], false, false, "rating");
    var st2 := State([a, b], "", category, [], true, false, "rating");
    assert [a, b][1..] == [b] && [b][1..] == [];
    assert Filter([a, b], Keep(st1)) == [a];
    assert Filter([a, b], Keep(st2)) == [a];
  }
}
