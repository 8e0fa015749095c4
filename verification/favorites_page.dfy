/**
 * The Favorites page: the saved vendors with their favourite metadata, searchable by tag
 * as well, filtered by one category and sorted "recent" first by default.
 */
module FavoritesPage {
  import opened Wrappers
  import opened Text
  import opened VendorCard
  import opened Seqs
  import opened Sorting
  import opened Catalog

  /**
   * A saved vendor. The dates are their time values (`new Date(...).getTime()`); an absent
   * `lastVisited` means the vendor was never visited.
   */
  datatype FavoriteVendor = FavoriteVendor(
    base: Vendor,
    favoriteDate: int,
    lastVisited: Option<int>,
    visitCount: int,
    notifications: bool,
    tags: seq<string>)

  /** The page state `filteredVendors` depends on. */
  datatype State = State(vendors: seq<FavoriteVendor>, searchQuery: string, selectedCategory: string, sortBy: string)

  /** The state the page starts in. */
  function Initial(vendors: seq<FavoriteVendor>): (st: State)
    ensures st.vendors == vendors && st.sortBy == "recent"
    ensures forall v :: Passes(st, v)
  {
    State(vendors, "", "all", "recent")
  }

  // ---------------------------------------------------------------- filter

  /** Search looks at the card texts and at every tag. */
  function FavoriteTexts(v: FavoriteVendor): seq<string> {
    SearchTexts(v.base) + v.tags
  }

  /** Only search and category filter this page. */
  predicate Passes(st: State, v: FavoriteVendor) {
    SearchPass(st.searchQuery, FavoriteTexts(v)) && CategoryPass(st.selectedCategory, v.base.category)
  }

  function Keep(st: State): FavoriteVendor -> bool {
    v => Passes(st, v)
  }

  /** `vendors.filter(...)`: the passing vendors, in order and with their multiplicities. */
  function Matching(st: State): (r: seq<FavoriteVendor>)
    ensures IsSubseq(r, st.vendors)
    ensures forall v :: v in r <==> v in st.vendors && Passes(st, v)
    ensures forall v :: multiset(r)[v] == if Passes(st, v) then multiset(st.vendors)[v] else 0
  {
    FilterSelects(st.vendors, Keep(st));
    FilterMembers(st.vendors, Keep(st));
    Filter(st.vendors, Keep(st))
  }

  /** A query found in one of the tags is enough for the search step, whatever the card texts say. */
  lemma TagMatchPasses(query: string, v: FavoriteVendor, k: nat, i: int)
    requires query != ""
    requires k < |v.tags| && OccursAt(ToLower(v.tags[k]), ToLower(query), i)
    ensures SearchPass(query, FavoriteTexts(v))
  {
    assert v.tags[k] in FavoriteTexts(v);
  }

  /** The two steps read off the record: search over the card texts and tags, then category. */
  lemma PassesExactly(st: State, v: FavoriteVendor)
    ensures Passes(st, v) <==>
              && (st.searchQuery == "" ||
                  exists t, i :: (t == v.base.name || t == v.base.description || t in v.base.specialties || t in v.tags) &&
                                 OccursAt(ToLower(t), ToLower(st.searchQuery), i))
              && (st.selectedCategory == "all" || CategoryFromName(st.selectedCategory) == Some(v.base.category))
  {
    assert forall t :: t in FavoriteTexts(v) <==>
      t == v.base.name || t == v.base.description || t in v.base.specialties || t in v.tags;
  }

  // ---------------------------------------------------------------- sort

  /** `b.favoriteDate - a.favoriteDate`: most recently saved first. */
  function ByRecent(a: FavoriteVendor, b: FavoriteVendor): (r: real)
    ensures r <= 0.0 <==> a.favoriteDate >= b.favoriteDate
    ensures r == 0.0 <==> a.favoriteDate == b.favoriteDate
  {
    (b.favoriteDate - a.favoriteDate) as real
  }

  /**
   * "visited": two unvisited vendors tie, an unvisited one goes after a visited one, and two
   * visited ones are ordered latest visit first.
   */
  function ByVisited(a: FavoriteVendor, b: FavoriteVendor): (r: real)
    ensures r <= 0.0 <==> b.lastVisited.None? || (a.lastVisited.Some? && a.lastVisited.value >= b.lastVisited.value)
    ensures r == 0.0 <==> a.lastVisited == b.lastVisited
  {
    match (a.lastVisited, b.lastVisited)
    case (None, None) => 0.0
    case (None, Some(_)) => 1.0
    case (Some(_), None) => -1.0
    case (Some(x), Some(y)) => (y - x) as real
  }

  function ByRating(a: FavoriteVendor, b: FavoriteVendor): real { RatingDesc(a.base, b.base) }
  function ByDistance(a: FavoriteVendor, b: FavoriteVendor): real { DistanceAsc(a.base, b.base) }
  function ByName(a: FavoriteVendor, b: FavoriteVendor): real { NameAsc(a.base, b.base) }

  /** The `default` branch: every pair compares equal. */
  function Unordered(a: FavoriteVendor, b: FavoriteVendor): real { 0.0 }

  /** The comparator the `switch (sortBy)` selects. */
  function Comparator(sortBy: string): (FavoriteVendor, FavoriteVendor) -> real {
    if sortBy == "recent" then ByRecent
    else if sortBy == "visited" then ByVisited
    else if sortBy == "rating" then ByRating
    else if sortBy == "distance" then ByDistance
    else if sortBy == "alphabetical" then ByName
    else Unordered
  }

  /** The sort keys with their own branch. */
  predicate KnownKey(sortBy: string) {
    sortBy in ["recent", "visited", "rating", "distance", "alphabetical"]
  }

  /** Every distance label in the list reads as a number. */
  predicate DistancesParse(vs: seq<FavoriteVendor>) {
    forall v :: v in vs ==> ParseFloat(v.base.distance).Some?
  }

  /** The visit comparator is a total preorder on all saved vendors. */
  lemma ByVisitedIsPreorder(a: FavoriteVendor, b: FavoriteVendor, c: FavoriteVendor)
    ensures ByVisited(a, b) <= 0.0 || ByVisited(b, a) <= 0.0
    ensures ByVisited(a, b) <= 0.0 && ByVisited(b, c) <= 0.0 ==> ByVisited(a, c) <= 0.0
  {
    if ByVisited(a, b) <= 0.0 && ByVisited(b, c) <= 0.0 {
      if a.lastVisited.None? {
        assert b.lastVisited.None? && c.lastVisited.None?;
      } else if b.lastVisited.None? {
        assert c.lastVisited.None?;
      }
    }
  }

  /** What each key's comparator says about a pair: zero or less means `a` may stay ahead of `b`. */
  lemma ComparatorKeys(sortBy: string, a: FavoriteVendor, b: FavoriteVendor)
    ensures sortBy == "recent" ==> (Comparator(sortBy)(a, b) <= 0.0 <==> a.favoriteDate >= b.favoriteDate)
    ensures sortBy == "visited" ==> (Comparator(sortBy)(a, b) <= 0.0 <==>
              b.lastVisited.None? || (a.lastVisited.Some? && a.lastVisited.value >= b.lastVisited.value))
    ensures sortBy == "rating" ==> (Comparator(sortBy)(a, b) <= 0.0 <==> a.base.rating >= b.base.rating)
    ensures sortBy == "distance" && ParseFloat(a.base.distance).Some? && ParseFloat(b.base.distance).Some? ==>
              (Comparator(sortBy)(a, b) <= 0.0 <==> ParseFloat(a.base.distance).value <= ParseFloat(b.base.distance).value)
    ensures sortBy == "alphabetical" ==> (Comparator(sortBy)(a, b) <= 0.0 <==> CompareText(a.base.name, b.base.name) <= 0)
    ensures !KnownKey(sortBy) ==> Comparator(sortBy)(a, b) == 0.0
  {
  }

  /** Every comparator is a total preorder, the distance one when every label reads as a number. */
  lemma ComparatorIsPreorder(sortBy: string, s: seq<FavoriteVendor>)
    requires sortBy == "distance" ==> DistancesParse(s)
    ensures TotalPreorderOn(Comparator(sortBy), s)
  {
    var cmp := Comparator(sortBy);
    if sortBy == "visited" {
      forall a, b, c | a in s && b in s && c in s
        ensures cmp(a, b) <= 0.0 && cmp(b, c) <= 0.0 ==> cmp(a, c) <= 0.0
      {
        ByVisitedIsPreorder(a, b, c);
      }
      forall a, b | a in s && b in s
        ensures cmp(a, b) <= 0.0 || cmp(b, a) <= 0.0
      {
        ByVisitedIsPreorder(a, b, a);
      }
    } else if sortBy == "alphabetical" {
      forall a, b, c | a in s && b in s && c in s
        ensures cmp(a, b) <= 0.0 && cmp(b, c) <= 0.0 ==> cmp(a, c) <= 0.0
      {
        NameAscIsPreorder(a.base, b.base, c.base);
      }
      forall a, b | a in s && b in s
        ensures cmp(a, b) <= 0.0 || cmp(b, a) <= 0.0
      {
        NameAscIsPreorder(a.base, b.base, a.base);
      }
    } else if sortBy == "distance" {
      forall a, b, c | a in s && b in s && c in s
        ensures cmp(a, b) <= 0.0 && cmp(b, c) <= 0.0 ==> cmp(a, c) <= 0.0
      {
        DistanceAscIsPreorder(a.base, b.base, c.base);
      }
      forall a, b | a in s && b in s
        ensures cmp(a, b) <= 0.0 || cmp(b, a) <= 0.0
      {
        DistanceAscIsPreorder(a.base, b.base, a.base);
      }
    }
  }

  /** `filteredVendors`: the matching vendors, rearranged by the selected comparator. */
  function FilteredVendors(st: State): (r: seq<FavoriteVendor>)
    ensures multiset(r) == multiset(Matching(st))
    ensures forall v :: v in r <==> v in st.vendors && Passes(st, v)
  {
    var m := Matching(st);
    var r := Sort(m, Comparator(st.sortBy));
    assert forall v :: v in r <==> v in multiset(r);
    assert forall v :: v in m <==> v in multiset(m);
    r
  }

  /** Sorted on "recent": favourite dates never increase along the list. */
  lemma RecentOrder(st: State)
    requires st.sortBy == "recent"
    ensures var r := FilteredVendors(st);
            forall i, j :: 0 <= i < j < |r| ==> r[i].favoriteDate >= r[j].favoriteDate
  {
    assert Comparator(st.sortBy) == ByRecent;
    ComparatorIsPreorder(st.sortBy, Matching(st));
    SortSorted(Matching(st), ByRecent);
  }

  /**
   * Sorted on "visited": every visited vendor comes before every unvisited one, and the
   * visited ones run from the latest visit to the earliest.
   */
  lemma VisitedOrder(st: State)
    requires st.sortBy == "visited"
    ensures var r := FilteredVendors(st);
            forall i, j :: 0 <= i < j < |r| ==>
              !(r[i].lastVisited.None? && r[j].lastVisited.Some?) &&
              (r[i].lastVisited.Some? && r[j].lastVisited.Some? ==> r[i].lastVisited.value >= r[j].lastVisited.value)
  {
    assert Comparator(st.sortBy) == ByVisited;
    ComparatorIsPreorder(st.sortBy, Matching(st));
    SortSorted(Matching(st), ByVisited);
  }

  /** Sorted on "rating": ratings never increase along the list. */
  lemma RatingOrder(st: State)
    requires st.sortBy == "rating"
    ensures var r := FilteredVendors(st);
            forall i, j :: 0 <= i < j < |r| ==> r[i].base.rating >= r[j].base.rating
  {
    assert Comparator(st.sortBy) == ByRating;
    ComparatorIsPreorder(st.sortBy, Matching(st));
    SortSorted(Matching(st), ByRating);
  }

  /** Sorted on "distance" with readable labels: parsed distances never decrease. */
  lemma DistanceOrder(st: State)
    requires st.sortBy == "distance"
    requires DistancesParse(Matching(st))
    ensures var r := FilteredVendors(st);
            forall i, j :: 0 <= i < j < |r| ==>
              ParseFloat(r[i].base.distance).Some? && ParseFloat(r[j].base.distance).Some? &&
              ParseFloat(r[i].base.distance).value <= ParseFloat(r[j].base.distance).value
  {
    var m := Matching(st);
    assert Comparator(st.sortBy) == ByDistance;
    ComparatorIsPreorder(st.sortBy, m);
    SortSorted(m, ByDistance);
    var r := FilteredVendors(st);
    forall i | 0 <= i < |r|
      ensures ParseFloat(r[i].base.distance).Some?
    {
      assert r[i] in multiset(r);
    }
  }

  /** Sorted on "alphabetical": names are in code-point order. */
  lemma NameOrder(st: State)
    requires st.sortBy == "alphabetical"
    ensures var r := FilteredVendors(st);
            forall i, j :: 0 <= i < j < |r| ==> CompareText(r[i].base.name, r[j].base.name) <= 0
  {
    assert Comparator(st.sortBy) == ByName;
    ComparatorIsPreorder(st.sortBy, Matching(st));
    SortSorted(Matching(st), ByName);
  }

  /** An unknown key compares every pair as equal, so the stable sort keeps the filtered order. */
  lemma UnknownKeyKeepsOrder(st: State)
    requires !KnownKey(st.sortBy)
    ensures FilteredVendors(st) == Matching(st)
  {
    assert Comparator(st.sortBy) == Unordered;
    SortOfSortedIsIdentity(Matching(st), Unordered);
  }

  /** Vendors that tie on the active key keep the order they have in the state. */
  lemma TiesKeepOrder(st: State, x: FavoriteVendor)
    requires st.sortBy == "distance" ==> DistancesParse(Matching(st))
    requires x in Matching(st)
    ensures Filter(FilteredVendors(st), TiesWith(Comparator(st.sortBy), x))
         == Filter(Matching(st), TiesWith(Comparator(st.sortBy), x))
  {
    ComparatorIsPreorder(st.sortBy, Matching(st));
    SortStable(Matching(st), Comparator(st.sortBy), x);
  }

  // ---------------------------------------------------------------- removal

  function HasId(id: string): FavoriteVendor -> bool {
    (v: FavoriteVendor) => v.base.id == id
  }

  function NotId(id: string): FavoriteVendor -> bool {
    (v: FavoriteVendor) => v.base.id != id
  }

  /**
   * `handleToggleFavorite` on this page un-saves: every record with the id leaves the list,
   * and the others stay, in order, as often as before.
   */
  function RemoveFavorite(st: State, id: string): (r: State)
    ensures r == st.(vendors := r.vendors)
    ensures IsSubseq(r.vendors, st.vendors)
    ensures forall v :: v in r.vendors ==> v.base.id != id
    ensures forall v: FavoriteVendor :: v.base.id != id ==> multiset(r.vendors)[v] == multiset(st.vendors)[v]
  {
    FilterSelects(st.vendors, NotId(id));
    st.(vendors := Filter(st.vendors, NotId(id)))
  }

  /** Removing an id no record carries changes nothing. */
  lemma RemoveAbsent(st: State, id: string)
    requires forall v :: v in st.vendors ==> v.base.id != id
    ensures RemoveFavorite(st, id) == st
  {
    FilterKeepsAll(st.vendors, NotId(id));
  }

  /** A second removal of the same id changes nothing more. */
  lemma RemoveIdempotent(st: State, id: string)
    ensures RemoveFavorite(RemoveFavorite(st, id), id) == RemoveFavorite(st, id)
  {
    FilterIdempotent(st.vendors, NotId(id));
  }

  /** The list shrinks by exactly the number of records that carry the id. */
  lemma RemoveShrinksByMatches(st: State, id: string)
    ensures |RemoveFavorite(st, id).vendors| + |Filter(st.vendors, HasId(id))| == |st.vendors|
  {
    FilterComplementLength(st.vendors, NotId(id), HasId(id));
  }

  // ---------------------------------------------------------------- notifications

  function FlipNotifications(v: FavoriteVendor): FavoriteVendor {
    v.(notifications := !v.notifications)
  }

  /** `handleToggleNotifications`: flips `notifications` on the records with the id only. */
  function ToggleNotifications(st: State, id: string): (r: State)
    ensures r == st.(vendors := r.vendors)
    ensures |r.vendors| == |st.vendors|
    ensures forall i :: 0 <= i < |st.vendors| && st.vendors[i].base.id != id ==> r.vendors[i] == st.vendors[i]
    ensures forall i :: 0 <= i < |st.vendors| && st.vendors[i].base.id == id ==>
              r.vendors[i].notifications != st.vendors[i].notifications &&
              r.vendors[i].(notifications := st.vendors[i].notifications) == st.vendors[i]
  {
    st.(vendors := UpdateWhere(st.vendors, HasId(id), FlipNotifications))
  }

  /** Toggling notifications twice is the identity. */
  lemma ToggleNotificationsTwice(st: State, id: string)
    ensures ToggleNotifications(ToggleNotifications(st, id), id) == st
  {
    var twice := ToggleNotifications(ToggleNotifications(st, id), id).vendors;
    assert |twice| == |st.vendors|;
    forall i | 0 <= i < |st.vendors|
      ensures twice[i] == st.vendors[i]
    {
    }
  }

  // ---------------------------------------------------------------- export

  /** One exported record: the five fields the download carries. */
  datatype ExportEntry = ExportEntry(name: string, category: Category, location: string, rating: real, favoriteDate: int)

  function ExportOf(v: FavoriteVendor): ExportEntry {
    ExportEntry(v.base.name, v.base.category, v.base.location, v.base.rating, v.favoriteDate)
  }

  /** `handleExportFavorites`' data: one entry per saved vendor, in state order (not the filtered list). */
  function Export(st: State): (r: seq<ExportEntry>)
    ensures |r| == |st.vendors|
    ensures forall i :: 0 <= i < |r| ==>
              r[i].name == st.vendors[i].base.name && r[i].category == st.vendors[i].base.category &&
              r[i].location == st.vendors[i].base.location && r[i].rating == st.vendors[i].base.rating &&
              r[i].favoriteDate == st.vendors[i].favoriteDate
  {
    seq(|st.vendors|, i requires 0 <= i < |st.vendors| => ExportOf(st.vendors[i]))
  }

  /** The export does not depend on the search, the category, the sort key or the notification flags. */
  lemma ExportIgnoresViewAndNotifications(st: State, id: string, query: string, category: string, sortBy: string)
    ensures Export(ToggleNotifications(st, id)) == Export(st)
    ensures Export(st.(searchQuery := query, selectedCategory := category, sortBy := sortBy)) == Export(st)
  {
  }

  // ---------------------------------------------------------------- stats

  /** The average shown on the stats card: "0" with no vendors, otherwise the mean rating. */
  datatype Average = NoRatings | Mean(value: real)

  datatype Stats = Stats(total: nat, visited: nat, withNotifications: nat, avgRating: Average)

  function Visited(v: FavoriteVendor): bool { v.lastVisited.Some? }
  function Notified(v: FavoriteVendor): bool { v.notifications }

  /** The sum of the ratings, first rating plus the sum of the rest. */
  function SumRatings(vs: seq<FavoriteVendor>): real
    decreases |vs|
  {
    if |vs| == 0 then 0.0 else vs[0].base.rating + SumRatings(vs[1..])
  }

  /**
   * `reduce((sum, v) => sum + v.rating, 0)` folds from the left: each vendor's rating is
   * added to the sum of those before it, and that gives the same total.
   */
  lemma {:induction false} SumRatingsFoldsLeft(vs: seq<FavoriteVendor>)
    requires |vs| > 0
    ensures SumRatings(vs) == SumRatings(vs[..|vs| - 1]) + vs[|vs| - 1].base.rating
    decreases |vs|
  {
    if |vs| > 1 {
      SumRatingsFoldsLeft(vs[1..]);
      assert vs[..|vs| - 1][1..] == vs[1..][..|vs| - 2];
    }
  }

  /** `stats`: the counts on the stats cards and the average rating. */
  function ComputeStats(vs: seq<FavoriteVendor>): (r: Stats)
    ensures r.total == |vs|
    ensures r.visited <= r.total && r.withNotifications <= r.total
    ensures r.visited == r.total <==> forall v :: v in vs ==> v.lastVisited.Some?
    ensures r.visited == 0 <==> forall v :: v in vs ==> v.lastVisited.None?
    ensures r.withNotifications == r.total <==> forall v :: v in vs ==> v.notifications
    ensures r.withNotifications == 0 <==> forall v :: v in vs ==> !v.notifications
    ensures r.visited == |Filter(vs, Visited)| && r.withNotifications == |Filter(vs, Notified)|
    ensures r.avgRating == AverageRating(vs)
  {
    FilterLengthAll(vs, Visited);
    FilterEmpty(vs, Visited);
    FilterLengthAll(vs, Notified);
    FilterEmpty(vs, Notified);
    Stats(|vs|, |Filter(vs, Visited)|, |Filter(vs, Notified)|,
          AverageRating(vs))
  }

  /** The average card: none for an empty list, otherwise the value that, times the length, gives the sum. */
  function AverageRating(vs: seq<FavoriteVendor>): (a: Average)
    ensures a.NoRatings? <==> |vs| == 0
    ensures a.Mean? ==> a.value * |vs| as real == SumRatings(vs)
  {
    if |vs| == 0 then NoRatings else Mean(SumRatings(vs) / |vs| as real)
  }

  /** A mean whose scaled sum lies between the scaled bounds lies between the bounds. */
  lemma MeanBetween(m: real, n: real, sum: real, lo: real, hi: real)
    requires n > 0.0 && m * n == sum && n * lo <= sum <= n * hi
    ensures lo <= m <= hi
  {
  }

  /** The sum of ratings lies between the count times the lowest and times the highest rating. */
  lemma {:induction false} SumRatingsBounds(vs: seq<FavoriteVendor>, lo: real, hi: real)
    requires forall v :: v in vs ==> lo <= v.base.rating <= hi
    ensures |vs| as real * lo <= SumRatings(vs) <= |vs| as real * hi
    decreases |vs|
  {
    if |vs| > 0 {
      var t := vs[1..];
      assert lo <= vs[0].base.rating <= hi by {
        assert vs[0] in vs;
      }
      forall v | v in t
        ensures lo <= v.base.rating <= hi
      {
        assert v in vs;
      }
      SumRatingsBounds(t, lo, hi);
      var m := |t| as real;
      assert |vs| as real * lo == m * lo + lo;
      assert |vs| as real * hi == m * hi + hi;
    }
  }

  /** The average lies between the lowest and the highest rating. */
  lemma AverageWithinRatings(vs: seq<FavoriteVendor>, lo: real, hi: real)
    requires forall v :: v in vs ==> lo <= v.base.rating <= hi
    ensures ComputeStats(vs).avgRating.Mean? ==> lo <= ComputeStats(vs).avgRating.value <= hi
  {
    if |vs| > 0 {
      SumRatingsBounds(vs, lo, hi);
      MeanBetween(AverageRating(vs).value, |vs| as real, SumRatings(vs), lo, hi);
    }
  }

  /** Removing a vendor never raises any of the counts. */
  lemma RemoveLowersCounts(st: State, id: string)
    ensures var before := ComputeStats(st.vendors);
            var after := ComputeStats(RemoveFavorite(st, id).vendors);
            after.total <= before.total && after.visited <= before.visited &&
            after.withNotifications <= before.withNotifications
  {
    var rest := RemoveFavorite(st, id).vendors;
    FilterSubseqLength(rest, st.vendors, Visited);
    FilterSubseqLength(rest, st.vendors, Notified);
  }
}
