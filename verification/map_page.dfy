/**
 * The Map page: search, a set of checked categories and open-only, with no sort; the
 * fallback drawing places markers at six fixed spots and scales by a clamped zoom.
 */
module MapPage {
  import opened Wrappers
  import opened Text
  import opened VendorCard
  import opened Seqs
  import opened Catalog

  /** A map vendor: the card's fields plus coordinates and an optional phone number. */
  datatype MapVendor = MapVendor(base: Vendor, lat: real, lng: real, phone: Option<string>)

  /** The page state `filteredVendors` and the fallback drawing depend on. */
  datatype State = State(
    vendors: seq<MapVendor>,
    searchQuery: string,
    selectedCategories: seq<string>,
    showOpenOnly: bool,
    mapZoom: real)

  /** The state the page starts in. */
  function Initial(vendors: seq<MapVendor>): (st: State)
    ensures st.vendors == vendors && st.mapZoom == InitialZoom && ZoomInRange(st.mapZoom)
    ensures st.searchQuery == "" && |st.selectedCategories| == 0 && !st.showOpenOnly
    ensures forall v :: Passes(st, v)
  {
    State(vendors, "", [], false, InitialZoom)
  }

  // ---------------------------------------------------------------- filter

  /** The category step: no category checked passes everything, otherwise the vendor's must be checked. */
  function CategorySetPass(selected: seq<string>, c: Category): (r: bool)
    ensures r <==> |selected| == 0 || exists i :: 0 <= i < |selected| && CategoryFromName(selected[i]) == Some(c)
  {
    CategoryNameRoundTrip(c);
    |selected| == 0 || CategoryName(c) in selected
  }

  /** The conjunction of the three filter steps. */
  predicate Passes(st: State, v: MapVendor) {
    && SearchPass(st.searchQuery, SearchTexts(v.base))
    && CategorySetPass(st.selectedCategories, v.base.category)
    && FlagPass(st.showOpenOnly, v.base.isOpen)
  }

  function Keep(st: State): MapVendor -> bool {
    v => Passes(st, v)
  }

  /** `filteredVendors`: no sort, just the passing vendors in order with their multiplicities. */
  function FilteredVendors(st: State): (r: seq<MapVendor>)
    ensures IsSubseq(r, st.vendors)
    ensures forall v :: v in r <==> v in st.vendors && Passes(st, v)
    ensures forall v :: multiset(r)[v] == if Passes(st, v) then multiset(st.vendors)[v] else 0
  {
    FilterSelects(st.vendors, Keep(st));
    FilterMembers(st.vendors, Keep(st));
    Filter(st.vendors, Keep(st))
  }

  /**
   * Without a sort the visible list is pinned down completely: it is the only subsequence
   * of the vendors holding exactly the passing ones.
   */
  lemma FilteredIsTheOnlyCandidate(st: State, r: seq<MapVendor>)
    requires IsSubseq(r, st.vendors)
    requires forall v :: multiset(r)[v] == if Passes(st, v) then multiset(st.vendors)[v] else 0
    ensures r == FilteredVendors(st)
  {
    FilterUnique(st.vendors, Keep(st), r);
  }

  /** The three steps read off the record: search, the checked categories and open-only. */
  lemma PassesExactly(st: State, v: MapVendor)
    ensures Passes(st, v) <==>
              && (st.searchQuery == "" ||
                  exists t, i :: (t == v.base.name || t == v.base.description || t in v.base.specialties) &&
                                 OccursAt(ToLower(t), ToLower(st.searchQuery), i))
              && (|st.selectedCategories| == 0 ||
                  exists i :: 0 <= i < |st.selectedCategories| && CategoryFromName(st.selectedCategories[i]) == Some(v.base.category))
              && (st.showOpenOnly ==> v.base.isOpen)
  {
    SearchPassFields(st.searchQuery, v.base);
  }

  // ---------------------------------------------------------------- handlers

  function HasId(id: string): MapVendor -> bool {
    (v: MapVendor) => v.base.id == id
  }

  function Flip(v: MapVendor): MapVendor {
    v.(base := FlipFavorite(v.base))
  }

  /** `handleToggleFavorite`: negates `isFavorite` on the records with the id; undefined becomes true. */
  function ToggleFavorite(st: State, id: string): (r: State)
    ensures r == st.(vendors := r.vendors)
    ensures |r.vendors| == |st.vendors|
    ensures forall i :: 0 <= i < |st.vendors| && st.vendors[i].base.id != id ==> r.vendors[i] == st.vendors[i]
    ensures forall i :: 0 <= i < |st.vendors| && st.vendors[i].base.id == id ==>
              r.vendors[i].base.isFavorite.Some? &&
              (IsSet(r.vendors[i].base.isFavorite) <==> !IsSet(st.vendors[i].base.isFavorite)) &&
              r.vendors[i].(base := r.vendors[i].base.(isFavorite := st.vendors[i].base.isFavorite)) == st.vendors[i]
  {
    st.(vendors := UpdateWhere(st.vendors, HasId(id), Flip))
  }

  /** A vendor without a favourite flag becomes a favourite on its first toggle. */
  lemma UndefinedBecomesFavorite(st: State, id: string, i: nat)
    requires i < |st.vendors| && st.vendors[i].base.id == id && st.vendors[i].base.isFavorite.None?
    ensures ToggleFavorite(st, id).vendors[i].base.isFavorite == Some(true)
  {
  }

  /** `handleCategoryChange`: checking appends the category, unchecking removes every copy of it. */
  function CategoryChange(st: State, category: string, checked: bool): (r: State)
    ensures r == st.(selectedCategories := r.selectedCategories)
    ensures checked ==> r.selectedCategories == st.selectedCategories + [category]
    ensures !checked ==> category !in r.selectedCategories && IsSubseq(r.selectedCategories, st.selectedCategories)
    ensures !checked ==> forall y :: y != category ==> multiset(r.selectedCategories)[y] == multiset(st.selectedCategories)[y]
  {
    var next := SetChecked(st.selectedCategories, category, checked);
    assert checked ==> next == next[..|st.selectedCategories|] + [next[|st.selectedCategories|]];
    st.(selectedCategories := next)
  }

  /** Unchecking the only checked category (however often it was added) lets every category through again. */
  lemma UncheckLastCategory(st: State, category: string, c: Category)
    requires forall y :: y in st.selectedCategories ==> y == category
    ensures CategorySetPass(CategoryChange(st, category, false).selectedCategories, c)
  {
    var next := CategoryChange(st, category, false).selectedCategories;
    forall y
      ensures multiset(next)[y] == 0
    {
      if y != category {
        assert y !in st.selectedCategories;
      }
    }
    assert multiset(next) == multiset{};
  }

  // ---------------------------------------------------------------- zoom

  const InitialZoom: real := 1.0
  const MinZoom: real := 0.5
  const MaxZoom: real := 2.0
  const ZoomStep: real := 0.2

  predicate ZoomInRange(z: real) {
    MinZoom <= z <= MaxZoom
  }

  /** The "+" button: `Math.min(mapZoom + 0.2, 2)`. */
  function ZoomIn(z: real): (r: real)
    ensures r <= MaxZoom
    ensures r <= z + ZoomStep && (r == z + ZoomStep || r == MaxZoom)
    ensures ZoomInRange(z) ==> ZoomInRange(r) && r >= z
  {
    if z + ZoomStep < MaxZoom then z + ZoomStep else MaxZoom
  }

  /** The "-" button: `Math.max(mapZoom - 0.2, 0.5)`. */
  function ZoomOut(z: real): (r: real)
    ensures r >= MinZoom
    ensures r >= z - ZoomStep && (r == z - ZoomStep || r == MinZoom)
    ensures ZoomInRange(z) ==> ZoomInRange(r) && r <= z
  {
    if z - ZoomStep > MinZoom then z - ZoomStep else MinZoom
  }

  /** Zooming out then in returns to the start when the step out was not clamped. */
  lemma OutThenIn(z: real)
    requires MinZoom + ZoomStep <= z <= MaxZoom
    ensures ZoomIn(ZoomOut(z)) == z
  {
  }

  /** Zooming in then out returns to the start when the step in was not clamped. */
  lemma InThenOut(z: real)
    requires MinZoom <= z <= MaxZoom - ZoomStep
    ensures ZoomOut(ZoomIn(z)) == z
  {
  }

  datatype ZoomClick = PlusClick | MinusClick

  /** The zoom after a run of button clicks. */
  function ApplyClicks(z: real, clicks: seq<ZoomClick>): real
    decreases |clicks|
  {
    if |clicks| == 0 then z
    else ApplyClicks(if clicks[0] == PlusClick then ZoomIn(z) else ZoomOut(z), clicks[1..])
  }

  /** From any zoom in range (the initial 1 among them), every run of clicks stays in range. */
  lemma {:induction false} ZoomStaysInRange(z: real, clicks: seq<ZoomClick>)
    requires ZoomInRange(z)
    ensures ZoomInRange(ApplyClicks(z, clicks))
    decreases |clicks|
  {
    if |clicks| > 0 {
      ZoomStaysInRange(if clicks[0] == PlusClick then ZoomIn(z) else ZoomOut(z), clicks[1..]);
    }
  }

  /**
   * Six presses of "+" take the initial zoom to the cap, which further presses keep.
   * Over exact reals five presses already reach it; in double arithmetic the fifth gives
   * 1.9999999999999998 and the sixth is clamped to 2, so six is the count both agree on.
   */
  lemma PlusClicksReachCap(clicks: seq<ZoomClick>)
    requires |clicks| >= 6 && forall k :: 0 <= k < |clicks| ==> clicks[k] == PlusClick
    ensures ApplyClicks(InitialZoom, clicks) == MaxZoom
  {
    AllPlusPrefix(InitialZoom, clicks, 6);
    assert ZoomInTimes(InitialZoom, 6) == MaxZoom;
    PlusClicksFromCap(MaxZoom, clicks[6..]);
  }

  /** Presses of "+" from the cap stay at the cap. */
  lemma {:induction false} PlusClicksFromCap(z: real, clicks: seq<ZoomClick>)
    requires z == MaxZoom
    requires forall k :: 0 <= k < |clicks| ==> clicks[k] == PlusClick
    ensures ApplyClicks(z, clicks) == MaxZoom
    decreases |clicks|
  {
    if |clicks| > 0 {
      PlusClicksFromCap(ZoomIn(z), clicks[1..]);
    }
  }

  /** Applying `n` leading "+" clicks one by one. */
  lemma {:induction false} AllPlusPrefix(z: real, clicks: seq<ZoomClick>, n: nat)
    requires n <= |clicks|
    requires forall k :: 0 <= k < n ==> clicks[k] == PlusClick
    ensures ApplyClicks(z, clicks) == ApplyClicks(ZoomInTimes(z, n), clicks[n..])
    decreases n
  {
    if n > 0 {
      AllPlusPrefix(ZoomIn(z), clicks[1..], n - 1);
      assert clicks[1..][n - 1..] == clicks[n..];
    }
  }

  function ZoomInTimes(z: real, n: nat): real
    decreases n
  {
    if n == 0 then z else ZoomInTimes(ZoomIn(z), n - 1)
  }

  // ---------------------------------------------------------------- marker layout

  /** A marker's place on the fallback drawing, in percent of its width and height. */
  datatype Point = Point(x: int, y: int)

  const Positions: seq<Point> := [Point(25, 30), Point(60, 45), Point(75, 25), Point(40, 70), Point(80, 60), Point(15, 55)]

  /** `positions[index % positions.length]`: always one of the six spots. */
  function MarkerPosition(index: nat): (r: Point)
    ensures r in Positions
    ensures 0 <= r.x <= 100 && 0 <= r.y <= 100
  {
    Positions[index % |Positions|]
  }

  /** The marker of the `index`-th filtered vendor, for every vendor in the list. */
  function MarkerLayout(vs: seq<MapVendor>): (r: seq<Point>)
    ensures |r| == |vs|
    ensures forall i :: 0 <= i < |r| ==> r[i] in Positions && r[i] == MarkerPosition(i)
  {
    seq(|vs|, i requires 0 <= i < |vs| => MarkerPosition(i))
  }

  /**
   * Along the drawn list the layout repeats every six markers, and any six consecutive
   * markers sit on six different spots.
   */
  lemma MarkerLayoutShape(vs: seq<MapVendor>)
    ensures var r := MarkerLayout(vs);
            (forall i :: 0 <= i && i + 6 < |r| ==> r[i + 6] == r[i]) &&
            (forall i, j :: 0 <= i < j < |r| && j - i < 6 ==> r[i] != r[j])
  {
    var r := MarkerLayout(vs);
    forall i | 0 <= i && i + 6 < |r|
      ensures r[i + 6] == r[i]
    {
      MarkersRepeatEverySix(i);
    }
    forall i, j | 0 <= i < j < |r| && j - i < 6
      ensures r[i] != r[j]
    {
      assert i % 6 != j % 6;
      MarkersDistinctWithinSix(i, j);
    }
  }

  /** Markers six places apart share a spot, so a seventh vendor covers the first. */
  lemma MarkersRepeatEverySix(i: nat)
    ensures MarkerPosition(i + 6) == MarkerPosition(i)
  {
  }

  /** Within six consecutive places every marker has its own spot. */
  lemma MarkersDistinctWithinSix(i: nat, j: nat)
    requires i % 6 != j % 6
    ensures MarkerPosition(i) != MarkerPosition(j)
  {
    var a := i % 6;
    var b := j % 6;
    assert Positions[a] != Positions[b] by {
      assert forall p, q :: 0 <= p < q < 6 ==> Positions[p] != Positions[q];
    }
  }
}
