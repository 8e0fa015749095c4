/**
 * The home page: a short list of featured vendor cards whose heart buttons toggle the
 * favourite flag through the page's `handleToggleFavorite`.
 */
module IndexPage {
  import opened Wrappers
  import opened VendorCard
  import opened Catalog

  /** The featured vendors the page holds. */
  datatype State = State(vendors: seq<Vendor>)

  /** `handleToggleFavorite`: the shared toggle applied to the featured list. */
  function HandleToggleFavorite(st: State, id: string): (r: State)
    ensures |r.vendors| == |st.vendors|
    ensures forall i :: 0 <= i < |st.vendors| && st.vendors[i].id != id ==> r.vendors[i] == st.vendors[i]
    ensures forall i :: 0 <= i < |st.vendors| && st.vendors[i].id == id ==>
              r.vendors[i].isFavorite.Some? &&
              (IsSet(r.vendors[i].isFavorite) <==> !IsSet(st.vendors[i].isFavorite)) &&
              r.vendors[i].(isFavorite := st.vendors[i].isFavorite) == st.vendors[i]
  {
    State(ToggleFavorite(st.vendors, id))
  }

  /** An id that no featured vendor carries leaves the page unchanged. */
  lemma ToggleAbsentId(st: State, id: string)
    requires forall i :: 0 <= i < |st.vendors| ==> st.vendors[i].id != id
    ensures HandleToggleFavorite(st, id) == st
  {
    ToggleFavoriteAbsent(st.vendors, id);
  }

  /** Toggling the same id twice restores the page when the flags it touches are defined. */
  lemma ToggleTwice(st: State, id: string)
    requires FlagsDefined(st.vendors, id)
    ensures HandleToggleFavorite(HandleToggleFavorite(st, id), id) == st
  {
    ToggleFavoriteTwice(st.vendors, id);
  }

  /** No two featured vendors share an id. */
  predicate UniqueIds(vs: seq<Vendor>) {
    forall i, j :: 0 <= i < j < |vs| ==> vs[i].id != vs[j].id
  }

  /**
   * A heart click on the `k`-th card: the card hands its own id to the page's handler.
   * The result is the page after the handler ran.
   */
  function ClickHeart(st: State, k: nat): (r: State)
    requires k < |st.vendors|
    ensures |r.vendors| == |st.vendors|
    ensures IsSet(r.vendors[k].isFavorite) <==> !IsSet(st.vendors[k].isFavorite)
    ensures r.vendors[k].(isFavorite := st.vendors[k].isFavorite) == st.vendors[k]
  {
    match FavoriteClick(true, st.vendors[k])
    case Some(id) => HandleToggleFavorite(st, id)
    case None => st
  }

  /** With distinct ids a heart click changes the clicked card's record and no other. */
  lemma ClickChangesOnlyThatCard(st: State, k: nat)
    requires k < |st.vendors|
    requires UniqueIds(st.vendors)
    ensures forall i :: 0 <= i < |st.vendors| && i != k ==> ClickHeart(st, k).vendors[i] == st.vendors[i]
  {
    forall i | 0 <= i < |st.vendors| && i != k
      ensures st.vendors[i].id != st.vendors[k].id
    {
      if i < k {
        assert st.vendors[i].id != st.vendors[k].id;
      } else {
        assert st.vendors[k].id != st.vendors[i].id;
      }
    }
  }
}
