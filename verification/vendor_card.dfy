/**
 * The vendor record every page shares, its two closed enumerations, and the small
 * display rules of the vendor card: specialty badges, the open/closed label and the
 * favourite button.
 */
module VendorCard {
  import opened Wrappers

  /** The four vendor categories. */
  datatype Category = Food | Drinks | Retail | Services

  /** The three price tiers, shown as "$", "$$" and "$$$". */
  datatype PriceRange = OneDollar | TwoDollars | ThreeDollars

  const CategoryNames: seq<string> := ["food", "drinks", "retail", "services"]
  const PriceNames: seq<string> := ["$", "$$", "$$$"]

  /** The text value a category has in the records and in the category selectors. */
  function CategoryName(c: Category): (r: string)
    ensures r in CategoryNames
  {
    match c
    case Food => "food"
    case Drinks => "drinks"
    case Retail => "retail"
    case Services => "services"
  }

  /** The category a selector text names, if any. */
  function CategoryFromName(s: string): (r: Option<Category>)
    ensures r.Some? <==> s in CategoryNames
    ensures r.Some? ==> CategoryName(r.value) == s
  {
    if s == "food" then Some(Food)
    else if s == "drinks" then Some(Drinks)
    else if s == "retail" then Some(Retail)
    else if s == "services" then Some(Services)
    else None
  }

  /** Category names and categories correspond one to one. */
  lemma CategoryNameRoundTrip(c: Category)
    ensures CategoryFromName(CategoryName(c)) == Some(c)
  {
  }

  /** The text value a price tier has in the records and in the price checkboxes. */
  function PriceName(p: PriceRange): (r: string)
    ensures r in PriceNames
  {
    match p
    case OneDollar => "$"
    case TwoDollars => "$$"
    case ThreeDollars => "$$$"
  }

  /** The price tier a checkbox text names, if any. */
  function PriceFromName(s: string): (r: Option<PriceRange>)
    ensures r.Some? <==> s in PriceNames
    ensures r.Some? ==> PriceName(r.value) == s
  {
    if s == "$" then Some(OneDollar)
    else if s == "$$" then Some(TwoDollars)
    else if s == "$$$" then Some(ThreeDollars)
    else None
  }

  /** Price names and price tiers correspond one to one. */
  lemma PriceNameRoundTrip(p: PriceRange)
    ensures PriceFromName(PriceName(p)) == Some(p)
  {
  }

  /**
   * A vendor as the card shows it. `rating` is a real number, `distance` the raw label
   * ("0.4 mi"); the optional fields `openUntil` and `isFavorite` may be undefined.
   */
  datatype Vendor = Vendor(
    id: string,
    name: string,
    description: string,
    image: string,
    category: Category,
    rating: real,
    reviewCount: int,
    priceRange: PriceRange,
    distance: string,
    isOpen: bool,
    openUntil: Option<string>,
    location: string,
    specialties: seq<string>,
    isFavorite: Option<bool>)

  // ---------------------------------------------------------------- favourite flag

  /** The flag is set: `true`, as opposed to `false` or undefined. */
  predicate IsSet(flag: Option<bool>) {
    flag == Some(true)
  }

  /** `!flag` on an optional boolean: `!undefined` is `true`. */
  function Negate(flag: Option<bool>): (r: Option<bool>)
    ensures r.Some?
    ensures IsSet(r) <==> !IsSet(flag)
  {
    match flag
    case Some(b) => Some(!b)
    case None => Some(true)
  }

  /** Negating twice restores a defined flag, but turns an undefined one into `false`. */
  lemma NegateTwice(flag: Option<bool>)
    ensures flag.Some? ==> Negate(Negate(flag)) == flag
    ensures flag.None? ==> Negate(Negate(flag)) == Some(false)
  {
  }

  /** `{ ...vendor, isFavorite: !vendor.isFavorite }` */
  function FlipFavorite(v: Vendor): Vendor {
    v.(isFavorite := Negate(v.isFavorite))
  }

  // ---------------------------------------------------------------- specialty badges

  const MaxBadges: nat := 3

  /** The specialty block of a card: absent, or some badges and an optional "+N more" count. */
  datatype SpecialtyBlock = NoBlock | Block(badges: seq<string>, more: Option<nat>)

  /**
   * The block is rendered only for a non-empty list; it shows the first three specialties
   * in order and, when there are more than three, a "+N more" badge with N the rest.
   */
  function SpecialtyBlockOf(specialties: seq<string>): (r: SpecialtyBlock)
    ensures r.NoBlock? <==> |specialties| == 0
    ensures r.Block? ==> |r.badges| <= MaxBadges && |r.badges| <= |specialties| && r.badges == specialties[..|r.badges|]
    ensures r.Block? ==> (|r.badges| == MaxBadges || |r.badges| == |specialties|)
    ensures r.Block? ==> (r.more.Some? <==> |specialties| > MaxBadges)
    ensures r.Block? && r.more.Some? ==> |r.badges| + r.more.value == |specialties|
  {
    if |specialties| == 0 then NoBlock
    else if |specialties| <= MaxBadges then Block(specialties, None)
    else Block(specialties[..MaxBadges], Some(|specialties| - MaxBadges))
  }

  /** The badges shown plus the count in "+N more" account for every specialty exactly once. */
  lemma SpecialtiesAccountedFor(specialties: seq<string>)
    requires |specialties| > 0
    ensures var b := SpecialtyBlockOf(specialties);
            b.badges + specialties[|b.badges|..] == specialties
            && |specialties[|b.badges|..]| == b.more.GetOr(0)
  {
  }

  // ---------------------------------------------------------------- status label

  /** `${value}` in a template literal: the text itself, or "undefined" when it is missing. */
  function TemplateText(s: Option<string>): (r: string)
    ensures s.Some? ==> r == s.value
    ensures s.None? ==> r == "undefined"
  {
    s.GetOr("undefined")
  }

  /** The status badge: "Closed" exactly for a closed vendor, otherwise "Open until " and the closing time. */
  function StatusLabel(v: Vendor): (r: string)
    ensures r == "Closed" <==> !v.isOpen
    ensures v.isOpen ==> |r| >= 11 && r[..11] == "Open until " && r[11..] == TemplateText(v.openUntil)
  {
    if v.isOpen then "Open until " + TemplateText(v.openUntil) else "Closed"
  }

  // ---------------------------------------------------------------- favourite button

  /**
   * A click on the heart calls `onToggleFavorite?.(vendor.id)`: the result is the id the
   * handler receives, or None when the card was given no handler.
   */
  function FavoriteClick(hasHandler: bool, v: Vendor): (r: Option<string>)
    ensures r.Some? <==> hasHandler
    ensures r.Some? ==> r.value == v.id
  {
    if hasHandler then Some(v.id) else None
  }
}
