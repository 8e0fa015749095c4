# Vendor-list pipeline of the street-vendor finder

The app lists street vendors on five pages. Vendors, Discover, Favorites and Map each hold
a list of vendor records and compute a memoised `filteredVendors`. It is built in two steps:
a conjunction of independent filter predicates, then (on all pages except Map) a sort by one
key. The Index page, like every list page except Favorites, toggles favourite flags through event
handlers that rebuild the list immutably; on Favorites the heart removes the record instead. The shared `VendorCard` component renders one record: a
category, a price tier, up to three specialty badges with a "+N more" count, an open/closed
label and a heart button.

This project models that logic as pure Dafny functions over immutable datatypes and proves
its properties:

- `Wrappers`: `Option`.
- `Text`: the string built-ins the pipeline calls. These are `toLowerCase`, `includes`,
  `split(" ")[0]`, `parseFloat`, and the comparison behind the A-Z sort.
- `Seqs`: `Array.prototype.filter` specified as "the satisfying subsequence". It also holds
  `map` restricted to matching records and the add/remove of a multi-select list.
- `Sorting`: `Array.prototype.sort` with a JavaScript comparator. It is modelled as a stable
  insertion sort, shown to yield an ordered permutation that keeps ties in input order.
- `VendorCard`: the shared record, its two closed enumerations and the card's display rules.
- `Catalog`: the filter steps and comparators that the pages repeat, stated once.
- One module per page: `VendorsPage`, `DiscoverPage`, `FavoritesPage`, `MapPage`, `IndexPage`.

Numbers (`rating`, parsed distances, the map zoom) are exact reals. A date is modelled by its
`getTime()` value, an integer. A comparator result is a real, and a result `<= 0` lets the
left operand stay first. JavaScript's sort reads a `NaN` comparator result as `+0`, so the
distance comparator returns `0` when either label has no leading number. `parseFloat`'s NaN
is `None`.

## Model

| member | source | states |
|---|---|---|
| `Text.ToLower` | src/pages/Vendors.tsx:370-376 | same length; no capital letter remains; every other character is kept; each capital moves to its lower-case letter |
| `Text.ToLowerIdempotent` | src/pages/Vendors.tsx:370-376 | lower-casing a lower-cased text changes nothing |
| `Text.Includes` | src/pages/Vendors.tsx:372-376 | true exactly when the needle occurs at some index of the text |
| `Text.BeforeFirst` | src/pages/Discover.tsx:192 | `split(" ")[0]`: a prefix of the text with no space in it, ending at the first space when there is one |
| `Text.TrimStart` | src/pages/Discover.tsx:192 | a suffix of the text that does not start with white space |
| `Text.TrimStartDropsSpaces` | src/pages/Discover.tsx:192 | everything `TrimStart` drops is white space |
| `Text.ParseUnsigned` | src/pages/Discover.tsx:192 | no number (NaN) exactly when the text does not start with a digit or with a point and a digit; otherwise a non-negative value |
| `Text.ParseFloat` | src/pages/Discover.tsx:192 | NaN exactly when no decimal starts after the white space and the sign; non-negative without a minus sign |
| `Text.ParseFloatUntrimmed` | src/pages/Discover.tsx:192 | without leading white space the reading is the unsigned number after the sign, negated for a minus sign |
| `Text.ParseFloatOfDigitStart` | src/pages/Vendors.tsx:409 | a text starting with a digit reads as its unsigned decimal prefix |
| `Text.ParseTenthsLabel` | src/pages/Vendors.tsx:409 | a label "W.T unit" is read as the value W.T |
| `Text.ParseFloatOfFirstWord` | src/pages/Discover.tsx:192 | for a label that does not start with a space, reading only the first word gives the same number as reading the whole label |
| `Text.ParseFloatStopsAtSpace` | src/pages/Discover.tsx:192 | appending text that starts with a space to a word without leading space does not change its reading |
| `Text.LeadingSpaceSplitsReadings` | src/pages/Discover.tsx:192-211 | with a leading space, the first word is empty and reads as NaN, while the whole label still reads as its value |
| `Text.CompareText` | src/pages/Vendors.tsx:415 | a result in -1..1 that is 0 exactly for equal names |
| `Text.CompareTextAntisymmetric` | src/pages/Vendors.tsx:415 | swapping the names negates the result |
| `Text.CompareTextTransitive` | src/pages/Vendors.tsx:415 | "not after" is transitive, so the A-Z order is a total preorder |
| `Seqs.Filter` | src/pages/Vendors.tsx:368-400 | no longer than the input; every kept element satisfies the test |
| `Seqs.FilterSelects` | src/pages/Vendors.tsx:368-400 | the result is a subsequence of the input; each element is kept exactly as often as the input holds it when it passes, and never otherwise |
| `Seqs.FilterMembers` | src/pages/Vendors.tsx:368-400 | an element is in the result exactly when it is in the input and passes |
| `Seqs.FilterUnique` | src/pages/Map.tsx:332-358 | any subsequence with those multiplicities is the filter's result, so the filter's specification determines it |
| `Seqs.FilterCongruent` | src/pages/Vendors.tsx:422-430 | tests that agree on every element filter alike, so state the test does not read cannot change the list |
| `Seqs.FilterLengthAll` | src/pages/Favorites.tsx:229-232 | the filter keeps everything exactly when every element passes |
| `Seqs.FilterEmpty` | src/pages/Favorites.tsx:229-232 | the filter keeps nothing exactly when no element passes |
| `Seqs.FilterIdempotent` | src/pages/Favorites.tsx:196-198 | filtering twice by the same test is filtering once |
| `Seqs.FilterKeepsAll` | src/pages/Vendors.tsx:450-456 | a test every element passes returns the input unchanged |
| `Seqs.FilterComplementLength` | src/pages/Favorites.tsx:196-198 | the elements passing a test and those failing it add up to the input length |
| `Seqs.FilterUpdateLength` | src/pages/Vendors.tsx:432-440 | replacing elements by images that pass exactly when the originals did keeps the count of passing elements |
| `Seqs.FilterSubseqLength` | src/pages/Favorites.tsx:229-232 | a subsequence has no more passing elements than its source |
| `Seqs.UpdateWhere` | src/pages/Vendors.tsx:432-440 | same length; selected elements become their image; all others are unchanged |
| `Seqs.SetChecked` | src/pages/Vendors.tsx:442-448 | checking appends the entry, even if it is already there; unchecking removes every copy, and other entries keep their order and their counts; the membership rule in both directions |
| `Seqs.CheckThenUncheck` | src/pages/Vendors.tsx:442-448 | checking a fresh entry and then unchecking it restores the list |
| `Sorting.Insert` | src/pages/Vendors.tsx:402-419 | the result holds the inserted element and the list, element for element |
| `Sorting.Sort` | src/pages/Vendors.tsx:402-419 | a permutation of the input, of the same length |
| `Sorting.SortSorted` | src/pages/Vendors.tsx:402-419 | for a comparator that is a total preorder on the input, every earlier element may stay ahead of every later one |
| `Sorting.SortOfSortedIsIdentity` | src/pages/Vendors.tsx:416-417 | an input that is already ordered comes back unchanged, as it does under the all-zero default comparator |
| `Sorting.SortIdempotent` | src/pages/Vendors.tsx:402-419 | sorting a sorted list again changes nothing |
| `Sorting.SortStable` | src/pages/Vendors.tsx:402-419 | elements that tie with any given element keep their input order |
| `VendorCard.CategoryName` | src/components/VendorCard.tsx:22 | a category's text is one of food, drinks, retail, services |
| `VendorCard.CategoryFromName` | src/components/VendorCard.tsx:22 | a text names a category exactly when it is one of the four names, and the name maps back |
| `VendorCard.CategoryNameRoundTrip` | src/components/VendorCard.tsx:22 | name then parse returns the category |
| `VendorCard.PriceName` | src/components/VendorCard.tsx:25 | a tier's text is one of $, $$, $$$ |
| `VendorCard.PriceFromName` | src/components/VendorCard.tsx:25 | a text names a tier exactly when it is one of the three, and the name maps back |
| `VendorCard.PriceNameRoundTrip` | src/components/VendorCard.tsx:25 | name then parse returns the tier |
| `VendorCard.Negate` | src/pages/Map.tsx:364 | `!isFavorite` is always defined and set exactly when the old flag was not set; `!undefined` is true |
| `VendorCard.NegateTwice` | src/pages/Index.tsx:96-104 | negating twice restores a defined flag; an undefined one ends as false |
| `VendorCard.SpecialtyBlockOf` | src/components/VendorCard.tsx:150-166 | no block exactly for an empty list; at most three badges, the first ones in order; "+N more" exactly when there are more than three, with N the rest |
| `VendorCard.SpecialtiesAccountedFor` | src/components/VendorCard.tsx:152-165 | badges plus the remaining specialties rebuild the list, and N counts the remainder |
| `VendorCard.StatusLabel` | src/components/VendorCard.tsx:108 | "Closed" exactly for a closed vendor; otherwise "Open until " and the closing time, which shows "undefined" when missing |
| `VendorCard.TemplateText` | src/components/VendorCard.tsx:108 | `${openUntil}` shows the closing time itself, or "undefined" when it is missing |
| `VendorCard.FavoriteClick` | src/components/VendorCard.tsx:84 | the handler is called exactly when one was supplied, and it gets the card's own id |
| `Catalog.AnyIncludes` | src/pages/Vendors.tsx:372-376 | true exactly when some text, lower-cased, includes the query |
| `Catalog.SearchPass` | src/pages/Vendors.tsx:369-378 | an empty query passes; otherwise the lower-cased query must occur in the lower-cased name, description or one of the specialties |
| `Catalog.SearchPassFields` | src/pages/Vendors.tsx:369-378 | the search step passes exactly when the query is empty or occurs case-insensitively in the name, the description or a specialty |
| `Catalog.CategoryPass` | src/pages/Vendors.tsx:380-382 | "all" passes; any other selection passes exactly the category it names |
| `Catalog.PricePass` | src/pages/Vendors.tsx:384-389 | an empty set passes; otherwise some selected text must name the vendor's tier |
| `Catalog.FlagPass` | src/pages/Vendors.tsx:391-397 | an unticked checkbox passes every vendor; a ticked one passes exactly the vendors whose flag holds |
| `Catalog.DistancePass` | src/pages/Discover.tsx:191-195 | a first word with no number (NaN) always passes; otherwise it passes exactly when the number is at most the limit |
| `Catalog.DistancePassOnTenths` | src/pages/Discover.tsx:191-195 | a label "W.T unit" passes exactly when W.T is at most the limit |
| `Catalog.UnparsedDistanceTies` | src/pages/Vendors.tsx:409 | a label with no number compares as 0 against every other label, both ways |
| `Catalog.RatingDesc` | src/pages/Vendors.tsx:404-405 | zero or less exactly when `a` rates at least as high as `b`; zero exactly for equal ratings |
| `Catalog.ReviewsDesc` | src/pages/Vendors.tsx:406-407 | zero or less exactly when `a` has at least as many reviews as `b`; zero exactly for equal counts |
| `Catalog.DistanceAsc` | src/pages/Vendors.tsx:408-409 | with both labels readable, zero or less exactly when `a` is at most as far as `b` and zero exactly for equal distances; an unreadable label gives 0 (a NaN difference) |
| `Catalog.NameAsc` | src/pages/Vendors.tsx:414-415 | zero or less exactly when `a`'s name is not after `b`'s in code-point order; zero exactly for equal names |
| `Catalog.DistanceAscIsPreorder` | src/pages/Vendors.tsx:409 | with readable labels the distance comparator is total and transitive, and orders by value |
| `Catalog.NameAscIsPreorder` | src/pages/Vendors.tsx:415 | the A-Z comparator is total and transitive |
| `Catalog.ToggleFavorite` | src/pages/Vendors.tsx:432-440 | same length; records with another id unchanged; matching records differ only in a flag that is now defined and negated |
| `Catalog.ToggleFavoriteTwice` | src/pages/Vendors.tsx:432-440 | toggling an id twice restores the list when its flags are defined |
| `Catalog.ToggleFavoriteAbsent` | src/pages/Index.tsx:98-102 | toggling an id no record carries changes nothing |
| `VendorsPage.Initial` | src/pages/Vendors.tsx:354-361 | starts with "rating", an empty query, category "all", no price tier checked and both checkboxes clear, so every vendor passes |
| `VendorsPage.Matching` | src/pages/Vendors.tsx:368-400 | a subsequence of the vendors holding exactly those passing search, category, price, open-only and verified-only, each as often as before |
| `VendorsPage.PassesExactly` | src/pages/Vendors.tsx:368-398 | a vendor passes exactly when the query is empty or occurs case-insensitively in its name, description or a specialty; the category is "all" or its own; no tier is checked or its tier is; and it is open and verified where those boxes are ticked |
| `VendorsPage.ComparatorIsPreorder` | src/pages/Vendors.tsx:402-419 | every sort key yields a total preorder; "distance" does when every label reads as a number |
| `VendorsPage.ByNewest` | src/pages/Vendors.tsx:410-413 | zero or less exactly when `a` joined no earlier than `b`, so the newest come first |
| `VendorsPage.ComparatorKeys` | src/pages/Vendors.tsx:402-419 | for each key, what "zero or less" means for a pair: higher rating, more reviews, nearer (readable labels), newer, or A-Z name; an unknown key compares every pair as 0 |
| `VendorsPage.FilteredVendors` | src/pages/Vendors.tsx:367-430 | a permutation of the matching vendors; a vendor is listed exactly when it is in the state and passes every step |
| `VendorsPage.RatingOrder` | src/pages/Vendors.tsx:404-405 | on "rating" the ratings never increase down the list |
| `VendorsPage.ReviewsOrder` | src/pages/Vendors.tsx:406-407 | on "reviews" the review counts never increase |
| `VendorsPage.DistanceOrder` | src/pages/Vendors.tsx:408-409 | on "distance", when the matching vendors' labels are readable, the parsed distances never decrease |
| `VendorsPage.NewestOrder` | src/pages/Vendors.tsx:410-413 | on "newest" the joining dates never increase |
| `VendorsPage.NameOrder` | src/pages/Vendors.tsx:414-415 | on "alphabetical" the names are in order |
| `VendorsPage.UnknownKeyKeepsOrder` | src/pages/Vendors.tsx:416-417 | an unrecognised key leaves the filtered order as it is |
| `VendorsPage.TiesKeepOrder` | src/pages/Vendors.tsx:402-419 | vendors tying on the active key keep their state order |
| `VendorsPage.ResortChangesNothing` | src/pages/Vendors.tsx:402-419 | sorting the visible list again on the same key changes nothing |
| `VendorsPage.ToggleFavorite` | src/pages/Vendors.tsx:432-440 | only the vendor list changes; other ids untouched; matching records differ only in a negated flag |
| `VendorsPage.ToggleTwice` | src/pages/Vendors.tsx:432-440 | toggling twice restores the state when the touched flags are defined |
| `VendorsPage.ToggleKeepsCount` | src/pages/Vendors.tsx:422-440 | no filter step reads the favourite flag, so a toggle keeps the number of vendors found |
| `VendorsPage.PriceRangeChange` | src/pages/Vendors.tsx:442-448 | only the tier list changes: checking appends, unchecking drops every copy and keeps the rest in order |
| `VendorsPage.CheckedTierPasses` | src/pages/Vendors.tsx:384-389 | after checking a tier, vendors of that tier pass the price step |
| `VendorsPage.ClearFilters` | src/pages/Vendors.tsx:450-456 | vendors and sort key are kept; the query is empty, the category "all", no tier checked and both checkboxes clear, i.e. the initial filters, which pass everyone |
| `VendorsPage.ClearedShowsAll` | src/pages/Vendors.tsx:450-456 | after clearing, the filter keeps every vendor in order and the page lists a permutation of all of them |
| `VendorsPage.FoodAndOpenScenario` | src/pages/Vendors.tsx:380-393 | an open food vendor and a closed drinks vendor: "food" keeps just the first, and so does open-only with the category "all" or "food" |
| `DiscoverPage.Initial` | src/pages/Discover.tsx:150-156 | starts on "distance" with a limit of 5 and the clear button hidden |
| `DiscoverPage.Matching` | src/pages/Discover.tsx:160-198 | a subsequence holding exactly the vendors that pass search, category, price, open-only and distance |
| `DiscoverPage.PassesExactly` | src/pages/Discover.tsx:160-198 | a vendor passes exactly when the query is empty or occurs case-insensitively in its name, description or a specialty; the category is "all" or its own; no tier is checked or its tier is; it is open where open-only is ticked; and its first word is unreadable or at most the limit |
| `DiscoverPage.UnreadableDistancePasses` | src/pages/Discover.tsx:191-195 | a label with no leading number passes or fails independently of the slider |
| `DiscoverPage.LeadingSpaceEscapesLimit` | src/pages/Discover.tsx:192-211 | a label with a leading space passes any limit, although the sort reads its distance |
| `DiscoverPage.ComparatorIsPreorder` | src/pages/Discover.tsx:201-212 | every key yields a total preorder, the distance comparator when labels read as numbers |
| `DiscoverPage.ComparatorKeys` | src/pages/Discover.tsx:201-212 | for each key, what "zero or less" means for a pair: higher rating, more reviews, A-Z name, and for "distance" and every other key, nearer (readable labels) with an unreadable label tying |
| `DiscoverPage.FilteredVendors` | src/pages/Discover.tsx:159-224 | a permutation of the matching vendors; listed exactly when present and passing |
| `DiscoverPage.UnknownKeySortsByDistance` | src/pages/Discover.tsx:209-211 | any key other than rating, reviews and alphabetical gives the same list as "distance" |
| `DiscoverPage.RatingOrder` | src/pages/Discover.tsx:203-204 | on "rating" the ratings never increase |
| `DiscoverPage.ReviewsOrder` | src/pages/Discover.tsx:205-206 | on "reviews" the review counts never increase |
| `DiscoverPage.NameOrder` | src/pages/Discover.tsx:207-208 | on "alphabetical" the names are in order |
| `DiscoverPage.DistanceOrder` | src/pages/Discover.tsx:209-211 | by distance (the default), when the matching vendors' labels are readable, the parsed distances never decrease |
| `DiscoverPage.TiesKeepOrder` | src/pages/Discover.tsx:201-212 | vendors tying on the active key keep their state order |
| `DiscoverPage.ToggleFavoriteIn` | src/pages/Discover.tsx:226-234 | only the vendor list changes; other ids untouched; matching records differ only in a negated flag |
| `DiscoverPage.ToggleKeepsCount` | src/pages/Discover.tsx:215-234 | a toggle keeps the number of vendors found |
| `DiscoverPage.PriceRangeChange` | src/pages/Discover.tsx:236-242 | only the tier list changes: checking appends, unchecking drops every copy |
| `DiscoverPage.ClearAll` | src/pages/Discover.tsx:380-386 | filters reset, the limit back to 5, the button hidden; only the distance step still filters |
| `DiscoverPage.ClearKeepDistance` | src/pages/Discover.tsx:423-428 | filters reset, the limit kept, the button hidden; only the distance step at the kept limit still filters |
| `DiscoverPage.ClearActionsAgree` | src/pages/Discover.tsx:380-428 | the two clear actions give the same state exactly when the limit is already 5 |
| `DiscoverPage.ClearButtonIgnoresDistance` | src/pages/Discover.tsx:373-376 | moving the slider never shows or hides the clear button |
| `DiscoverPage.ClearButtonVisible` | src/pages/Discover.tsx:373-376 | while the button is hidden, a vendor passes exactly when it passes the distance step |
| `DiscoverPage.ClearButtonHiddenIffCleared` | src/pages/Discover.tsx:373-376 | the button is hidden exactly when the empty-state clear would leave the state unchanged |
| `DiscoverPage.ClearKeepDistanceShowsWithinLimit` | src/pages/Discover.tsx:423-428 | after the empty-state clear, the list is the vendors within the kept limit |
| `DiscoverPage.ClearAllShowsWithinDefault` | src/pages/Discover.tsx:380-386 | after the header clear, the list is the vendors within 5 |
| `FavoritesPage.Initial` | src/pages/Favorites.tsx:138-143 | starts on "recent" with filters that pass every vendor |
| `FavoritesPage.Matching` | src/pages/Favorites.tsx:146-164 | a subsequence holding exactly the saved vendors passing search (tags included) and category |
| `FavoritesPage.PassesExactly` | src/pages/Favorites.tsx:146-164 | a saved vendor passes exactly when the query is empty or occurs case-insensitively in its name, description, a specialty or a tag, and the category is "all" or its own |
| `FavoritesPage.TagMatchPasses` | src/pages/Favorites.tsx:155 | a query found in a tag alone passes the search step |
| `FavoritesPage.ByVisitedIsPreorder` | src/pages/Favorites.tsx:174-181 | the visit comparator is total and transitive |
| `FavoritesPage.ComparatorIsPreorder` | src/pages/Favorites.tsx:167-191 | every key yields a total preorder, "distance" when labels read as numbers |
| `FavoritesPage.ByRecent` | src/pages/Favorites.tsx:169-173 | zero or less exactly when `a` was saved no earlier than `b`, so the latest saved come first |
| `FavoritesPage.ByVisited` | src/pages/Favorites.tsx:174-181 | zero or less exactly when `b` was never visited or both were and `a`'s visit is no earlier; zero exactly for equal visit values |
| `FavoritesPage.ComparatorKeys` | src/pages/Favorites.tsx:167-191 | for each key, what "zero or less" means for a pair: later saved, visited-first then latest visit, higher rating, nearer (readable labels), or A-Z name; an unknown key compares every pair as 0 |
| `FavoritesPage.FilteredVendors` | src/pages/Favorites.tsx:145-194 | a permutation of the matching vendors; listed exactly when present and passing |
| `FavoritesPage.RecentOrder` | src/pages/Favorites.tsx:169-173 | on "recent" the favourite dates never increase |
| `FavoritesPage.VisitedOrder` | src/pages/Favorites.tsx:174-181 | on "visited" every visited vendor precedes every unvisited one, latest visit first |
| `FavoritesPage.RatingOrder` | src/pages/Favorites.tsx:182-183 | on "rating" the ratings never increase |
| `FavoritesPage.DistanceOrder` | src/pages/Favorites.tsx:184-185 | on "distance", when the matching vendors' labels are readable, the parsed distances never decrease |
| `FavoritesPage.NameOrder` | src/pages/Favorites.tsx:186-187 | on "alphabetical" the names are in order |
| `FavoritesPage.UnknownKeyKeepsOrder` | src/pages/Favorites.tsx:188-189 | an unrecognised key leaves the filtered order as it is |
| `FavoritesPage.TiesKeepOrder` | src/pages/Favorites.tsx:167-191 | vendors tying on the active key keep their state order |
| `FavoritesPage.RemoveFavorite` | src/pages/Favorites.tsx:196-198 | only the list changes; no record with the id remains; the others stay in order, as often as before |
| `FavoritesPage.RemoveAbsent` | src/pages/Favorites.tsx:196-198 | removing an id no record carries changes nothing |
| `FavoritesPage.RemoveIdempotent` | src/pages/Favorites.tsx:196-198 | a second removal of the same id changes nothing more |
| `FavoritesPage.RemoveShrinksByMatches` | src/pages/Favorites.tsx:196-198 | the list shrinks by exactly the number of records carrying the id |
| `FavoritesPage.ToggleNotifications` | src/pages/Favorites.tsx:200-208 | only the list changes; other ids untouched; matching records differ only in a flipped `notifications` |
| `FavoritesPage.ToggleNotificationsTwice` | src/pages/Favorites.tsx:200-208 | toggling notifications twice is the identity |
| `FavoritesPage.Export` | src/pages/Favorites.tsx:210-217 | one entry per saved vendor, in state order, carrying its name, category, location, rating and favourite date |
| `FavoritesPage.ExportIgnoresViewAndNotifications` | src/pages/Favorites.tsx:210-217 | the export does not depend on search, category, sort key or notification flags |
| `FavoritesPage.ComputeStats` | src/pages/Favorites.tsx:229-238 | total is the length; visited and notified are the lengths of the lists of visited and of notified vendors, so at most the total, equal to it exactly when every vendor qualifies, and zero exactly when none does; the average is the one `AverageRating` states |
| `FavoritesPage.AverageRating` | src/pages/Favorites.tsx:233-237 | no average ("0") exactly for an empty list, otherwise a mean that times the length gives the sum of the ratings |
| `FavoritesPage.SumRatingsBounds` | src/pages/Favorites.tsx:234-236 | the rating sum lies between the count times the lowest and the count times the highest rating |
| `FavoritesPage.SumRatingsFoldsLeft` | src/pages/Favorites.tsx:235 | the rating sum equals the reduce's left-to-right fold: the sum of all but the last plus the last rating |
| `FavoritesPage.AverageWithinRatings` | src/pages/Favorites.tsx:234-236 | the average lies between the lowest and the highest rating |
| `FavoritesPage.RemoveLowersCounts` | src/pages/Favorites.tsx:196-238 | removing a favourite never raises the total, visited or notified counts |
| `MapPage.Initial` | src/pages/Map.tsx:323-329 | starts at zoom exactly 1 (so in range) with an empty query, no category checked and open-only clear, so every vendor passes |
| `MapPage.CategorySetPass` | src/pages/Map.tsx:345-350 | nothing checked passes; otherwise some checked text must name the vendor's category |
| `MapPage.PassesExactly` | src/pages/Map.tsx:333-356 | a vendor passes exactly when the query is empty or occurs case-insensitively in its name, description or a specialty; no category is checked or some checked text names its category; and it is open where open-only is ticked |
| `MapPage.FilteredVendors` | src/pages/Map.tsx:332-358 | no sort: a subsequence holding exactly the vendors passing search, categories and open-only, each as often as before |
| `MapPage.FilteredIsTheOnlyCandidate` | src/pages/Map.tsx:332-358 | any subsequence with those multiplicities is the visible list itself |
| `MapPage.ToggleFavorite` | src/pages/Map.tsx:360-368 | only the list changes; other ids untouched; matching records differ only in a negated flag |
| `MapPage.UndefinedBecomesFavorite` | src/pages/Map.tsx:364 | a record with no flag becomes a favourite on its first toggle |
| `MapPage.CategoryChange` | src/pages/Map.tsx:370-374 | only the category list changes: checking appends, unchecking drops every copy |
| `MapPage.UncheckLastCategory` | src/pages/Map.tsx:345-374 | unchecking the only checked category lets every category through again |
| `MapPage.ZoomIn` | src/pages/Map.tsx:488 | never above 2; one step up or the cap; from inside [0.5, 2] it stays inside and does not decrease |
| `MapPage.ZoomOut` | src/pages/Map.tsx:496 | never below 0.5; one step down or the floor; from inside [0.5, 2] it stays inside and does not increase |
| `MapPage.OutThenIn` | src/pages/Map.tsx:488-496 | an unclamped step out is undone by a step in |
| `MapPage.InThenOut` | src/pages/Map.tsx:488-496 | an unclamped step in is undone by a step out |
| `MapPage.ZoomStaysInRange` | src/pages/Map.tsx:328 | from the initial 1, or any zoom in [0.5, 2], every run of clicks stays in [0.5, 2] |
| `MapPage.PlusClicksReachCap` | src/pages/Map.tsx:488 | six or more "+" clicks from 1 end at exactly 2 (in double arithmetic the fifth click gives 1.9999999999999998; over exact reals five would already do) |
| `MapPage.PlusClicksFromCap` | src/pages/Map.tsx:488 | "+" clicks at the cap stay at the cap |
| `MapPage.AllPlusPrefix` | src/pages/Map.tsx:488 | a run of leading "+" clicks acts as that many zoom-ins |
| `MapPage.MarkerPosition` | src/pages/Map.tsx:210-219 | always one of the six spots, inside the drawing |
| `MapPage.MarkerLayout` | src/pages/Map.tsx:316-317 | one marker per listed vendor; the vendor at index i sits on `MarkerPosition(i)`, one of the six spots |
| `MapPage.MarkerLayoutShape` | src/pages/Map.tsx:316-317 | along the drawn list the markers repeat every six, and any six consecutive markers sit on different spots |
| `MapPage.MarkersRepeatEverySix` | src/pages/Map.tsx:219 | markers six places apart share a spot |
| `MapPage.MarkersDistinctWithinSix` | src/pages/Map.tsx:210-219 | indices that differ modulo six get different spots |
| `IndexPage.HandleToggleFavorite` | src/pages/Index.tsx:96-104 | same length; other ids untouched; matching records differ only in a negated flag |
| `IndexPage.ToggleAbsentId` | src/pages/Index.tsx:98-102 | an unknown id leaves the page unchanged |
| `IndexPage.ToggleTwice` | src/pages/Index.tsx:96-104 | toggling twice restores the page when the touched flags are defined, as every featured record's flag is |
| `IndexPage.ClickHeart` | src/components/VendorCard.tsx:84 | a heart click flips the clicked card's own flag and changes nothing else in that record |
| `IndexPage.ClickChangesOnlyThatCard` | src/pages/Index.tsx:96-104 | with distinct ids, a heart click leaves every other card's record unchanged |

## Left out

- The Google Maps components (`GoogleMap`, `GoogleMapsWrapper`) are left out. They hold script injection, window callbacks, polling timers, marker objects and geolocation, which are calls into a foreign library and the browser.
- `SimpleMap` and `Header` are left out because they hold no logic. The first is a decorative layout; the second is navigation chrome.
- React rendering, hooks, styling, the detail dialog, `viewMode` and `selectedVendor` are left out. So are the Blob/download of the export and `window.open` directions, which are side effects.
- Floating point is not modelled: ratings, distances and zoom are exact reals. `MapPage.ZoomIn`, `MapPage.ZoomOut` and the click lemmas therefore do not reproduce IEEE rounding of the repeated 0.2 steps.
- `toFixed(1)` and the string form of the average are left out. `FavoritesPage.ComputeStats` returns the exact mean, or `NoRatings` where the page shows "0".
- `Text.ParseFloat` does not read exponents ("1e3"), "Infinity", or white space other than space, tab, CR and LF. Distance labels in the app are "<decimal> <unit>".
- `Text.ToLower` folds ASCII letters only; JavaScript's `toLowerCase` also folds other scripts.
- `Text.CompareText` is code-point order and stands in for `localeCompare`. Locale collation (accents, case-insensitive primary order) is not modelled.
- Dates are their `getTime()` values. An unparseable date (`NaN`) is not modelled. An empty `lastVisited` string, which the page treats as "not visited", is folded into `None`.
- `Sorting.Sort` fixes one stable order. Where the distance comparator is not a preorder (some labels read as NaN and tie with everything), the engine's order is implementation-defined. The ordering and stability lemmas for "distance" therefore require every matching vendor's label to read as a number; otherwise only the permutation is claimed.
- The extra `ExtendedVendor` fields (`website`, `hours`, `totalReviews`, `recentReviews`, `photos`, `coordinates`) are display-only and left out.
- The fixture arrays are static data, not behaviour. The Index lemmas state their premise instead: the touched favourite flags are defined, as they are in every featured record.
- Discover's slider value is the single number `maxDistance[0]`, because the slider always supplies exactly one value.
