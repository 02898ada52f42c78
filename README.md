# swan-z core logic in Dafny

This project models four groups of deterministic logic in the swan-z fashion store: its
TypeScript back end, React and React Native clients, and one Python preprocessing helper. It
then proves the properties those parts promise.

1. **Style scoring and ranking.**
   - The client's style-match score, recommendation ranking and style description.
   - The style profile's top style lines and its pre-save recomputation of preferences.
   - The recommendation service's queries: similar products, peer users and the popularity
     aggregation. Also its error wrapping and limit slicing.
   - The one-hot style-line encoder, and the six-member style-line enumeration.
2. **Client state containers.**
   - The cart and theme providers of the shared contexts.
   - The Redux slices: mobile cart, mobile and web designs, mobile and web products, and the
     mobile user session.
3. **Orders and stock.**
   - The order document's total and status whitelist.
   - `createOrder`, with its check-then-decrement of stock, plus cancellation with restocking,
     payment, status updates and the paged order history.
   - The product service: creation checks, merge on update, deletion, the non-negative stock
     update, paging and search.
   - The product document's discount arithmetic.
4. **String validators and formatters.**
   - Truncation, the e-mail shape test, image-format membership and `throttle`.
   - Phone formatting and capitalisation.
   - The form validators for password, username, phone number and name lengths.

How the source is rendered in Dafny:

- **Data.** Documents and payloads are `datatype`s. Collections are `seq`s, JavaScript
  `undefined`/`null` are `Option`, and thrown errors are the `Failure` side of a `Result`.
- **Database.** The back end's database is a class, `BackendStore.Store`. It holds the users,
  style lines, products and orders, plus a counter for fresh ids. The service functions are
  methods that modify the store, each proved against a pure specification function of the old
  state.
- **Redux slices.** Each slice is a class. It has one method per reducer case, and each method
  states its whole new state.
- **Loops and in-place sorts.** A loop in the source is a `while` loop with its invariants, and
  an in-place sort is an insertion sort on an `array`. Each is proved equal to the pure
  function that the lemmas reason about.
- **Numbers.** Prices and scores are `real`. Counts and quantities are `int`.
- **Outside inputs.** Clocks (`Date.now()`) and random draws (`Math.random()`) are parameters.

## Model

| member | source | states |
|---|---|---|
| StyleLines.AllIsTheEnumeration | src/shared/constants/index.ts:38-45 | the enumeration has exactly six pairwise distinct members, listed in declaration order |
| StyleLines.NameInjective | src/shared/constants/index.ts:38-45 | distinct members have distinct string values |
| StyleLines.FromNameOfName | src/shared/constants/index.ts:38-45 | parsing a member's string value gives that member back |
| Sorting.SortDescCorrect | src/frontend/utils/styleHelpers.ts:46 | the stable descending sort used for every `sort((a, b) => b.k - a.k)` is a permutation of its input and orders keys non-increasingly |
| Sorting.SortDescOfSorted | src/backend/models/StyleProfile.ts:64 | an already sorted array is left unchanged, so sorting twice is sorting once |
| Sorting.TopDominates | src/frontend/utils/styleHelpers.ts:46-48 | after the sort, every element in the first k places has a key at least that of every element after them |
| Sorting.SortDescInPlace | src/frontend/utils/styleHelpers.ts:46 | sorting an array in place leaves exactly the value of the sort function on its old contents |
| JsBuiltins.SliceTo | src/shared/utils/index.ts:61 | `slice(0, end)` is a prefix; a negative end drops that many elements from the back; the length is clamped to the input |
| JsBuiltins.SliceToNonNegative | src/frontend/utils/styleHelpers.ts:48 | for end >= 0 the slice keeps exactly the first min(end, length) elements |
| JsBuiltins.Trim | src/backend/models/Product.ts:23 | the result is the input with leading and trailing whitespace removed, and it has no whitespace at either end |
| JsBuiltins.TrimIdempotent | src/backend/models/Product.ts:23 | trimming twice is trimming once |
| JsBuiltins.TrimEmpty | src/backend/models/Product.ts:20-24 | a name trims to "" exactly when it is all whitespace |
| JsBuiltins.DecimalValueOfNatToString | src/backend/services/orderService.ts:137 | the decimal text of a clock reading reads back as that number |
| JsBuiltins.NatToStringInjective | src/backend/services/orderService.ts:137 | different clock readings print differently |
| DataPreprocessing.StyleMapping | src/ai/utils/dataPreprocessing.py:79 | the mapping's keys are exactly the members' values, each mapped to its enumeration index |
| DataPreprocessing.MappingIsEnumerationOrder | src/ai/utils/dataPreprocessing.py:79 | the six members get the positions 0 to 5 in declaration order and nothing else is mapped |
| DataPreprocessing.EncodeIndices | src/ai/utils/dataPreprocessing.py:82 | success gives one index per label, in input order; failure names the first unknown label |
| DataPreprocessing.EncodeStyleLines | src/ai/utils/dataPreprocessing.py:74-87 | one row per input label, in order, each row of width six; fails exactly when the index list fails |
| DataPreprocessing.EncodedRowIsOneHot | src/ai/utils/dataPreprocessing.py:85 | row i has 1.0 exactly at the index of label i and 0.0 everywhere else |
| DataPreprocessing.DecodeEncode | src/ai/utils/dataPreprocessing.py:79-85 | decoding row i of the encoding gives back label i |
| DataPreprocessing.UnknownLabelFails | src/ai/utils/dataPreprocessing.py:82 | a label outside the enumeration makes the whole call fail with a KeyError for the first such label |
| DataPreprocessing.EmptyInput | src/ai/utils/dataPreprocessing.py:82-85 | the empty label list encodes to no rows |
| StyleHelpers.FindPreference | src/frontend/utils/styleHelpers.ts:19 | the first preference of the category, or none exactly when no preference has it |
| StyleHelpers.FindAttribute | src/frontend/utils/styleHelpers.ts:20 | the first attribute of the category, or none exactly when no attribute has it |
| StyleHelpers.EffectiveWeight | src/frontend/utils/styleHelpers.ts:23 | an absent or zero weight counts as 1; any other weight counts as given |
| StyleHelpers.CalculateStyleMatch | src/frontend/utils/styleHelpers.ts:11-31 | the accumulating loop returns the weighted mean agreement of the specification function |
| StyleHelpers.NoSharedCategoryScoresZero | src/frontend/utils/styleHelpers.ts:18-30 | no category present on both sides: the score is 0 |
| StyleHelpers.ScoreInUnitInterval | src/frontend/utils/styleHelpers.ts:10-30 | with values in [0, 1] and non-negative weights the score lies in [0, 1] |
| StyleHelpers.EqualValuesScoreOne | src/frontend/utils/styleHelpers.ts:24-30 | equal values on every shared category, with at least one shared category, give exactly 1 |
| StyleHelpers.MissingOrZeroWeightIsOne | src/frontend/utils/styleHelpers.ts:23 | writing every missing or zero weight out as 1 changes no score |
| StyleHelpers.LaterDuplicatesIgnored | src/frontend/utils/styleHelpers.ts:19-20 | preferences appended after the existing ones, for categories already present, do not change the score: only the first entry per category counts |
| StyleHelpers.GetRecommendedProducts | src/frontend/utils/styleHelpers.ts:40-49 | scoring, the in-place sort and the cut give exactly the specification's ranked list |
| StyleHelpers.RecommendationCount | src/frontend/utils/styleHelpers.ts:41-48 | a limit >= 0 yields min(limit, number of products) recommendations, each one of the input products |
| StyleHelpers.RecommendationsOrdered | src/frontend/utils/styleHelpers.ts:46-48 | recommendations come in order of non-increasing style match |
| StyleHelpers.RecommendationsAreBest | src/frontend/utils/styleHelpers.ts:46-48 | a product left out scores no higher than any product recommended |
| StyleHelpers.Strong | src/frontend/utils/styleHelpers.ts:58 | keeps exactly the preferences with value above 0.7 |
| StyleHelpers.DominantStylesShape | src/frontend/utils/styleHelpers.ts:57-60 | at most three dominant styles (exactly min(3, strong ones)), each a preference above 0.7, in non-increasing value |
| StyleHelpers.DominantStylesAreStrongest | src/frontend/utils/styleHelpers.ts:57-60 | a strong preference left out is valued no higher than any dominant one |
| StyleHelpers.EclecticIffNothingStrong | src/frontend/utils/styleHelpers.ts:62-64 | the fixed eclectic sentence is returned exactly when no preference is above 0.7 |
| StyleHelpers.GenerateStyleDescription | src/frontend/utils/styleHelpers.ts:56-84 | a profile with no preference above 0.7 gets the fixed eclectic sentence |
| StyleHelpers.SingleDominantStyle | src/frontend/utils/styleHelpers.ts:57-83 | a profile with exactly one preference above 0.7 is described by the sentence around that preference's category phrase |
| StyleProfileModel.ValidatePreferences | src/backend/models/StyleProfile.ts:20-32 | succeeds exactly when every entry's style line is an enumeration value and its score lies in [0, 100]; a failure names the first bad entry |
| StyleProfileModel.CalculatedPreferencesShape | src/backend/models/StyleProfile.ts:51-60 | whatever the draws, exactly one valid entry per style line, no line twice, sorted by descending score |
| StyleProfileModel.CalculateStylePreferences | src/backend/models/StyleProfile.ts:51-60 | one entry per style line of the enumeration |
| StyleProfileModel.TopStyleLinesCount | src/backend/models/StyleProfile.ts:62-67 | n >= 0 yields min(n, number of preferences) style lines, each from some preference |
| StyleProfileModel.TopStyleLines | src/backend/models/StyleProfile.ts:62-67 | for n >= 0, exactly min(n, number of preferences) style lines |
| StyleProfileModel.TopStyleLinesAreBest | src/backend/models/StyleProfile.ts:63-66 | a preference whose line is not returned scores no higher than every returned one |
| StyleProfileModel.TopOfCalculatedCoversAll | src/backend/models/StyleProfile.ts:54-66 | asking fresh preferences for six or more top lines returns every style line |
| StyleProfileModel.StyleProfile.constructor | src/backend/models/StyleProfile.ts:34-49 | a new document holds its user and answers, counts its answers as modified, and has no preferences |
| StyleProfileModel.StyleProfile.SetQuizResponses | src/backend/models/StyleProfile.ts:42-45 | assigning answers marks them modified and changes nothing else |
| StyleProfileModel.StyleProfile.SetPreferences | src/backend/models/StyleProfile.ts:46 | assigning the preferences array replaces its contents and leaves the modified flag alone |
| StyleProfileModel.StyleProfile.GetTopStyleLines | src/backend/models/StyleProfile.ts:62-67 | returns the top lines of the old array and leaves the stored array sorted by descending score |
| StyleProfileModel.StyleProfile.Save | src/backend/models/StyleProfile.ts:69-74 | validation of the old preferences decides the outcome; on success the preferences are recomputed exactly when the answers were modified, and the flag is cleared |
| RecommendationService.FindUser | src/backend/services/recommendationService.ts:11-14 | the user with that id, or none exactly when no user has it |
| RecommendationService.PreferredStyleLines | src/backend/services/recommendationService.ts:18 | the style line of each preference, in order; no profile gives no lines |
| RecommendationService.MatchingProducts | src/backend/services/recommendationService.ts:19 | style-line names never cast to document ids: an empty list matches nothing, any other list fails the query |
| RecommendationService.PeerUsers | src/backend/services/recommendationService.ts:22-29 | exactly the users other than the target with a preference on one of the target's lines |
| RecommendationService.NoPreferredLinesNoPeers | src/backend/services/recommendationService.ts:22-29 | a user without preferred lines has no peers |
| RecommendationService.OrdersOfUsers | src/backend/services/recommendationService.ts:30 | exactly the orders placed by one of the peers |
| RecommendationService.SliceRanked | src/backend/services/recommendationService.ts:36 | an undefined ranking makes `.slice` fail with a TypeError; a list is cut with the JavaScript slice |
| RecommendationService.GetPersonalizedRecommendations | src/backend/services/recommendationService.ts:9-40 | every failure of the try block, the 404 included, becomes the 500 error; success passes through |
| RecommendationService.PersonalizedAlwaysFails | src/backend/services/recommendationService.ts:9-40 | as written every call ends in the 500 error; an unknown user first raises the 404 |
| RecommendationService.SimilarCandidates | src/backend/services/recommendationService.ts:54-59 | exactly the products matching the similar-product query, never more than the catalogue |
| RecommendationService.CandidatesAreSimilar | src/backend/services/recommendationService.ts:54-59 | candidates exclude the source, share its style line and a colour, and are priced within the inclusive band of 80 % to 120 %; no colours give no candidates |
| RecommendationService.GetSimilarProducts | src/backend/services/recommendationService.ts:42-69 | every failure of the try block becomes the 500 error |
| RecommendationService.SimilarAlwaysFails | src/backend/services/recommendationService.ts:42-69 | as written every call ends in the 500 error; an unknown product first raises the 404 |
| RecommendationService.LineProductsMembers | src/backend/services/recommendationService.ts:75 | the unwound lines name exactly the products that some order line names |
| RecommendationService.LineProductsIgnoreQuantity | src/backend/services/recommendationService.ts:75-77 | quantities play no part in the unwound lines |
| RecommendationService.PopularProductIdsShape | src/backend/services/recommendationService.ts:74-78 | one group per product ordered, counting its order lines (at least one), sorted by descending count |
| RecommendationService.PopularQuery | src/backend/services/recommendationService.ts:80-88 | exactly the catalogue products with a popularity group, restricted to the style line when one is given |
| RecommendationService.PopularProductsShape | src/backend/services/recommendationService.ts:71-98 | the undefined score keeps catalogue order; at most `limit` products for limit >= 0, each ordered at least once and of the given style line |
| RecommendationService.PopularProducts | src/backend/services/recommendationService.ts:71-98 | never more products than the catalogue, and at most `limit` for limit >= 0 |
| RecommendationService.GetPopularProducts | src/backend/services/recommendationService.ts:90-94 | the in-place sort and the slice give exactly the specification's list |
| RecommendationService.UpdateUserPreferences | src/backend/services/recommendationService.ts:100-122 | fails with the 500 error exactly when the user or profile is missing; otherwise saves the profile with the stub results, recomputing when the answers were modified |
| SharedContexts.ToggleTheme | src/shared/contexts/index.ts:84-86 | light becomes dark and dark becomes light |
| SharedContexts.ToggleThemeInvolution | src/shared/contexts/index.ts:84-86 | toggling twice restores the theme |
| SharedContexts.AddToCart | src/shared/contexts/index.ts:119-129 | adding a product the cart holds keeps the number of lines; adding a new one adds exactly one line |
| SharedContexts.AddExisting | src/shared/contexts/index.ts:120-125 | adding a product already in the cart adds the quantity to its line and changes nothing else |
| SharedContexts.AddNew | src/shared/contexts/index.ts:127 | adding a new product appends one line with its id, the quantity and its base price |
| SharedContexts.AddKeepsUnique | src/shared/contexts/index.ts:121-127 | product ids unique before an add are unique after |
| SharedContexts.RemoveFromCart | src/shared/contexts/index.ts:131-133 | removal never adds lines (RemoveMembers states which lines stay) |
| SharedContexts.AddToCartTotals | src/shared/contexts/index.ts:119-148 | with unique ids an add raises the item total by the quantity, and the price total by the quantity times the price of the product's line: the stored line price when the cart holds the product, the base price when the line is new |
| SharedContexts.RemoveMembers | src/shared/contexts/index.ts:131-133 | no line of the product is left, every other line stays, and no line is invented |
| SharedContexts.RemoveConcat | src/shared/contexts/index.ts:132 | removal distributes over concatenation, so the kept lines keep their order |
| SharedContexts.RemoveAbsent | src/shared/contexts/index.ts:132 | removing a product the cart does not hold changes nothing |
| SharedContexts.UpdateQuantity | src/shared/contexts/index.ts:135-141 | the product's lines take max(0, q), every other line is kept, and no line is removed |
| SharedContexts.UpdateQuantityIdempotent | src/shared/contexts/index.ts:135-141 | setting a quantity twice is setting it once; unique ids stay unique |
| SharedContexts.ClearCart | src/shared/contexts/index.ts:143-145 | the cart becomes empty |
| SharedContexts.TotalsConcat | src/shared/contexts/index.ts:147-148 | both totals are 0 for an empty cart and split over concatenation |
| SharedContexts.TotalsAfterAddQuantity | src/shared/contexts/index.ts:147-148 | adding to one line changes the totals by exactly that line's share |
| SharedContexts.TotalItemsNonNegative | src/shared/contexts/index.ts:147 | with no negative quantity the item total is at least 0, and 0 exactly when every quantity is 0 |
| SharedContexts.AddExistingTotals | src/shared/contexts/index.ts:120-125 | adding a product held at line k raises the item total by the quantity and the price total by that line's price times the quantity |
| SharedContexts.AddNewTotals | src/shared/contexts/index.ts:127 | adding a new product raises the item total by the quantity and the price total by its base price times the quantity |
| SliceLists.FirstIndex | src/mobile/redux/slices/cartSlice.ts:101 | `findIndex`: the first position with the key, or none exactly when no element has it |
| SliceLists.Find | src/mobile/redux/slices/designSlice.ts:140-141 | `find`: the first element with the key, or none exactly when no element has it |
| SliceLists.ReplaceFirst | src/mobile/redux/slices/cartSlice.ts:99-105 | the first element with the new value's key is replaced and every other position is kept; no match changes nothing |
| SliceLists.FindAfterReplace | src/mobile/redux/slices/designSlice.ts:95-102 | after a replacement that matched, finding the key yields the new value |
| SliceLists.Upsert | src/mobile/redux/slices/productSlice.ts:73-81 | replaces the first element with the key, or appends when there is none |
| SliceLists.UpsertShape | src/mobile/redux/slices/productSlice.ts:75-81 | the upsert grows the list by at most one, keeps other keys in place, preserves unique keys, and then finds the new value |
| SliceLists.RemoveKey | src/mobile/redux/slices/designSlice.ts:113 | `filter(x => key(x) !== k)`: never longer, and no element with the key is left |
| SliceLists.RemoveKeyMembers | src/frontend/redux/slices/designSlice.ts:102 | exactly the elements with another key are kept |
| SliceLists.RemoveKeyConcat | src/frontend/redux/slices/designSlice.ts:102 | removal distributes over concatenation, so order is kept |
| SliceLists.RemoveAbsentKey | src/frontend/redux/slices/designSlice.ts:102 | removing an absent key changes nothing |
| SliceLists.RemoveEveryKey | src/mobile/redux/slices/designSlice.ts:113 | a list whose every element has the key becomes empty |
| MobileCartSlice.CartSlice.constructor | src/mobile/redux/slices/cartSlice.ts:7-11 | an empty cart, not loading, no error |
| MobileCartSlice.CartSlice.Pending | src/mobile/redux/slices/cartSlice.ts:71-74 | loading set and error cleared; items unchanged |
| MobileCartSlice.CartSlice.Rejected | src/mobile/redux/slices/cartSlice.ts:79-82 | loading cleared and the payload becomes the error; items unchanged |
| MobileCartSlice.CartSlice.AddFulfilled | src/mobile/redux/slices/cartSlice.ts:75-78 | the payload is appended as a new line, with no merging |
| MobileCartSlice.CartSlice.RemoveFulfilledAsWritten | src/mobile/redux/slices/cartSlice.ts:87-90 | as written the lines are filtered against the undefined payload |
| MobileCartSlice.CartSlice.RemoveFulfilled | src/mobile/redux/slices/cartSlice.ts:87-90 | the lines whose id is the removed id are dropped |
| MobileCartSlice.CartSlice.UpdateFulfilled | src/mobile/redux/slices/cartSlice.ts:99-105 | the first line with the payload's id becomes the payload; no match changes nothing |
| MobileCartSlice.CartSlice.ClearFulfilled | src/mobile/redux/slices/cartSlice.ts:114-117 | the items become empty |
| MobileCartSlice.RemovalAsWrittenKeepsIdentified | src/mobile/redux/slices/cartSlice.ts:27-37 | the removal as written keeps every line that has an id, so the removed line stays |
| MobileCartSlice.RemovalAsWrittenCounterexample | src/mobile/redux/slices/cartSlice.ts:87-90 | a one-line cart is unchanged by the removal as written but emptied by the corrected removal |
| MobileCartSlice.RemovalDropsOnlyThatId | src/mobile/redux/slices/cartSlice.ts:87-90 | the corrected removal drops every line of that id and keeps every other line, in order |
| MobileCartSlice.SelectorsConcat | src/mobile/redux/slices/cartSlice.ts:130-133 | the cart total (sum of quantity times unit price) and the item count (sum of quantities) split over concatenation |
| MobileCartSlice.CartTotal | src/mobile/redux/slices/cartSlice.ts:130-131 | the sum of quantity times unit price, from the left (SelectorsConcat states how it splits) |
| MobileCartSlice.CartItemCount | src/mobile/redux/slices/cartSlice.ts:132-133 | the sum of the quantities, from the left (SelectorsConcat states how it splits) |
| MobileCartSlice.SelectorsAfterAdd | src/mobile/redux/slices/cartSlice.ts:75-78 | an added line raises the count by its quantity and the total by its line total |
| MobileCartSlice.SelectorsAfterUpdate | src/mobile/redux/slices/cartSlice.ts:99-105 | an update replaces one line's share of both selectors with the payload's share |
| MobileDesignSlice.DesignSlice.constructor | src/mobile/redux/slices/designSlice.ts:13-18 | no designs, nothing current, not loading, no error |
| MobileDesignSlice.DesignSlice.SetCurrentDesign | src/mobile/redux/slices/designSlice.ts:72-74 | only `currentDesign` changes |
| MobileDesignSlice.DesignSlice.Pending | src/mobile/redux/slices/designSlice.ts:78-81 | loading set and error cleared; designs unchanged |
| MobileDesignSlice.DesignSlice.Rejected | src/mobile/redux/slices/designSlice.ts:87-90 | loading cleared and the payload becomes the error; designs unchanged |
| MobileDesignSlice.DesignSlice.CreateFulfilled | src/mobile/redux/slices/designSlice.ts:82-86 | the payload is appended and becomes current |
| MobileDesignSlice.DesignSlice.UpdateFulfilled | src/mobile/redux/slices/designSlice.ts:95-102 | the first design with the payload's id is replaced, and the payload becomes current even when nothing matched |
| MobileDesignSlice.DesignSlice.DeleteFulfilled | src/mobile/redux/slices/designSlice.ts:111-117 | every design with that id is removed; the current design is cleared only when it has that id |
| MobileDesignSlice.DesignSlice.FetchFulfilled | src/mobile/redux/slices/designSlice.ts:126-129 | the fetched list replaces the designs |
| MobileDesignSlice.DesignById | src/mobile/redux/slices/designSlice.ts:140-141 | the first design with that id, or none exactly when no design has it |
| MobileDesignSlice.SelectAfterUpdateAndDelete | src/mobile/redux/slices/designSlice.ts:95-117 | after a matching update the selector finds the payload; after a delete it finds nothing |
| MobileDesignSlice.SelectAfterCreate | src/mobile/redux/slices/designSlice.ts:82-86 | after creating a design with a new id the selector finds it |
| WebDesignSlice.DesignSlice.constructor | src/frontend/redux/slices/designSlice.ts:13-18 | no designs, nothing current, not loading, no error |
| WebDesignSlice.DesignSlice.SetCurrentDesign | src/frontend/redux/slices/designSlice.ts:71-73 | only `currentDesign` changes |
| WebDesignSlice.DesignSlice.ClearCurrentDesign | src/frontend/redux/slices/designSlice.ts:74-76 | only `currentDesign` changes, to none |
| WebDesignSlice.DesignSlice.FetchPending | src/frontend/redux/slices/designSlice.ts:80-83 | loading set and error cleared |
| WebDesignSlice.DesignSlice.FetchFulfilled | src/frontend/redux/slices/designSlice.ts:84-87 | loading cleared and the list replaced; the error is kept |
| WebDesignSlice.DesignSlice.FetchRejected | src/frontend/redux/slices/designSlice.ts:88-91 | loading cleared and the payload becomes the error |
| WebDesignSlice.DesignSlice.CreateFulfilled | src/frontend/redux/slices/designSlice.ts:92-94 | the payload is appended; loading, error and current design are untouched |
| WebDesignSlice.DesignSlice.UpdateFulfilled | src/frontend/redux/slices/designSlice.ts:95-100 | the first design with the payload's id is replaced; nothing else changes |
| WebDesignSlice.DesignSlice.DeleteFulfilled | src/frontend/redux/slices/designSlice.ts:101-103 | every design whose id is the thunk argument is removed |
| WebDesignSlice.UpdateAndDeleteEffect | src/frontend/redux/slices/designSlice.ts:95-103 | an update with no match leaves the list alone; a delete keeps every other design; deleting twice is deleting once |
| MobileProductSlice.ProductSlice.constructor | src/mobile/redux/slices/productSlice.ts:14-19 | no products, not loading, no error, empty filters |
| MobileProductSlice.ProductSlice.SetFilters | src/mobile/redux/slices/productSlice.ts:51-53 | the filters are replaced wholesale and nothing else changes |
| MobileProductSlice.ProductSlice.Pending | src/mobile/redux/slices/productSlice.ts:57-60 | loading set and error cleared; products unchanged |
| MobileProductSlice.ProductSlice.Rejected | src/mobile/redux/slices/productSlice.ts:65-68 | loading cleared and the payload becomes the error; products unchanged |
| MobileProductSlice.ProductSlice.FetchAllFulfilled | src/mobile/redux/slices/productSlice.ts:61-64 | the products are replaced and loading cleared |
| MobileProductSlice.ProductSlice.FetchByIdFulfilled | src/mobile/redux/slices/productSlice.ts:73-81 | the payload is upserted by id |
| MobileProductSlice.ProductById | src/mobile/redux/slices/productSlice.ts:97-98 | the first product with that id, or none exactly when no product has it |
| MobileProductSlice.FilteredProducts | src/mobile/redux/slices/productSlice.ts:99-103 | every product, whatever the filters |
| MobileProductSlice.FetchByIdEffect | src/mobile/redux/slices/productSlice.ts:73-98 | after the upsert the selector finds the payload, the list grows by at most one, and unique ids stay unique |
| WebProductSlice.OrFallback | src/frontend/redux/slices/productSlice.ts:52 | `message \|\| fallback`: a missing or empty message gives the fallback |
| WebProductSlice.ProductSlice.constructor | src/frontend/redux/slices/productSlice.ts:12-17 | no products, nothing selected, not loading, no error |
| WebProductSlice.ProductSlice.SetSelectedProduct | src/frontend/redux/slices/productSlice.ts:33-35 | only the selection changes |
| WebProductSlice.ProductSlice.ClearSelectedProduct | src/frontend/redux/slices/productSlice.ts:36-38 | only the selection changes, to none |
| WebProductSlice.ProductSlice.Pending | src/frontend/redux/slices/productSlice.ts:42-45 | loading set and error cleared |
| WebProductSlice.ProductSlice.FetchAllFulfilled | src/frontend/redux/slices/productSlice.ts:46-49 | the products are replaced and loading cleared |
| WebProductSlice.ProductSlice.FetchAllRejected | src/frontend/redux/slices/productSlice.ts:50-53 | loading cleared; the thrown message or the fixed fallback becomes the error |
| WebProductSlice.ProductSlice.FetchByIdFulfilled | src/frontend/redux/slices/productSlice.ts:58-61 | the product becomes the selection; the list is untouched |
| WebProductSlice.ProductSlice.FetchByIdRejected | src/frontend/redux/slices/productSlice.ts:62-65 | loading cleared; the thrown message or the fixed fallback becomes the error |
| MobileUserSlice.UserSlice.constructor | src/mobile/redux/slices/userSlice.ts:7-12 | signed out, no error, not loading, consistent |
| MobileUserSlice.UserSlice.AuthPending | src/mobile/redux/slices/userSlice.ts:83-86 | loading set and error cleared; user and flag unchanged |
| MobileUserSlice.UserSlice.AuthFulfilled | src/mobile/redux/slices/userSlice.ts:87-91 | the payload becomes the user, authenticated, loading cleared; consistent |
| MobileUserSlice.UserSlice.AuthRejected | src/mobile/redux/slices/userSlice.ts:92-95 | loading cleared and the payload becomes the error; user and flag unchanged |
| MobileUserSlice.UserSlice.LogoutFulfilled | src/mobile/redux/slices/userSlice.ts:109-112 | signed out and consistent; loading and error kept |
| MobileUserSlice.UserSlice.UpdateProfileFulfilled | src/mobile/redux/slices/userSlice.ts:113-115 | the payload replaces the user and the flag is untouched, so the state is consistent exactly when it was authenticated |
| MobileUserSlice.UserSlice.UpdateStyleProfileFulfilled | src/mobile/redux/slices/userSlice.ts:116-120 | a present user's style profile is replaced; with no user nothing changes |
| MobileUserSlice.WithStyleProfile | src/mobile/redux/slices/userSlice.ts:116-120 | only the profile of a present user changes; its other fields are kept |
| MobileUserSlice.SelectStyleProfile | src/mobile/redux/slices/userSlice.ts:133 | the user's style profile, none without a user |
| MobileUserSlice.StyleProfileRoundTrip | src/mobile/redux/slices/userSlice.ts:116-133 | selecting after an update with a user present yields that profile; updating twice is updating once |
| OrderModel.ParseStatus | src/backend/models/Order.ts:73-77 | a status is recognised exactly when it is one of the five listed values, and it prints back to the same text |
| OrderModel.ParseStatusName | src/backend/models/Order.ts:75 | every status prints to a listed value that parses back to it |
| OrderModel.NewOrder | src/backend/models/Order.ts:73-95 | a new order takes status and payment status `pending` and keeps every given field |
| OrderModel.CalculateTotalAmount | src/backend/models/Order.ts:99-101 | the total is defined exactly when every line has a price (otherwise NaN) |
| OrderModel.TotalOfNoItems | src/backend/models/Order.ts:100 | no items total 0 |
| OrderModel.TotalAppend | src/backend/models/Order.ts:100 | appending a line adds its price times its quantity |
| OrderModel.TotalConcat | src/backend/models/Order.ts:100 | the total splits over concatenation |
| OrderModel.TotalNonNegative | src/backend/models/Order.ts:52-61 | with quantity >= 1 and price >= 0 on each line the total is at least 0 |
| OrderModel.UpdateOrderStatus | src/backend/models/Order.ts:103-109 | an unlisted status fails without change; a listed one is stored if the document validates |
| OrderModel.AnyTransitionAllowed | src/backend/models/Order.ts:104-108 | any listed status may replace any other on a valid order |
| ProductModel.NewDraft | src/backend/models/Product.ts:19-62 | `isCustomizable` defaults to false and absent arrays to empty |
| ProductModel.Merge | src/backend/services/productService.ts:50 | every supplied path overwrites (the name trimmed), every other path is kept |
| ProductModel.Validate | src/backend/models/Product.ts:19-62 | succeeds exactly when the required paths are present and the bounds hold; the result satisfies the schema and keeps the draft's values |
| ProductModel.RevalidateStored | src/backend/models/Product.ts:19-62 | a valid stored document validates again unchanged |
| ProductModel.MergeNothing | src/backend/services/productService.ts:50 | an update supplying nothing leaves the document as it was |
| ProductModel.CreatedDefaults | src/backend/models/Product.ts:25-59 | a created product has `isCustomizable` false, base price >= 0 and stock >= 0 |
| ProductModel.DiscountIsProportional | src/backend/models/Product.ts:64-67 | the discounted price is base price times (1 - p/100) |
| ProductModel.CalculateDiscountedPrice | src/backend/models/Product.ts:64-67 | a 0 % discount keeps the base price and a 100 % discount gives 0 |
| ProductModel.DiscountEndpoints | src/backend/models/Product.ts:65-66 | 0 % keeps the base price; 100 % gives 0 |
| ProductModel.DiscountBounded | src/backend/models/Product.ts:64-67 | for p in [0, 100] and base price >= 0 the result lies in [0, base price] |
| ProductModel.DiscountStrictlyDecreasing | src/backend/models/Product.ts:64-67 | with no clamping, for a positive base price a larger percentage always gives a lower price |
| ProductModel.DiscountNegativeAbove100 | src/backend/models/Product.ts:64-67 | above 100 % a positive base price gives a negative price |
| BackendStore.FindProduct | src/backend/services/productService.ts:30-35 | the position of a product with that id, or none exactly when no product has it |
| BackendStore.FindOrder | src/backend/services/orderService.ts:56-59 | the position of an order with that id, or none exactly when no order has it |
| BackendStore.FindProductUnique | src/backend/services/productService.ts:30 | with unique ids the product found is the only one with that id |
| BackendStore.Page | src/backend/services/productService.ts:79 | a negative skip is rejected; otherwise the documents after the skip, at most the limit (0 = no limit, negative = at most its magnitude) |
| BackendStore.PageBounds | src/backend/services/orderService.ts:92-93 | a non-zero limit caps the page at its magnitude, and the page is the front of what follows the skip |
| BackendStore.Store.constructor | src/backend/services/productService.ts:1-4 | the given users and style lines, no products or orders, a valid store |
| ProductService.CreateProduct | src/backend/services/productService.ts:6-26 | 400 for a missing or empty name, a missing or zero price or no style line; 404 for an unknown style line; else the validated document is stored under a fresh id |
| ProductService.GetProductById | src/backend/services/productService.ts:28-39 | the product with that id, or the 404 exactly when there is none |
| ProductService.UpdateProduct | src/backend/services/productService.ts:41-57 | 404 for an unknown id; otherwise the merged document is validated and stored in place, and a failure changes nothing |
| ProductService.UpdateOverwritesExactlySupplied | src/backend/services/productService.ts:50 | the updated document keeps every unsupplied field and takes every supplied one |
| ProductService.DeleteProduct | src/backend/services/productService.ts:59-71 | succeeds exactly when the id exists and removes that document; the 404 changes nothing |
| ProductService.DeleteRemovesOnlyThatId | src/backend/services/productService.ts:68 | after a deletion no product has that id and every other product remains |
| ProductService.PageLimit | src/backend/services/productService.ts:75 | an absent or zero limit becomes 10; any other limit is kept |
| ProductService.ListPage | src/backend/services/productService.ts:73-86 | the total counts every match; the page fails exactly when the skip is negative |
| ProductService.GetProducts | src/backend/services/productService.ts:73-86 | fails exactly when the page gives a negative skip; otherwise the total counts every stored product |
| ProductService.PagingRules | src/backend/services/productService.ts:75-79 | at most the limit's magnitude per page (10 by default); without a page number the page is a prefix of the matches; every page is the run of consecutive matches that starts at position (p - 1) times the limit for page p >= 1 (position 0 for no page or page 0) |
| ProductService.GetProductsByStyleLine | src/backend/services/productService.ts:88-107 | 404 for an unknown style line; otherwise one page of exactly that line's products, in collection order |
| ProductService.StyleLineListing | src/backend/services/productService.ts:96-104 | a successful listing counts every product of the line and lists only stored products of that line |
| ProductService.Matching | src/backend/services/productService.ts:109-130 | exactly the products matching the built query |
| ProductService.SearchRespectsPriceBounds | src/backend/services/productService.ts:115-120 | every product found is in the catalogue and within each price bound that is given and not 0 |
| ProductService.ZeroBoundsIgnored | src/backend/services/productService.ts:115-120 | a zero bound filters exactly as an absent one |
| ProductService.SearchProducts | src/backend/services/productService.ts:109-134 | fails exactly when the page gives a negative skip; otherwise the total counts every product matching the query |
| ProductService.StockUpdate | src/backend/services/productService.ts:136-157 | 404 for an unknown id; 400 when the new stock would be negative; otherwise only that product's stock moves by the change |
| ProductService.StockUpdateEffect | src/backend/services/productService.ts:145-153 | a successful update changes only that product's stock, by exactly the change, and keeps ids unique and documents valid |
| ProductService.UpdateProductStock | src/backend/services/productService.ts:136-157 | the store changes exactly as the specification says, and nothing is saved on failure |
| OrderService.CheckLine | src/backend/services/orderService.ts:24-31 | a line passes exactly when its product exists with stock at least the quantity; a missing product gives the 404 |
| OrderService.CheckItems | src/backend/services/orderService.ts:22-32 | the check succeeds exactly when every line passes |
| OrderService.CheckFailurePersists | src/backend/services/orderService.ts:23-30 | once a prefix of the lines fails, the whole check fails with that error |
| OrderService.TotalIgnoresClientPrices | src/backend/services/orderService.ts:31 | the total uses catalogue prices: client product and price fields do not matter |
| OrderService.CheckedTotalIsOrderTotal | src/backend/services/orderService.ts:22-37 | when client prices are the catalogue prices, the checked total is the order's own computed total |
| OrderService.ApplyStockChanges | src/backend/services/orderService.ts:45-47 | the run keeps the catalogue's size and ids |
| OrderService.ApplyFailurePersists | src/backend/services/orderService.ts:45-47 | the first failing update ends the run and earlier updates stay applied |
| OrderService.NetChangeApplied | src/backend/services/orderService.ts:45-47 | a completed run moves each product's stock by the sum of its deltas and changes nothing else |
| OrderService.DecrementsNetChange | src/backend/services/orderService.ts:46 | the decrements take from each product the total quantity ordered of it |
| OrderService.CheckedDistinctLinesDecrement | src/backend/services/orderService.ts:23-47 | when no two lines name the same product, lines that pass the check also pass the decrements |
| OrderService.DecrementsApplied | src/backend/services/orderService.ts:45-47 | successful decrements take from each product exactly its ordered quantity |
| OrderService.CreateOrderSpec | src/backend/services/orderService.ts:9-53 | 400 for a missing user id or empty items, 404 for an unknown user, check failures before any stock change; a created order is pending with the checked total |
| OrderService.CreatedOrderDecrementsStock | src/backend/services/orderService.ts:44-47 | a created order takes out of each product's stock the total quantity that its lines order of that product, and leaves every other field alone |
| OrderService.MissingSchemaFieldsFailAfterDecrement | src/backend/services/orderService.ts:45-50 | lines lacking the schema's product or price make the save fail after the stock was decremented |
| OrderService.DuplicateLinesFailAfterDecrement | src/backend/services/orderService.ts:23-47 | two lines for the one unit in stock both pass the check; the second decrement fails and the first unit is gone |
| OrderService.NegativeQuantityRaisesStockThenFails | src/backend/services/orderService.ts:28-50 | a negative quantity passes the check and raises the stock, then the save rejects the order |
| OrderService.CheckAvailability | src/backend/services/orderService.ts:22-32 | the checking loop gives exactly the specification's result |
| OrderService.ApplyChanges | src/backend/services/orderService.ts:45-47 | the update loop leaves exactly the specification's products and error, and nothing else changes |
| OrderService.CreateOrder | src/backend/services/orderService.ts:9-53 | the store changes exactly as the specification says; the new order is appended only on success |
| OrderService.SaveNewOrder | src/backend/services/orderService.ts:49-50 | the new order is appended under the next id, the store stays valid, and nothing else changes |
| OrderService.GetOrderById | src/backend/services/orderService.ts:55-61 | the order with that id, or the 404 exactly when there is none |
| OrderService.UpdateOrderStatus | src/backend/services/orderService.ts:63-79 | 404, then 400 for an unlisted status, else the status is replaced; failures change nothing |
| OrderService.OrdersOf | src/backend/services/orderService.ts:90 | exactly the orders of that user |
| OrderService.UserOrdersPage | src/backend/services/orderService.ts:87-93 | fails exactly when (page - 1) times the limit is negative; a page never holds more orders than the user has |
| OrderService.GetUserOrders | src/backend/services/orderService.ts:81-98 | 404 for an unknown user; the total counts all of the user's orders |
| OrderService.PageOfSorted | src/backend/services/orderService.ts:91-93 | a page cut from a newest-first list is newest first and holds only its elements |
| OrderService.UserOrdersPageShape | src/backend/services/orderService.ts:87-93 | a page holds only that user's orders, newest first, at most the limit's magnitude (10 by default); page 0 gives a negative skip, which fails |
| OrderService.Restocks | src/backend/services/orderService.ts:113-115 | one restock of +quantity per stored line, for its product |
| OrderService.CancelOrder | src/backend/services/orderService.ts:100-120 | 404; 400 unless pending or processing; otherwise every line is restocked and the order saved as cancelled; a failed restock keeps earlier ones and the old status |
| OrderService.RestockNeverNegative | src/backend/services/orderService.ts:113-115 | restocking valid lines never makes a stock negative, and a restock fails only when some line's product has been deleted |
| OrderService.RestocksNetChange | src/backend/services/orderService.ts:113-115 | the restocks add to each product exactly the total quantity the lines hold of it |
| OrderService.RestocksReturnQuantities | src/backend/services/orderService.ts:113-115 | a completed restock gives each product back the total quantity the order's lines hold of it and changes nothing else |
| OrderService.ProcessPayment | src/backend/services/orderService.ts:122-147 | 404; 400 for a falsy method or amount; otherwise paid and processing from any status, with the id TRANS- followed by the clock reading |
| OrderService.TransactionIdsDistinct | src/backend/services/orderService.ts:137 | transaction ids differ exactly when the clock readings differ |
| SharedUtils.TruncateText | src/shared/utils/index.ts:59-62 | text that fits is returned; otherwise for maxLength >= 3 the first maxLength - 3 characters plus "..." (length maxLength), and below 3 the slice counts back from the end |
| SharedUtils.TruncateBounded | src/shared/utils/index.ts:59-62 | for maxLength >= 3 the result never exceeds maxLength, and truncating again changes nothing |
| SharedUtils.TruncateShortLimit | src/shared/utils/index.ts:61 | for maxLength < 3 a text that does not fit comes back longer than maxLength |
| SharedUtils.EmailShape | src/shared/utils/index.ts:13-16 | accepted exactly when there is no whitespace, exactly one '@' that is not first, and after it a '.' with a character on each side |
| SharedUtils.ValidateEmail | src/shared/utils/index.ts:13-16 | the pattern as a predicate: a run without spaces or '@', an '@', a non-empty run, a '.', a non-empty run (EmailShape states what it accepts) |
| SharedUtils.ImageFormatIgnoresCase | src/shared/utils/index.ts:55-57 | strings equal up to case are accepted alike, and accepted is equal up to case to one of jpg, jpeg, png, webp |
| SharedUtils.IsValidImageFormat | src/shared/utils/index.ts:55-57 | the lower-cased extension is one of the supported formats (ImageFormatIgnoresCase states what it accepts) |
| SharedUtils.ForwardedSpacing | src/shared/utils/index.ts:30-39 | the last call time is always that of the last forwarded call (0 before any); the first forwarded call is at least `wait` after 0 and forwarded calls are at least `wait` apart |
| SharedUtils.Throttle.constructor | src/shared/utils/index.ts:30-31 | no call yet and the last call time 0 |
| SharedUtils.Throttle.Invoke | src/shared/utils/index.ts:32-38 | a call is forwarded exactly when now - lastCall >= wait, and only then does lastCall become now |
| Formatters.TruncateText | src/shared/utils/formatters.ts:16-21 | text that fits is returned; otherwise for maxLength >= 3 the first maxLength - 3 characters plus "..." |
| Formatters.TruncateCopiesAgree | src/shared/utils/formatters.ts:16-21 | the two copies of `truncateText` agree on every input |
| Formatters.DigitsOnly | src/shared/utils/formatters.ts:24 | never longer than the input and made only of digits |
| Formatters.DigitsOnlyOfDigits | src/shared/utils/formatters.ts:24 | a string of digits keeps all of itself |
| Formatters.FormatPhoneNumber | src/shared/utils/formatters.ts:23-29 | ten digits give the 14-character "(ddd) ddd-dddd" with the digits in order; anything else is returned as given |
| Formatters.PhoneDigitsRoundTrip | src/shared/utils/formatters.ts:24-26 | stripping non-digits from the output gives back the input's digits |
| Formatters.PhoneFormatIdempotent | src/shared/utils/formatters.ts:23-29 | formatting a formatted number changes nothing |
| Formatters.CapitalizeFirstLetter | src/shared/utils/formatters.ts:31-34 | "" stays ""; otherwise the first character is upper-cased and the rest kept |
| Formatters.CapitalizeIdempotent | src/shared/utils/formatters.ts:31-34 | capitalising twice is capitalising once; a leading lower-case letter comes out upper-case |
| Validation.PasswordRule | src/frontend/utils/validation.ts:8-13 | accepted exactly when at least 12 characters with a lower-case and an upper-case letter, a digit and a listed special character, and no line break anywhere |
| Validation.ValidatePassword | src/frontend/utils/validation.ts:8-13 | the pattern as a predicate: at least 12 characters, each lookahead finding its class, no line terminator (PasswordRule states what it accepts) |
| Validation.UsernameTrimmed | src/frontend/utils/validation.ts:15-21 | an accepted username is 3 to 20 ASCII letters and digits, with nothing to trim |
| Validation.ValidateUsername | src/frontend/utils/validation.ts:15-21 | 3 to 20 characters, each an ASCII letter or digit |
| Validation.PhoneDigitCount | src/frontend/utils/validation.ts:23-27 | an accepted number holds 2 to 15 digits with no leading zero, and only its first character may be a non-digit |
| Validation.FormattedPhoneRejected | src/frontend/utils/validation.ts:25 | a number in the formatter's "(ddd) ddd-dddd" shape is rejected by the validator |
| Validation.ValidatePhoneNumber | src/frontend/utils/validation.ts:23-27 | an optional '+' followed by a national number (PhoneDigitCount states what it accepts) |
| Validation.DesignNamesAreProductNames | src/frontend/utils/validation.ts:29-48 | 1 to 50 characters for designs and 1 to 100 for products, so every accepted design name is an accepted product name, but a 51-character name is only a product name |
| Validation.ValidateProductName | src/frontend/utils/validation.ts:29-34 | 1 to 100 characters |
| Validation.ValidateDesignName | src/frontend/utils/validation.ts:43-48 | 1 to 50 characters |

## Left out

- **Network, storage and UI.** The network calls behind every thunk and the local-storage
  persistence of the cart and theme are not modelled. Each reducer case takes the payload it
  would receive. The rendering of every provider is not modelled either.
- **`AuthProvider` and the `use*` hooks.** `AuthProvider`'s API calls are commented out in the
  source, and the hooks are React plumbing.
- **Reducer cases the slices do not have.** Web design create, update and delete have no
  pending or rejected case, and mobile logout, profile update and style-profile update have none
  either. Such actions leave the state unchanged, so no method stands for them.
- **Custom designs on order lines.** The optional `customDesign` reference of an order line
  (src/backend/models/Order.ts:25 and 62-65) is not carried: no service operation reads or
  checks it, and the schema gives it no constraint beyond its type.
- **Optional fields of the slice types.** The mobile design's `designParameters` and the shared
  types' optional fields are not carried. The mobile product filters are a string-to-string map.
- **Undefined payload types.** The web design slice's `Design` type is not defined in the shared
  types, so the model gives it the fields the reducers read.
- **Character sets.** `toLowerCase`/`toUpperCase` are modelled on ASCII only, and lengths count
  characters, not UTF-16 code units. For `isValidImageFormat` the ASCII mapping is exact: the
  only non-ASCII characters that lower-case into ASCII are U+212A (to "k") and U+0130 (to "i"
  plus a combining dot), and neither can produce one of the four formats.
- **Numbers.** JavaScript numbers are `real` or `int`, with no floating-point rounding and no
  NaN except the total of a line without a price. The `toFixed(2)` in the utilities'
  `calculateDiscountedPrice` is not modelled.
- **Library helpers.** `formatCurrency`, `formatDate`, `debounce`, `deepClone`,
  `generateUniqueId`, `getComplementaryColors`, zod's `email()` check in `validateEmail`, and
  `validatePrice` are not modelled: they are thin wrappers over Intl, date libraries, timers,
  uuid, colour conversion and zod's own checks.
- **Database machinery.** Mongo queries become in-memory filters over sequences, in collection
  order, and ties in `sort({ createdAt: -1 })` keep collection order. A value that does not cast
  to a path's type is a `DatabaseError`, and `populate` is taken as already applied.
- **The `$regex` name search.** The search pattern is taken literally, as a case-insensitive
  substring.
- **Recommendation stubs.** `rankRecommendations`, `rankSimilarProducts`,
  `calculatePopularityScore`, `analyzeInteractionData` and `recalculatePreferenceScores` have
  empty bodies, and the model keeps their `undefined` result. No ranking or scoring is invented
  for them.
- **`enumerate(StyleLines)` in Python.** The encoder is modelled on the shared enumeration's six
  values. The Python module that defines `StyleLines` is not part of this model.
- **The other Python preprocessing functions.** They depend on pandas, scikit-learn and PIL.
- **Randomness.** `Math.random()` in `calculateStylePreferences` is a sequence of draws in
  [0, 1) given as a parameter.
- **Clocks.** `Date.now()` in `throttle`, `createOrder` and `processPayment` is a parameter.
- StyleHelpers.CalculateStyleMatch: the style categories are a parameter, because the
  `STYLE_CATEGORIES` constant that the helper imports is not exported by the constants module.
- RecommendationService.MatchingProducts: a non-empty list of preferred lines always makes the
  query fail, because no style-line name casts to a document id. The matching products are
  therefore never computed.
- RecommendationService.PeerUsers: the nested `styleProfile.preferences.styleLine` path is
  evaluated on the populated profile. Whether the database matches a referenced document this
  way is not modelled.
- RecommendationService.UpdateUserPreferences: the helpers it calls return `undefined`, and the
  model assigns an empty preference list in their place.
- OrderService.CreateOrder: the client's `productId` and `price` fields are kept apart from the
  schema's `product` and `price`. The schema keeps only the latter, so an order from a client
  that sends only `productId` fails validation on save.
- SharedUtils.Throttle.Invoke: the call to the wrapped function itself is not modelled. The
  method reports whether it was forwarded.

## Findings

| source | as written | input that shows it | evidently intended | confidence | as-written member | corrected member |
|---|---|---|---|---|---|---|
| src/mobile/redux/slices/cartSlice.ts:27-37 | the remove thunk resolves with no value, so the remove-fulfilled reducer filters the items against an `undefined` payload; every item that has an id remains | a cart holding one item with id "c1", then `removeFromCartAsync("c1")` succeeds: the cart still holds the item | drop the item whose id was passed to the thunk (`action.meta.arg`, or return the id from the thunk) | not executed | MobileCartSlice.CartSlice.RemoveFulfilledAsWritten | MobileCartSlice.CartSlice.RemoveFulfilled |
