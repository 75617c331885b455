# Travel planner demo — a Dafny model

This project models the logic of a small travel-planning web app. The app is a React client with a tiny Express server. The model covers:

- the search screen: case-insensitive matching over three catalogs (destinations, hotels, activities), projection to uniform results, aggregation in catalog order, a tab filter and the bounded recent-search list;
- the itinerary planner: its day plans, the add and remove handlers, activity suggestions and the day tabs;
- the packing checklist and the trip budget: list create, toggle, remove and filter, the packed percentage, totals and per-category totals;
- the server's `POST /api/travel-preferences` validation, with the three `GET` catalogs as sample fixtures;
- the phrase translator, the explore screen's likes and tabs, the shared travel context, the onboarding Continue guard, the router's active view, the safety and weather lookups, the theme hook and `formatDateRange`.

The model has one Dafny module per source file:

- `Search`, `Itinerary`, `Packing`, `Budget`, `Routes`, `Translator`, `Explore`, `TravelContext`, `Onboarding`, `AppRouter`, `Safety`, `Weather`, `Theme` and `DateRange` each model one source file.
- `Catalog` holds the record types and the server's literal catalogs.
- `Common` holds `Option`, `Filter` and `Map`, and the lemmas that pin down what `Filter` keeps: exactly the satisfying elements (`FilterMembers`), in their original order (`FilterSubsequence`), once per satisfying position (`FilterCount`).
- `Text` models the JavaScript string operations the screens use: ASCII `toLowerCase`/`toUpperCase`, `includes`, `trim` and the decimal rendering of numbers.

How the source's forms map to Dafny:

- State that a React component updates becomes a class whose fields its methods reassign, with `modifies` and the full new state in `ensures`.
- Pure expressions become functions with named results.
- Loops in the source become methods with loop invariants, each proved against a specification function: the search's `forEach`/`push`, the itinerary initialiser, the budget's `categoryTotals` reduce and the translator's table scan.

External inputs become parameters:

- The client's catalogs come from a data module that is not part of this model, so every operation takes the catalogs as a parameter.
- `Date.now()` is a `now` string, `Math.random()` is a nondeterministic choice, and `localStorage` and `matchMedia` are constructor inputs.
- Navigation is recorded as the target path.
- A timer is a queue of pending callbacks. Each callback holds the values its closure captured, and it fires as a separate step.

The recent-search list follows the code, not a "move to front" reading. A query already in the list leaves the list unchanged (`SearchScreen.tsx:127-128`). Committing Tokyo, Paris, Tokyo, Rome onto an empty list gives `["Rome", "Paris", "Tokyo"]` (`Search.CommitRecentScenario`), not `["Rome", "Tokyo", "Paris"]`.

## Model

| member | source | states |
|---|---|---|
| `Text.TrimEmptyIffBlank` | client/src/pages/SearchScreen.tsx:49 | `query.trim()` is empty exactly when the query is empty or all white space |
| `Text.ContainsIffOccurs` | client/src/pages/SearchScreen.tsx:61-64 | `includes` holds exactly when the needle occurs at some offset of the haystack |
| `Search.MatchingDestinations` | client/src/pages/SearchScreen.tsx:61-64 | the destinations whose name or country contains the lower-cased (untrimmed) query, case-insensitively, in catalog order and with their multiplicity: the result is the `Filter` of the catalog and a subsequence of it |
| `Search.MatchingHotels` | client/src/pages/SearchScreen.tsx:80-83 | the hotels whose name or location contains the query, case-insensitively, in catalog order: the `Filter` of the catalog and a subsequence of it |
| `Search.MatchingActivities` | client/src/pages/SearchScreen.tsx:100-103 | the activities whose name or location contains the query, case-insensitively, in catalog order: the `Filter` of the catalog and a subsequence of it |
| `Search.FromDestination` | client/src/pages/SearchScreen.tsx:66-77 | a destination result is tagged destination, its location is the country, and its only detail is the date range |
| `Search.FromHotel` | client/src/pages/SearchScreen.tsx:85-97 | a hotel result is tagged hotel, and its only details are rating and price = price per night |
| `Search.FromActivity` | client/src/pages/SearchScreen.tsx:105-116 | an activity result is tagged activity, and its only detail is the duration |
| `Search.PushAll` | client/src/pages/SearchScreen.tsx:66-77 | a `forEach`/`push` loop appends the projections of all items, in order, to the results so far |
| `Search.CollectResults` | client/src/pages/SearchScreen.tsx:58-116 | the timer body builds destination hits, then hotel hits, then activity hits |
| `Search.SearchAllSound` | client/src/pages/SearchScreen.tsx:58-116 | every result matches the query on its name or its location (the country, for a destination) |
| `Search.SearchAllComplete` | client/src/pages/SearchScreen.tsx:58-116 | every matching catalog record appears, projected, among the results |
| `Search.SearchAllGrouped` | client/src/pages/SearchScreen.tsx:58-116 | all destinations come before all hotels, which come before all activities; there are at most as many results as catalog records |
| `Search.HitsInCatalogOrder` | client/src/pages/SearchScreen.tsx:58-116 | each group of the aggregate is its projected catalog with the non-matching records skipped, so in catalog order |
| `Search.FilterByTab` | client/src/pages/SearchScreen.tsx:118-124 | tab `all` returns the aggregate unchanged; any other tab keeps exactly the results whose type equals it |
| `Search.TabSelectsOneCatalog` | client/src/pages/SearchScreen.tsx:118-124 | narrowing to one kind yields exactly that catalog's hits, in catalog order |
| `Search.UnknownTabIsEmpty` | client/src/pages/SearchScreen.tsx:119-121 | a tab naming no kind filters every result away |
| `Search.CommitRecent` | client/src/pages/SearchScreen.tsx:126-129 | a non-blank query not in the list is put before the first two old entries; otherwise the list is unchanged |
| `Search.CommitRecentBounded` | client/src/pages/SearchScreen.tsx:43-128 | starting from at most 3 entries, the list stays at most 3 long, and a non-blank query is in it after a commit |
| `Search.InitialRecentDistinct` | client/src/pages/SearchScreen.tsx:43 | the recent list starts without repeats |
| `Search.CommitRecentKeepsDistinct` | client/src/pages/SearchScreen.tsx:126-129 | the `includes` guard keeps a repeat-free list repeat-free |
| `Search.CommitRecentScenario` | client/src/pages/SearchScreen.tsx:127-128 | Tokyo, Paris, Tokyo, Rome yields Rome, Paris, Tokyo: a repeat is not moved to the front |
| `Search.ResultIcon` | client/src/pages/SearchScreen.tsx:158-169 | destination→blue Map, hotel→green MapPin, activity→amber Clock, any other string→grey MapPin |
| `Search.KindIconsDistinct` | client/src/pages/SearchScreen.tsx:158-169 | the three kinds get three different icons, none of them the grey fallback |
| `Search.SearchScreen.constructor` | client/src/pages/SearchScreen.tsx:40-45 | empty query, tab `all`, no results, the three initial recent searches, not searching |
| `Search.SearchScreen.SetQuery` | client/src/pages/SearchScreen.tsx:137-139 | only the query changes |
| `Search.SearchScreen.SetActiveTab` | client/src/pages/SearchScreen.tsx:41 | only the tab changes |
| `Search.SearchScreen.ClearSearch` | client/src/pages/SearchScreen.tsx:141-143 | the query becomes empty and nothing else changes |
| `Search.SearchScreen.RunSearch` | client/src/pages/SearchScreen.tsx:48-135 | a blank query empties the results without searching; otherwise the results are the tab-filtered aggregate and the query is committed to the recent list |
| `Search.ClearThenSearch` | client/src/pages/SearchScreen.tsx:141-143 | after clearing, the effect leaves no results and the recent list unchanged |
| `Catalog.SampleDestinationIdsDistinct` | server/routes.ts:9-59 | the six sample destinations have pairwise distinct ids |
| `Catalog.SampleHotelIdsDistinct` | server/routes.ts:63-125 | the six sample hotels have pairwise distinct ids |
| `Catalog.SampleActivityIdsDistinct` | server/routes.ts:129-182 | the three sample activities have pairwise distinct ids |
| `Itinerary.InitialItinerary` | client/src/components/ui/itinerary-planner.tsx:27-58 | `days` plans in date order, needing `days >= 2`: day 0 sensoji at 09:00 AM, day 1 tokyo-skytree at 11:00 AM, day 2 shibuya-crossing at 04:00 PM when there is a third day; all other days empty |
| `Itinerary.InitialIdsFollowScheme` | client/src/components/ui/itinerary-planner.tsx:43-55 | the pre-populated ids are those the add scheme would give |
| `Itinerary.ItemIdInjective` | client/src/components/ui/itinerary-planner.tsx:68 | `day{d+1}-item{n+1}` determines `d` and `n`, so ids of different days never collide |
| `Itinerary.AppendActivity` | client/src/components/ui/itinerary-planner.tsx:62-75 | the day keeps its items and gains exactly one at the end: id `day{dayIndex+1}-item{oldLen+1}`, time 12:00 PM |
| `Itinerary.RemoveItem` | client/src/components/ui/itinerary-planner.tsx:77-85 | exactly the items whose id differs stay, in their order (the `Filter` of the day, a subsequence of it); an absent id changes nothing |
| `Itinerary.RemoveUndoesAppend` | client/src/components/ui/itinerary-planner.tsx:62-85 | removing a fresh item undoes the add, provided its derived id was not already in the day |
| `Itinerary.IdCollisionExample` | client/src/components/ui/itinerary-planner.tsx:62-85 | after a removal, an add can reuse a remaining item's id, and a remove then drops both items |
| `Itinerary.Available` | client/src/components/ui/itinerary-planner.tsx:196-202 | exactly the catalog activities no item of the day refers to, in catalog order (the `Filter` of the catalog, a subsequence of it) |
| `Itinerary.SuggestionGrid` | client/src/components/ui/itinerary-planner.tsx:216-221 | the first `min(4, available)` available activities, and a subsequence of the catalog, so in catalog order |
| `Itinerary.SuggestionGridUnplanned` | client/src/components/ui/itinerary-planner.tsx:216-221 | every suggestion card shows a catalog activity the day does not plan |
| `Itinerary.FindActivity` | client/src/components/ui/itinerary-planner.tsx:96-98 | the first activity with the id, or none exactly when no activity has it |
| `Itinerary.RenderedItems` | client/src/components/ui/itinerary-planner.tsx:146-148 | an item is drawn exactly when its activity id is in the catalog, the rows in the day's order (the `Filter` of the day, a subsequence of it) |
| `Itinerary.InitialItemsRender` | client/src/components/ui/itinerary-planner.tsx:146-148 | the three pre-populated items all resolve against the sample activities |
| `Itinerary.TabDays` | client/src/components/ui/itinerary-planner.tsx:100-103 | `days` tabs valued `"0"`…`"days-1"` and captioned `Day 1`…`Day days` |
| `Itinerary.TabDaysDistinct` | client/src/components/ui/itinerary-planner.tsx:100-103 | tab values (the React keys) and captions are pairwise distinct |
| `Itinerary.ItineraryPlanner.constructor` | client/src/components/ui/itinerary-planner.tsx:27-60 | the initial itinerary, with `activeDay` at `"0"` |
| `Itinerary.ItineraryPlanner.SetActiveDay` | client/src/components/ui/itinerary-planner.tsx:110 | only the active day changes |
| `Itinerary.ItineraryPlanner.AddActivity` | client/src/components/ui/itinerary-planner.tsx:62-75 | only day `dayIndex` changes, by one appended item; the number of days is kept |
| `Itinerary.ItineraryPlanner.RemoveActivity` | client/src/components/ui/itinerary-planner.tsx:77-85 | only day `dayIndex` changes, losing every item with the id |
| `Itinerary.ItineraryPlanner.SuggestActivity` | client/src/components/ui/itinerary-planner.tsx:194-210 | one available activity is appended, or nothing changes when none is available |
| `Packing.CheckedCount` | client/src/components/ui/packing-checklist.tsx:65 | the number of positions holding a checked item, hence at most the list length |
| `Packing.InitialItemsPacked` | client/src/components/ui/packing-checklist.tsx:20-31 | ten initial items, of which exactly item1 and item2 are packed |
| `Packing.Toggled` | client/src/components/ui/packing-checklist.tsx:51-55 | `checked` flips on exactly the items with the id; every other field and item is kept, in order |
| `Packing.ToggleTwice` | client/src/components/ui/packing-checklist.tsx:51-55 | toggling twice restores the list |
| `Packing.ToggleAbsent` | client/src/components/ui/packing-checklist.tsx:51-55 | toggling an absent id changes nothing |
| `Packing.Removed` | client/src/components/ui/packing-checklist.tsx:57-59 | exactly the items whose id differs stay, in order (the `Filter` of the list, a subsequence of it); an absent id changes nothing |
| `Packing.Filtered` | client/src/components/ui/packing-checklist.tsx:61-63 | `all` yields every item; a category yields exactly its items, in list order (the `Filter` of the list); either way a subsequence of the list |
| `Packing.Progress` | client/src/components/ui/packing-checklist.tsx:65 | for a non-empty list, the integer nearest to 100·packed/length (halves up), in 0..100 |
| `Packing.ProgressEnds` | client/src/components/ui/packing-checklist.tsx:65 | all packed shows 100, none packed shows 0 |
| `Packing.InitialProgress` | client/src/components/ui/packing-checklist.tsx:65 | the initial list shows 20 |
| `Packing.Compact` | client/src/components/ui/packing-checklist.tsx:86-110 | the first `min(5, len)` items, with a "+(len−5) more" notice exactly when `len > 5` |
| `Packing.PackingChecklist.constructor` | client/src/components/ui/packing-checklist.tsx:20-35 | the initial items, empty name, category misc, filter `all` |
| `Packing.PackingChecklist.SetNewItemName` | client/src/components/ui/packing-checklist.tsx:33 | only the name box changes |
| `Packing.PackingChecklist.SetNewItemCategory` | client/src/components/ui/packing-checklist.tsx:34 | only the chosen category changes |
| `Packing.PackingChecklist.SetActiveCategory` | client/src/components/ui/packing-checklist.tsx:35 | only the filter changes |
| `Packing.PackingChecklist.AddItem` | client/src/components/ui/packing-checklist.tsx:37-49 | with a name, one unpacked item of the chosen category is appended and the name is cleared; with no name, nothing changes |
| `Packing.PackingChecklist.ToggleItem` | client/src/components/ui/packing-checklist.tsx:51-55 | the items become their toggled list |
| `Packing.PackingChecklist.RemoveItem` | client/src/components/ui/packing-checklist.tsx:57-59 | the items become those whose id differs |
| `Budget.TotalAppend` | client/src/components/ui/trip-budget.tsx:35 | the total of a concatenation is the sum of the totals |
| `Budget.Remaining` | client/src/components/ui/trip-budget.tsx:36 | remaining plus total is the budget |
| `Budget.RemainingAfterAdd` | client/src/components/ui/trip-budget.tsx:35-36 | adding an expense lowers what is left by exactly its amount |
| `Budget.CategoryTotalsSum` | client/src/components/ui/trip-budget.tsx:39-45 | the five category totals add up to the total of all expenses |
| `Budget.CategoryTotals` | client/src/components/ui/trip-budget.tsx:39-45 | the reduce loop yields a key exactly for each category present, holding the sum of that category's amounts |
| `Budget.InitialTotal` | client/src/components/ui/trip-budget.tsx:20-36 | the six initial expenses total 2205, leaving 295 of 2500 |
| `Budget.InitialCategoryTotals` | client/src/components/ui/trip-budget.tsx:22-45 | per category the initial expenses come to 750, 1050, 350, 55 and 0 |
| `Budget.RemoveKeepsOthers` | client/src/components/ui/trip-budget.tsx:62-64 | exactly the expenses whose id differs stay, and what is left grows by the removed amounts |
| `Budget.ProgressValue` | client/src/components/ui/trip-budget.tsx:37-99 | the bar value is `min(total/budget·100, 100)` and never exceeds 100 |
| `Budget.ProgressWithinBudget` | client/src/components/ui/trip-budget.tsx:37-99 | the bar is non-negative, and full once spending reaches the budget |
| `Budget.ParseAmount` | client/src/components/ui/trip-budget.tsx:48-52 | a signed decimal integer is numeric and parses to its value; empty text or a bare sign is not |
| `Budget.ParseRendered` | client/src/components/ui/trip-budget.tsx:48-52 | every integer written in decimal parses back to itself |
| `Budget.ParseRejects` | client/src/components/ui/trip-budget.tsx:48 | `12a`, `-` and the empty string are not numeric |
| `Budget.TripBudget.constructor` | client/src/components/ui/trip-budget.tsx:20-33 | the given budget, the six initial expenses, empty inputs, category other |
| `Budget.TripBudget.SetNewExpenseName` | client/src/components/ui/trip-budget.tsx:31 | only the name input changes |
| `Budget.TripBudget.SetNewExpenseAmount` | client/src/components/ui/trip-budget.tsx:32 | only the amount input changes |
| `Budget.TripBudget.SetNewExpenseCategory` | client/src/components/ui/trip-budget.tsx:33 | only the category changes |
| `Budget.TripBudget.AddExpense` | client/src/components/ui/trip-budget.tsx:47-60 | with a name and a numeric amount, one expense is appended and both inputs are cleared; otherwise nothing changes |
| `Budget.TripBudget.RemoveExpense` | client/src/components/ui/trip-budget.tsx:62-64 | the expenses become those whose id differs, in order |
| `Routes.SaveTravelPreferences` | server/routes.ts:186-200 | 400 "Missing required fields" exactly when a field is missing or empty; otherwise 201 "Travel preferences saved successfully" echoing exactly the three fields |
| `Routes.OtherFieldsIgnored` | server/routes.ts:187-198 | bodies agreeing on the three fields get the same response; nothing else is echoed |
| `Routes.CompleteRequestSaved` | server/routes.ts:196-199 | Kyoto/short/solo gets 201 with that data |
| `Routes.IncompleteRequestRefused` | server/routes.ts:190-192 | a body with only a destination gets 400 |
| `Translator.PhraseTableComplete` | client/src/components/ui/language-translator.tsx:19-74 | each of the six phrases has a non-empty entry for all seven supported codes, and its English entry is its key |
| `Translator.FirstMatch` | client/src/components/ui/language-translator.tsx:117-123 | the first phrase in table order whose key equals the text up to case, or whose source-language entry equals the text; none exactly when no phrase matches |
| `Translator.Translate` | client/src/components/ui/language-translator.tsx:113-132 | the first match's target entry (the text itself if that entry is missing); with no match `[TARGET] text` |
| `Translator.MockTranslate` | client/src/components/ui/language-translator.tsx:115-128 | the scan with `break` computes `Translate` |
| `Translator.TranslateHello` | client/src/components/ui/language-translator.tsx:117-123 | `hello` from en to ja matches the Hello key and gives the Japanese entry |
| `Translator.TranslateMerci` | client/src/components/ui/language-translator.tsx:117-123 | `Merci` from fr to de matches by source entry and gives `Danke` |
| `Translator.PhraseText` | client/src/components/ui/language-translator.tsx:138 | the phrase's entry in the language, falling back to the key |
| `Translator.LanguageTranslator.constructor` | client/src/components/ui/language-translator.tsx:80-85 | the default languages, empty texts, not translating, no phrase |
| `Translator.LanguageTranslator.SetTextToTranslate` | client/src/components/ui/language-translator.tsx:82 | only the input changes |
| `Translator.LanguageTranslator.SetTargetLang` | client/src/components/ui/language-translator.tsx:81 | only the target language changes |
| `Translator.LanguageTranslator.RunPhraseEffect` | client/src/components/ui/language-translator.tsx:136-141 | the effect body: a translation of the input as it was before is started (unless it was empty), then the input becomes the phrase's source-language entry |
| `Translator.LanguageTranslator.Swap` | client/src/components/ui/language-translator.tsx:99-104 | the languages trade places and the output takes the input; with a phrase selected and two different languages the phrase effect re-runs: the input becomes the phrase's entry in the new source language and a translation of the swapped-in text (the old output) is started; otherwise the input takes the old output and nothing is started |
| `Translator.SwapTwice` | client/src/components/ui/language-translator.tsx:99-104 | swapping twice restores the languages; with no phrase selected or equal languages it also restores input, output, busy flag and queue |
| `Translator.LanguageTranslator.StartTranslate` | client/src/components/ui/language-translator.tsx:107-113 | empty input is a no-op; otherwise translating is set and a timer on the current text and languages is queued |
| `Translator.LanguageTranslator.FinishTranslate` | client/src/components/ui/language-translator.tsx:113-132 | the oldest timer stores its translation and clears translating |
| `Translator.LanguageTranslator.SelectPhrase` | client/src/components/ui/language-translator.tsx:136-141 | a newly selected phrase puts its source entry (or key) in the input and starts a translation of the previous input |
| `Translator.LanguageTranslator.SetSourceLang` | client/src/components/ui/language-translator.tsx:136-141 | a new source language with a phrase selected rewrites the input in that language and starts a translation of the previous input |
| `Explore.ToggledLike` | client/src/pages/ExploreScreen.tsx:36-47 | the id's membership flips and no other id's membership changes |
| `Explore.ToggleLikeTwice` | client/src/pages/ExploreScreen.tsx:38-46 | toggling an id twice restores the set |
| `Explore.Popular` | client/src/pages/ExploreScreen.tsx:32 | the first two destinations |
| `Explore.Beaches` | client/src/pages/ExploreScreen.tsx:33 | exactly the destinations named Bali, in catalog order (the `Filter` of the catalog, a subsequence of it) |
| `Explore.Cities` | client/src/pages/ExploreScreen.tsx:34 | exactly the destinations named New York, Paris or Tokyo, in catalog order (the `Filter` of the catalog, a subsequence of it) |
| `Explore.TabsOfSampleNames` | client/src/pages/ExploreScreen.tsx:32-34 | on a catalog named like the sample, the tabs are the first two, the fifth, and the first, third and sixth, in order |
| `Explore.SampleTabs` | client/src/pages/ExploreScreen.tsx:32-34 | on the sample catalog: Tokyo and Kyoto; Bali; Tokyo, Paris and New York |
| `Explore.ExploreScreen.constructor` | client/src/pages/ExploreScreen.tsx:29-30 | tab `popular` and no liked destinations |
| `Explore.ExploreScreen.SetActiveTab` | client/src/pages/ExploreScreen.tsx:29 | only the tab changes |
| `Explore.ExploreScreen.ToggleLike` | client/src/pages/ExploreScreen.tsx:36-47 | the liked set becomes its toggled set |
| `TravelContext.Merge` | client/src/contexts/TravelContext.tsx:33-35 | each supplied field replaces the previous one, and every other field is kept |
| `TravelContext.MergeNothing` | client/src/contexts/TravelContext.tsx:34 | merging an empty partial is the identity |
| `TravelContext.MergeIdempotent` | client/src/contexts/TravelContext.tsx:34 | merging the same partial twice equals merging it once |
| `TravelContext.MergeTwice` | client/src/contexts/TravelContext.tsx:34 | two merges equal one merge where the later partial wins field by field |
| `TravelContext.MergeComplete` | client/src/contexts/TravelContext.tsx:34 | a partial supplying all three fields determines the result alone |
| `TravelContext.TravelState.constructor` | client/src/contexts/TravelContext.tsx:30-31 | all three fields empty and the view at onboarding |
| `TravelContext.TravelState.UpdateTravelInfo` | client/src/contexts/TravelContext.tsx:33-35 | the info becomes the merge; the view is kept |
| `TravelContext.TravelState.SetActiveView` | client/src/contexts/TravelContext.tsx:31 | only the view changes, and it is one of onboarding, dashboard or details |
| `Onboarding.TravelOptionIds` | client/src/pages/OnboardingScreen.tsx:30-35 | four options with the distinct ids solo, couple, family, friends |
| `Onboarding.OnboardingScreen.constructor` | client/src/pages/OnboardingScreen.tsx:15-17 | all three answers start empty |
| `Onboarding.OnboardingScreen.SetDestination` | client/src/pages/OnboardingScreen.tsx:15 | only the destination changes |
| `Onboarding.OnboardingScreen.SetDuration` | client/src/pages/OnboardingScreen.tsx:16 | only the duration changes |
| `Onboarding.OnboardingScreen.ChooseTravelOption` | client/src/pages/OnboardingScreen.tsx:94-98 | travelingWith becomes the option's id, one of solo, couple, family or friends |
| `Onboarding.OnboardingScreen.Continue` | client/src/pages/OnboardingScreen.tsx:19-28 | with all three answers non-empty, exactly they are written to the context and the target is `/dashboard`; otherwise no update and no navigation |
| `AppRouter.Router.constructor` | client/src/App.tsx:21 | no details item stored |
| `AppRouter.Router.OnLocation` | client/src/App.tsx:23-29 | `/` sets onboarding, `/dashboard` sets dashboard, any other path keeps the view |
| `AppRouter.Router.OnActivityClick` | client/src/App.tsx:40-43 | the item is stored and the view becomes details |
| `AppRouter.Router.OnBack` | client/src/App.tsx:53 | the view becomes dashboard and the item stays stored |
| `AppRouter.OpenThenBack` | client/src/App.tsx:40-53 | after open and back the overlay is hidden and the item is still stored |
| `AppRouter.ReopenDetails` | client/src/App.tsx:50 | with an item stored, switching to details shows the overlay |
| `Safety.InfoFor` | client/src/components/ui/safety-tips.tsx:35-56 | Japan and France map to their own rows, and every other destination to the default row (own keys of the table only; see Left out) |
| `Safety.DefaultRowUsesOneNumber` | client/src/components/ui/safety-tips.tsx:42-56 | the default row has 112 for every number, and France's police number differs from it |
| `Safety.TipIdsDistinct` | client/src/components/ui/safety-tips.tsx:59-95 | five tips with the distinct ids tip1…tip5 |
| `Safety.CompactCard` | client/src/components/ui/safety-tips.tsx:116-133 | when expanded, the emergency and ambulance numbers and only the first tip's title; otherwise nothing |
| `Safety.FullCard` | client/src/components/ui/safety-tips.tsx:145-169 | the four contact fields of the destination's row and all five tip titles, in order |
| `Safety.SafetyCard.constructor` | client/src/components/ui/safety-tips.tsx:31-32 | the destination defaults to Japan, `compact` to false, and `expanded` starts as `!compact` |
| `Safety.SafetyCard.ToggleExpanded` | client/src/components/ui/safety-tips.tsx:103 | a header click flips `expanded` |
| `Safety.SafetyCard.View` | client/src/components/ui/safety-tips.tsx:97-169 | the compact card follows `expanded`; the full card ignores it |
| `Safety.ToggleTwice` | client/src/components/ui/safety-tips.tsx:103 | two clicks leave the card as it was |
| `Safety.OpenCompactCard` | client/src/components/ui/safety-tips.tsx:97-133 | a compact card starts folded, and one click shows the destination's numbers |
| `Weather.WeatherFor` | client/src/components/ui/weather-widget.tsx:28-59 | Tokyo, Kyoto and Paris resolve to their own rows, and every other city to the default (18°C Clear, 60, 10) (own keys of the table only; see Left out) |
| `Weather.Render` | client/src/components/ui/weather-widget.tsx:64-113 | the skeleton exactly while loading; nothing exactly when not loading without a record; otherwise the compact or full card of the stored record |
| `Weather.ValidNeverBlank` | client/src/components/ui/weather-widget.tsx:59-74 | while loading tracks "no record", the widget never draws nothing |
| `Weather.WeatherWidget.constructor` | client/src/components/ui/weather-widget.tsx:18-27 | loading with no record, and a timer queued unless the city is empty |
| `Weather.WeatherWidget.SetCity` | client/src/components/ui/weather-widget.tsx:22-27 | a non-empty city queues a timer, and an empty one queues nothing |
| `Weather.WeatherWidget.TimerFires` | client/src/components/ui/weather-widget.tsx:27-61 | the record becomes the lookup of the timer's city and loading becomes false |
| `Weather.FlushTimers` | client/src/components/ui/weather-widget.tsx:22-62 | after all timers fire, the record is that of the last city scheduled |
| `Weather.EmptyCityStaysLoading` | client/src/components/ui/weather-widget.tsx:19-23 | an empty city never leaves the skeleton |
| `Weather.TokyoScenario` | client/src/components/ui/weather-widget.tsx:28-60 | Tokyo shows the skeleton, then 22°C Mostly Sunny, humidity 65, wind 12 |
| `Theme.InitialTheme` | client/src/hooks/useTheme.ts:6-16 | a stored value wins; otherwise dark when the system prefers dark, and light else |
| `Theme.Toggled` | client/src/hooks/useTheme.ts:30-32 | `dark` becomes `light` and anything else becomes `dark` |
| `Theme.ToggleTwice` | client/src/hooks/useTheme.ts:31 | two toggles restore `dark` and `light` |
| `Theme.ReloadKeepsTheme` | client/src/hooks/useTheme.ts:8-15 | a stored theme is the next initial theme, whatever the system says |
| `Theme.ThemeHost.constructor` | client/src/hooks/useTheme.ts:6-28 | the initial theme, with the effect applied: `dark` class exactly when dark, and storage holding the theme |
| `Theme.ThemeHost.ToggleTheme` | client/src/hooks/useTheme.ts:18-32 | the theme toggles and the effect re-syncs the class and the storage |
| `Theme.ReloadAfterToggle` | client/src/hooks/useTheme.ts:6-31 | a reload after a toggle starts from the toggled theme |
| `DateRange.DateRangeShape` | client/src/lib/utils.ts:16-30 | both forms start with `MON d1` and end with `, endYear`; a bare dash follows the start day exactly when month and year agree |
| `DateRange.StartYearNotShownAcrossMonths` | client/src/lib/utils.ts:29 | across months the start year does not affect the output |
| `DateRange.SameMonthOtherYearUsesLongForm` | client/src/lib/utils.ts:25-29 | the same month in different years takes the long form |
| `DateRange.OtherMonthUsesLongForm` | client/src/lib/utils.ts:25-29 | different upper-cased months give `MON1 d1 - MON2 d2, YYYY2` |
| `DateRange.OneMonthRangeEndDay` | client/src/lib/utils.ts:26 | in the one-month form the end day can be read back from the output |
| `DateRange.OctoberExample` | client/src/lib/utils.ts:26 | Oct 10 to Oct 16, 2025 gives `OCT 10-16, 2025` |
| `DateRange.NewYearExample` | client/src/lib/utils.ts:29 | Dec 28, 2025 to Jan 3, 2026 gives `DEC 28 - JAN 3, 2026` |

## Left out

- Rendering: JSX, Tailwind class strings and `cn` are not modelled. The models of drawn output (`ResultIcon`, `Compact`, `CompactCard`, `FullCard`, `Render`) keep only which data is shown.
- Timer delays and `clearTimeout` are not modelled: every delayed callback is a separate step. The search effect's cancellation of a superseded timer is not modelled; the search runs at once.
- React semantics (batched updates, stale closures, effects re-running on dependency changes) are modelled only where the translator's phrase effect makes them visible.
- Search.SearchScreen.RunSearch: reads the recent list as it stands when the effect runs, while the source tests membership against the list its closure captured.
- Text.Lower: lower- and upper-casing cover ASCII letters only, not the full Unicode case mapping of `toLowerCase`/`toUpperCase`.
- Budget.ParseAmount: accepts only an optional sign followed by decimal digits. `Number(...)` also accepts surrounding white space, decimals, exponents, hex and `Infinity`. Amounts are integers, not floating point.
- Budget.ProgressValue: computed in exact `real` arithmetic, not floating point, and requires a non-zero budget (the source would produce `Infinity` or `NaN`). The `toFixed` percentage text and `formatCurrency` are not modelled.
- Packing.Progress: rounds the exact ratio, while `Math.round` rounds a floating-point value; it requires a non-empty list because the source divides by the length.
- Currency conversion (`currency-converter.tsx`) is not modelled: it is floating-point rate arithmetic with `Intl.NumberFormat`.
- Dates: `Date`, `Intl.DateTimeFormat`, `toLocaleString`, `formatDate`, `formatTime`, `getFormattedTime` and the status-bar clock are not modelled. A day plan's date is its offset from the first day. `formatDateRange` receives the month names, days and years as inputs.
- Ids and randomness: `Date.now()` in the packing and budget ids is the parameter `now`. `Math.random()` in the suggestion is a nondeterministic choice among the available activities.
- Itinerary.ItineraryPlanner.AddActivity: models the day list on values. The source pushes into the previous state's array in place, and that aliasing is not captured.
- Translator.LanguageTranslator.SetSourceLang and Translator.LanguageTranslator.Swap: with a selected phrase that is not in the table (impossible through the phrase buttons, where the source would throw), the input is left as is.
- Safety.InfoFor and Weather.WeatherFor: only the tables' own keys are looked up. A name inherited from `Object.prototype` (`constructor`, `toString` and the like) yields a truthy function in the source, which the card then draws with empty fields instead of the default row; the model sends such names to the default row.
- Translator.LanguageTranslator.FinishTranslate: the translate button's `disabled` state while a translation runs is not modelled; the handler itself does not check it.
- Routes.SaveTravelPreferences: a body field is an optional string. JavaScript truthiness of non-string values (numbers, booleans, objects) is not modelled. Express and `createServer` wiring and the unused `storage` import are left out.
- Navigation through wouter is recorded as the target path. `localStorage`, `matchMedia` and the document class list are inputs or fields.
- `shared/schema.ts` (table declarations never queried) and the presentational screens (ProfileScreen, DashboardScreen, DetailsScreen, BottomNavigation, NavigationTabs, ThemeToggle, PhoneStatusBar, `main.tsx`) are not part of this model.
- The client's data module with its catalogs is not part of this model; the catalogs are parameters, and the server literals are sample fixtures.
- `Catalog.Activity` keeps only the fields the search and itinerary read; the details-screen prose (description, highlights, directions, best time, entrance fee) is not modelled.
