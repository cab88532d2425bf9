# REMwaste skip hire: the skip-selection core in Dafny

This project models the core of the REMwaste skip-hire web app:

- the skip-selection page: its filter predicate, the five sort orders, the
  selected-skip slot, "continue" and "clear filters";
- the filter sidebar: the field update and the two checkbox toggles;
- the in-memory store on the server (`MemStorage`), with its demo seed and
  its location lookup;
- the two HTTP handlers: `/api/skips/by-location`, which asks the external
  provider first and falls back to the store, and `/api/skips`;
- the display rules of the skip card, the permit-check page and the progress
  stepper.

It proves facts about all of these. One module covers each source file:

| module | file |
|---|---|
| `Schema` | `shared/schema.ts` |
| `Text` | the lowercase-and-`includes` matching used by the store |
| `FilterSidebar` | `FilterSidebar.tsx` |
| `SkipSelection` | `skip-selection.tsx` |
| `SkipCard` | `SkipCard.tsx` |
| `PermitCheck` | `permit-check.tsx` |
| `ProgressStepper` | `ProgressStepper.tsx` |
| `Storage` | `server/storage.ts` |
| `Routes` | `server/routes.ts` |

`Scenarios` holds end-to-end facts about the seeded store. `Wrappers` holds
`Option`, and `Seqs` holds duplicate-freeness and the subsequence order.

How the model is built:

- **Sorting.** Each sort mode is a stable sort on an integer key:
  - the two descending modes negate the key;
  - "popular" uses key 0 for a 4-yard skip and 1 for any other.

  `SortBy` is a functional insertion sort. `SortInPlace` sorts an array in
  place and is proved equal to it. The page's pipeline, `Apply`, filters and
  then sorts.
- **Store.** `MemStorage` is a class. Each JavaScript `Map` becomes a Dafny
  `map` plus a sequence of its keys in insertion order. The class invariant
  `Valid` says that sequence is strictly increasing, stays below the next id
  and holds exactly the map's keys.
- **Handlers.** Each handler is a method over three things:
  - the query parameters, each absent, a string, or a non-string (an array
    or an object);
  - the upstream provider's answer, given as a value;
  - the store.

  Each handler's `ensures` states the whole response.

## Model

| member | source | states |
|---|---|---|
| Schema.InsertSkip.Stamp | server/storage.ts:146-151 | the stored skip carries the given id and both timestamps, and its other fields are exactly the insert record's |
| Schema.InsertUser.WithId | server/storage.ts:127 | the stored user carries the given id and exactly the insert record's username and password |
| Text.ToLower | server/storage.ts:139-140 | the lowercased string has the same length, and each character is lowercased on its own |
| Text.IncludesIff | server/storage.ts:139-140 | `includes` holds exactly when the needle occurs at some position of the haystack |
| Text.IncludesEmpty | server/storage.ts:140 | the empty query is contained in every string |
| Text.IncludesSelf | server/storage.ts:139 | every string contains itself |
| Text.IncludesNotLonger | server/storage.ts:139 | a needle longer than the haystack is never found |
| Text.ToLowerIdempotent | server/storage.ts:139-140 | lowercasing twice is the same as lowercasing once |
| FilterSidebar.UpdateFilter | client/src/components/FilterSidebar.tsx:15-17 | the update replaces exactly the named field and keeps the other three |
| FilterSidebar.ToggleSizeCategory | client/src/components/FilterSidebar.tsx:19-24 | the clicked category changes membership (present becomes absent and the reverse); every other category keeps its membership; price cap, properties and sort mode are unchanged |
| FilterSidebar.ToggleProperty | client/src/components/FilterSidebar.tsx:26-31 | the same for the two property checkboxes, with the other three fields unchanged |
| FilterSidebar.ToggleMembership | client/src/components/FilterSidebar.tsx:20-22 | toggling flips the membership of the toggled value and keeps every other value's |
| FilterSidebar.Without | client/src/components/FilterSidebar.tsx:21 | removing a value never lengthens the list (the same `filter` serves the property list at line 28) |
| FilterSidebar.WithoutSpec | client/src/components/FilterSidebar.tsx:21 | removing a value drops every occurrence of it, keeps each other element as often as before, and keeps their order |
| FilterSidebar.ToggleAbsent | client/src/components/FilterSidebar.tsx:22 | a value that was absent is appended at the end and the earlier elements stay in place |
| FilterSidebar.TogglePresent | client/src/components/FilterSidebar.tsx:20-21 | a value that was present is removed, and the remaining list keeps its order |
| FilterSidebar.WithoutAbsent | client/src/components/FilterSidebar.tsx:21 | removing a value that is not there changes nothing |
| FilterSidebar.WithoutAppend | client/src/components/FilterSidebar.tsx:21 | removal distributes over concatenation |
| FilterSidebar.ToggleTwice | client/src/components/FilterSidebar.tsx:19-31 | ticking and then unticking a box restores the previous list |
| FilterSidebar.ToggleKeepsNoDuplicates | client/src/components/FilterSidebar.tsx:19-31 | a toggle never creates a duplicate entry |
| FilterSidebar.ToggleSizeCategoryFrame | client/src/components/FilterSidebar.tsx:19-24 | a category toggle keeps the other fields, and keeps the category list free of duplicates |
| FilterSidebar.TogglePropertyFrame | client/src/components/FilterSidebar.tsx:26-31 | a property toggle keeps the other fields, and keeps the property list free of duplicates |
| SkipSelection.FilterSkips | client/src/pages/skip-selection.tsx:38-51 | a skip is in the result exactly when it is in the input and passes all four checks |
| SkipSelection.FilterMultiset | client/src/pages/skip-selection.tsx:38-51 | each passing skip is kept as many times as it occurs in the input, and every other skip is dropped |
| SkipSelection.FilterIsSubsequence | client/src/pages/skip-selection.tsx:38 | the filter keeps the input order |
| SkipSelection.FilterAllPass | client/src/pages/skip-selection.tsx:38-51 | a list whose every skip passes comes back unchanged |
| SkipSelection.FilterNonePass | client/src/pages/skip-selection.tsx:38-51 | a list where no skip passes filters to the empty list |
| SkipSelection.FilterPassingPrefix | client/src/pages/skip-selection.tsx:38-51 | when exactly the first n skips pass, the result is those n skips |
| SkipSelection.SizeCategoryRanges | client/src/pages/skip-selection.tsx:40 | the categories are: small up to 6 yards, medium from 7 to 12, large from 13 |
| SkipSelection.SizeCategoryBoundaries | client/src/pages/skip-selection.tsx:40 | 6 is small and 7 medium; 12 is medium and 13 large |
| SkipSelection.EmptySizeCategoriesAdmitAll | client/src/pages/skip-selection.tsx:41 | with no category ticked, every size passes the size check |
| SkipSelection.PriceCapInclusive | client/src/pages/skip-selection.tsx:44 | the price check is "price before VAT at most the cap"; a price equal to the cap passes |
| SkipSelection.DefaultCapIsSliderTop | client/src/components/FilterSidebar.tsx:87-93 | the default cap of 2000 is the slider's top position (200 to 2000 in steps of 50), so a skip that passes the price check at any slider position passes it under the defaults |
| SkipSelection.PropertyFiltersOptIn | client/src/pages/skip-selection.tsx:47-48 | an unticked property ignores that flag; a ticked one admits only skips that have it |
| SkipSelection.KeyAgreesWithComparator | client/src/pages/skip-selection.tsx:54-70 | for the size and price modes, the sort key orders two skips exactly as the source comparator does; for "popular", it agrees wherever a 4-yard skip meets another size |
| SkipSelection.InsertSorted | client/src/pages/skip-selection.tsx:54-70 | one insertion step keeps a sorted list sorted |
| SkipSelection.InsertMultiset | client/src/pages/skip-selection.tsx:54-70 | one insertion step adds exactly the inserted skip |
| SkipSelection.InsertStable | client/src/pages/skip-selection.tsx:54-70 | an inserted skip goes behind every earlier skip with the same key |
| SkipSelection.SortBySpec | client/src/pages/skip-selection.tsx:54-70 | the sort's result is ordered by the mode's key, is a permutation of its input, and keeps input order among equal keys |
| SkipSelection.SortBySortedIsIdentity | client/src/pages/skip-selection.tsx:54-70 | a list already in order is left unchanged |
| SkipSelection.ApplySpec | client/src/pages/skip-selection.tsx:37-73 | the shown list holds exactly the passing input skips, each as often as in the input; it is key-ordered, stable and no longer than the input |
| SkipSelection.ApplyOrdered | client/src/pages/skip-selection.tsx:54-66 | by mode, sizes or prices rise (ascending) or do not rise (descending) along the shown list |
| SkipSelection.ApplyPopularPartition | client/src/pages/skip-selection.tsx:67-69 | under "popular", every 4-yard skip comes before every other size |
| SkipSelection.ApplyIdempotent | client/src/pages/skip-selection.tsx:37-73 | applying the same filters again to the shown list changes nothing |
| SkipSelection.ApplyEmpty | client/src/pages/skip-selection.tsx:27 | no fetched skips means nothing is shown |
| SkipSelection.SortInPlace | client/src/pages/skip-selection.tsx:54-70 | the array after sorting in place equals the stable key sort of its old contents |
| SkipSelection.InsertAt | client/src/pages/skip-selection.tsx:54-70 | one pass takes the prefix up to i to the insertion of element i into the sorted part, and leaves the rest of the array alone |
| SkipSelection.ShiftGreater | client/src/pages/skip-selection.tsx:54-70 | the larger-keyed elements move up one place; the returned gap is where the held element belongs |
| SkipSelection.FilteredAndSorted | client/src/pages/skip-selection.tsx:37-73 | the list computed on a fresh array equals the filter-then-sort pipeline |
| SkipSelection.SkipSelectionPage.constructor | client/src/pages/skip-selection.tsx:19-34 | the page starts with the fetched skips, the default filters and no selection |
| SkipSelection.SkipSelectionPage.IsSelected | client/src/pages/skip-selection.tsx:213 | a card is selected exactly when the selection has the card's id |
| SkipSelection.SkipSelectionPage.SelectSkip | client/src/pages/skip-selection.tsx:75-81 | the clicked skip becomes the selection; skips and filters stay the same |
| SkipSelection.SkipSelectionPage.ClearSelection | client/src/pages/skip-selection.tsx:83-85 | the selection becomes empty; skips and filters stay the same |
| SkipSelection.SkipSelectionPage.Continue | client/src/pages/skip-selection.tsx:87-100 | a skip is handed on exactly when one is selected, and it is the selected skip |
| SkipSelection.SkipSelectionPage.ClearFilters | client/src/pages/skip-selection.tsx:102-109 | the filters become the defaults; the selection is kept |
| SkipSelection.SkipSelectionPage.SetFilters | client/src/pages/skip-selection.tsx:164 | the sidebar's new filters replace the old ones; the selection is kept |
| SkipSelection.SkipSelectionPage.ReceiveSkips | client/src/pages/skip-selection.tsx:27 | a new fetch replaces the skips and keeps the selection and the filters |
| SkipCard.Dimensions | client/src/components/SkipCard.tsx:21-33 | "Various sizes" is shown exactly for a size not in the table |
| SkipCard.PopularBadgeMatchesPopularSort | client/src/components/SkipCard.tsx:17 | the "Most Popular" badge shows exactly for the skips that the "popular" sort puts first |
| SkipCard.PermitBadges | client/src/components/SkipCard.tsx:18 | "Permit Required" shows exactly when the skip may not go on the road; "Road Allowed" shows otherwise; the "Not Allowed On The Road" warning goes with "Permit Required" |
| SkipCard.DisplayedPriceIsPriceBeforeVat | client/src/components/SkipCard.tsx:16 | the price shown is the price before VAT, with nothing added |
| SkipCard.BadgeAndLabel | client/src/components/SkipCard.tsx:117-132 | the heavy-waste badge follows its flag; the button reads "✓ Selected" exactly when the card is selected |
| SkipCard.DescriptionMatchesCategory | client/src/components/SkipCard.tsx:81-86 | the card's description thresholds are the filter's category thresholds |
| PermitCheck.ShowRoadWarning | client/src/pages/permit-check.tsx:43-44 | the warning shows exactly when the placement is public and either no skip is loaded or the loaded skip may not go on the road |
| PermitCheck.ContinueEnabled | client/src/pages/permit-check.tsx:238 | the button is enabled exactly when the placement is private, or public with a loaded skip that may go on the road |
| PermitCheck.PrivateNeverWarns | client/src/pages/permit-check.tsx:44 | a private placement never warns, and always enables the button |
| PermitCheck.NoPlacementDisabled | client/src/pages/permit-check.tsx:238 | with no placement chosen, nothing warns and the button is disabled |
| PermitCheck.PermitCheckPage.constructor | client/src/pages/permit-check.tsx:13-22 | the page opens with no placement and with the skip restored from the previous step |
| PermitCheck.PermitCheckPage.SelectPlacement | client/src/pages/permit-check.tsx:24-26 | the last choice of placement wins; the skip stays the same |
| PermitCheck.PermitCheckPage.Continue | client/src/pages/permit-check.tsx:32-41 | the placement is recorded exactly when both a placement and a skip are present |
| PermitCheck.EnabledWithoutSkip | client/src/pages/permit-check.tsx:32-44 | with no skip loaded, a private placement enables the button, yet pressing it records nothing |
| ProgressStepper.MarkSteps | client/src/components/ProgressStepper.tsx:17-32 | each base step keeps its id, caption and icon, and gets the flags the route decides |
| ProgressStepper.GetSteps | client/src/components/ProgressStepper.tsx:7-33 | there are six steps, with ids 1 to 6 and the fixed captions and icons |
| ProgressStepper.StepFlags | client/src/components/ProgressStepper.tsx:18-30 | on `/permit-check`, steps 1 to 3 are done and 4 is current; on every other route, 1 and 2 are done and 3 is current |
| ProgressStepper.ExactlyOneCurrent | client/src/components/ProgressStepper.tsx:17-32 | exactly one step is current, and none is both done and current |
| ProgressStepper.CompletedBeforeCurrent | client/src/components/ProgressStepper.tsx:17-32 | the done steps are exactly those before the current one |
| Storage.ValuesInOrder | server/storage.ts:133 | `Array.from(map.values())` lists the entries in key-insertion order |
| Storage.ValuesInOrderCovers | server/storage.ts:133 | every stored entry appears in that list |
| Storage.FilterByLocation | server/storage.ts:136-143 | a skip is kept exactly when it matches the postcode and the area |
| Storage.FilterByLocationIsSubsequence | server/storage.ts:137-138 | the lookup keeps the store's order |
| Storage.FilterByLocationAllMatch | server/storage.ts:136-143 | when every skip matches, the lookup returns them all |
| Storage.OwnLocationMatches | server/storage.ts:139-140 | a skip always matches its own postcode and area |
| Storage.MatchDirection | server/storage.ts:139 | the stored postcode must contain the query, not the reverse: "nr3" finds NR32, and "NR32EXTRA" does not |
| Storage.EmptyQueryMatchesAll | server/storage.ts:139-140 | an empty postcode matches every skip |
| Storage.SeededSkip | server/storage.ts:145-155 | the i-th demo skip is stored with id i + 1 and its demo fields |
| Storage.SeedStep | server/storage.ts:110-112 | each seeding step stores the next demo skip under the next id and appends that id to the order |
| Storage.MemStorage.constructor | server/storage.ts:18-26 | a new store has no users and the six demo skips, with ids 1 to 6; the next ids are 1 for users and 7 for skips |
| Storage.MemStorage.SeedDemoData | server/storage.ts:28-113 | seeding inserts the six demo skips in order, stamped from the clock |
| Storage.MemStorage.GetUser | server/storage.ts:115-117 | the user stored under the id, or none when the id is unknown |
| Storage.MemStorage.GetUserByUsername | server/storage.ts:119-123 | the first user in insertion order with that username, or none exactly when no user has it |
| Storage.MemStorage.CreateUser | server/storage.ts:125-130 | the user gets the next id, the counter goes up by one, and the skips stay the same |
| Storage.MemStorage.GetSkips | server/storage.ts:132-134 | all stored skips, in insertion order |
| Storage.MemStorage.GetSkipsByLocation | server/storage.ts:136-143 | a stored skip is returned exactly when it matches; the result keeps the store's order |
| Storage.MemStorage.CreateSkip | server/storage.ts:145-155 | the skip gets the next id and both timestamps, the counter goes up by one, and the users stay the same |
| Routes.Normalize | server/routes.ts:26-41 | every field is copied, except: a missing area becomes empty, a missing `forbidden` becomes false, and each permission is granted unless it is exactly false |
| Routes.NormalizeAll | server/routes.ts:26 | on an array of records, one normalised record per element, in order; on an array holding a `null`, the transform throws |
| Routes.StoreLookup | server/routes.ts:50 | the store call behaves as `LocationLookup`: it throws as soon as a non-string parameter reaches a non-empty store |
| Routes.GetSkipsByLocationRoute | server/routes.ts:8-60 | a falsy postcode gets 400 "Postcode is required"; an upstream array gets 200 and the normalised list; otherwise the store answers with 200, or the route sends 500 "Failed to fetch skips" with the error message |
| Routes.GetSkipsRoute | server/routes.ts:63-79 | with a postcode, the store's location lookup answers, or the route sends 500 with no message; without one, every stored skip is returned |
| Routes.UpstreamArrayKeepsShape | server/routes.ts:22-43 | an OK reply holding an array of records is answered with one normalised record per element, in order |
| Routes.UpstreamNonArrayIsEmpty | server/routes.ts:26-41 | an OK reply that is not an array is answered with an empty list |
| Routes.UpstreamFailuresFallBack | server/routes.ts:16-51 | a network error, a status other than OK, a body that does not parse, or a `null` element all fall back to the store |
| Routes.StringQueryIsStoreFilter | server/routes.ts:50 | with string parameters the store cannot throw, and the answer is its location filter |
| Routes.LookupThrowsIff | server/routes.ts:50-58 | the store lookup throws exactly when the store is not empty and the postcode or the area is not a string |
| Scenarios.SeededFacts | server/storage.ts:29-108 | the demo skips are 4 to 14 yards in steps of 2, at rising prices from 278 to 535, all in NR32 Lowestoft; only the 4- and 6-yard skips may go on the road |
| Scenarios.SeededSorted | server/storage.ts:29-108 | the seeded list is in ascending size order and also in ascending price order |
| Scenarios.DefaultViewIsSeededOrder | client/src/pages/skip-selection.tsx:29-73 | the default filters show the seeded skips exactly as stored |
| Scenarios.RoadAllowedView | client/src/pages/skip-selection.tsx:47 | ticking "road allowed" leaves the 4- and 6-yard skips |
| Scenarios.PriceCapView | client/src/pages/skip-selection.tsx:44 | a price cap of 400 leaves the 4-, 6- and 8-yard skips |
| Scenarios.SeededLocationLookup | server/storage.ts:136-143 | "NR32" in "Lowestoft" matches all six seeded skips |
| Scenarios.FreshStore | server/storage.ts:18-26 | a new store lists the seeded skips in order |
| Scenarios.FallbackServesSeededSkips | server/routes.ts:45-51 | when the provider cannot be reached, a string query to a fresh store is answered with 200 and the seeded skips that match it |
| Scenarios.HiddenSelectionIsHandedOn | client/src/pages/skip-selection.tsx:87-100 | a selected skip that the price cap later hides is still handed on; on the permit check, a public placement then warns and disables the button |

## Left out

- The React rendering, the animations, the mobile filter drawer, `SkipImage`,
  `StickyFooter`, `LoadingSkeleton` and `EmptyState`: they lay things out and
  decide nothing that the model states.
- Toasts, `localStorage`, JSON encoding and navigation. Instead, the two
  `Continue` methods return what would be stored, and `PermitCheckPage` is
  built from the restored skip.
- The `useSkips` hook (a cached, retried fetch; `client/src/hooks/useSkips.ts`).
  The page's `ReceiveSkips` takes the delivered list, given as complete
  `Schema.Skip` records.
- The page's default postcode and area from the URL. The route takes its
  query as a parameter.
- Decimal values: prices, VAT and costs are whole currency units (`int`), so
  `Number(...)` on decimal strings is not modelled.
- Clocks: `new Date().toISOString()` becomes a reading passed in. The
  constructor takes `clock`, and the n-th reading stamps the seeded skips.
- The network: the upstream provider's answer is a parameter of the handler,
  so the URL it builds is not modelled. `console` logging is left out.
- Text.ToLower: lowercases ASCII letters only, because the model has no
  Unicode case tables.
- Routes.LocationLookup: the texts of the two type errors follow what a
  JavaScript engine reports; the engine's exact wording is not part of the
  model.
- Routes.Normalize: upstream fields are absent or of their declared type; a
  value of some other type (say, a string where a boolean belongs) is not
  modelled.
- SkipSelection.SortBy: under "popular", the model sorts into a stable
  partition (4-yard skips first, ties in input order). The source's
  comparator `(a, b) => a.size === 4 ? -1 : 1` is not a consistent ordering,
  so within each group the engine's order is unspecified. Only the partition
  (`SkipSelection.ApplyPopularPartition`) holds of the source as well; the
  order inside each group is the model's choice.
- SkipSelection.InsertStable: under "popular", a property of the model's
  stable partition, not of the source: with the source's inconsistent
  comparator an equal-keyed skip need not stay in front of the inserted one.
- SkipSelection.SortBySortedIsIdentity: under "popular", a property of the
  model's stable partition, not of the source: the engine may reorder an
  already partitioned list within a group.
- SkipSelection.SortBySpec: under "popular", the stability clause is a
  property of the model's stable partition, not of the source, whose engine
  may reorder two 4-yard skips (or two other skips) among themselves.
- SkipSelection.ApplySpec: under "popular", the same: key order and the
  multiset of shown skips hold of the source, stability only of the model.
- SkipSelection.ApplyIdempotent: under "popular", idempotence is a property
  of the model's stable partition. With the source's inconsistent comparator
  a second pass may swap two skips of the same group, so the source does not
  promise it.
- SkipSelection.SkipSelectionPage: the page's skips are `Schema.Skip` records
  with every field present. The route passes upstream fields through
  unchecked (`Routes.WireSkip`), and the client's handling of a missing field
  is not modelled: a missing `price_before_vat` makes `Number(undefined) <=
  maxPrice` false, so the skip is always hidden; a missing `size` falls into
  'large'; a missing `id` makes the card count as selected while nothing is
  selected.
- SkipSelection.SortInPlace: the source sorts the filtered copy in place,
  with the engine's own algorithm; the model uses an insertion sort on a
  fresh array, proved equal to the stable key sort.
- The zod insert schemas and the database column defaults: `InsertSkip` and
  `InsertUser` carry every field. `IStorage` as an interface is not modelled
  apart from `MemStorage`.
- Users' passwords are stored as plain strings, as in the
  source; nothing is said about them.
