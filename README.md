# AINetBox catalog core, modelled in Dafny

AINetBox is a catalog of AI tools, with an Express API over a tool table and a React client that filters, searches, sorts and pages the list. This project models the catalog's logic and proves properties of it:

- **Schema** (`schema.dfy`): the `ToolCategory` enumeration, the `Tool`/`InsertTool` and `User`/`InsertUser` records and the column defaults.
- **MemStorage** (`storage.dfy`, with `ordered_maps.dfy`, `seqs.dfy`, `text.dfy` and `seeds.dfy`): the in-memory store as a class.
  - Its fields are two insertion-ordered maps and two id counters.
  - `createTool`/`createUser` are methods that bump a counter and insert.
  - Construction seeds the thirteen sample tools through a loop.
  - The reads are functions. Each listing is characterised as the in-order selection of exactly the tools its predicate accepts.
  - The search predicate is also the one `DatabaseStorage.searchTools` applies.
- **Catalog page pipeline** (`catalog.dfy`, with `sorting.dfy`):
  - the choice of displayed list, the page count and the page slice;
  - `sortTools`, which copies the list into an array and sorts it in place; this is proved equal to a stable reference sort;
  - the page bar's button/ellipsis rule, the previous/next targets, and the component's `currentPage`/`sortBy` state as a class.
- **Client filter state** (`tools_context.dfy`): `category` and `searchQuery` as a class. `searchTools` is a method, and the category effect is an explicit commit step.
- **Routes and auth** (`routes.dfy`, `auth.dfy`):
  - `requireAuth` and the five GET handlers as functions from the request's parameters to a status, a body and the storage call made;
  - the registration order that decides which handler a path reaches.

Things the model cannot see are passed in as parameters:

- the clock: `stamp` gives the ISO string for "n days ago";
- `parseInt` on the id segment: `Option<int>`, where `None` means NaN;
- the date parse and locale order behind the "newest" and "a-z" sorts: `timeOf` and `nameRank`;
- whether a storage call throws: `fails`.

A JavaScript `Map` is modelled as a key sequence plus a map, so that `values()` keeps insertion order. `toLowerCase` is ASCII-only. `includes` means the query occurs at some offset. `trim` removes the ECMAScript whitespace and line-terminator set.

## Model

| member | source | states |
|---|---|---|
| Schema.CategoryEnumeration | AINetBox/shared/schema.ts:21-31 | `ToolCategory` has exactly seven members, every member is listed, and distinct members have distinct strings |
| Schema.CategoryValuesListed | AINetBox/shared/schema.ts:21-29 | `Object.values(ToolCategory)` is `text, image, audio, video, code, data, all`, in that order |
| Schema.ParseCategory | AINetBox/shared/schema.ts:31 | a string is a `ToolCategoryType` exactly when it is one of the seven values, and then it names that member |
| Schema.ParseCategoryName | AINetBox/shared/schema.ts:21-31 | parsing a member's string gives back that member |
| Schema.WithIdRoundTrip | AINetBox/shared/schema.ts:64-73 | a `Tool` is an `InsertTool` plus `id`: adding the id and omitting it again are inverse, in both directions |
| Schema.ApplyDefaults | AINetBox/shared/schema.ts:40-49 | each omitted value takes its documented default (rating 0, `[]` for tags, features and use cases, both flags false, icon "brain", color "blue"); each supplied value is kept; name, description, category, image and `updatedAt` pass through; the URLs stay nullable |
| Schema.DefaultsKeepSuppliedValues | AINetBox/shared/schema.ts:40-49 | an input that supplies every value is stored exactly as given |
| Schema.DefaultsIdempotent | AINetBox/shared/schema.ts:40-49 | supplying the filled-in record again gives the same record: defaults apply only once |
| Schema.UserWithId | AINetBox/server/storage.ts:110 | `{ ...insertUser, id }` carries the given id and exactly the inserted fields |
| OrderedMaps.OrderedMap.Set | AINetBox/server/storage.ts:156 | `Map.set`: the key reads back its value, other keys are unchanged, a new key goes last in the order |
| OrderedMaps.OrderedMap.Get | AINetBox/server/storage.ts:116-118 | `Map.get`: defined exactly for a stored key, and then its stored value |
| OrderedMaps.OrderedMap.Values | AINetBox/server/storage.ts:121 | `Array.from(map.values())` lists each key's value in key order |
| OrderedMaps.SetNewKeyValues | AINetBox/server/storage.ts:153-158 | setting a fresh key appends its value to `values()` and leaves the earlier values alone |
| OrderedMaps.Empty | AINetBox/server/storage.ts:90-91 | `new Map()` has no keys and no values |
| Seqs.FilterSelectsInOrder | AINetBox/server/storage.ts:120-151 | `Array.prototype.filter` returns exactly the accepted elements, in their original order |
| Seqs.Filter | AINetBox/server/storage.ts:120-151 | `Array.prototype.filter`: no longer than the input; every kept element is in the input and passes; every passing element of the input is kept |
| Seqs.SelectionIsFilter | AINetBox/server/storage.ts:127 | the in-order selection of a predicate's elements is unique, so it characterises `filter` completely |
| Seqs.FilterConcat | AINetBox/server/storage.ts:127 | filtering distributes over concatenation |
| Seqs.Find | AINetBox/server/storage.ts:103-105 | `Array.prototype.find` gives the first element that satisfies the predicate, or nothing when none does |
| Seqs.Slice | AINetBox/client/src/components/AICatalog.tsx:40-43 | `Array.prototype.slice` (negative arguments count from the end) gives a contiguous run of the input, of length `min(end,n) - min(start,n)` for `0 <= start <= end` |
| Text.LowerChar | AINetBox/server/storage.ts:131 | lower-casing maps A-Z to a-z and leaves every other character alone |
| Text.Lower | AINetBox/server/storage.ts:131 | `toLowerCase` keeps the length and lower-cases each character on its own |
| Text.IncludesEmpty | AINetBox/server/storage.ts:136-138 | every string includes the empty query |
| Text.Includes | AINetBox/server/storage.ts:136-138 | `includes`: the query occurs at some offset of the text |
| Text.IncludesSelf | AINetBox/server/storage.ts:136 | every string includes itself |
| Text.TrimStart | AINetBox/client/src/context/ToolsContext.tsx:30 | the result is a suffix of the input; everything removed is whitespace or a line terminator, and the result does not start with one |
| Text.TrimEnd | AINetBox/client/src/context/ToolsContext.tsx:30 | the result is a prefix of the input; everything removed is whitespace or a line terminator, and the result does not end with one |
| Text.Trim | AINetBox/client/src/context/ToolsContext.tsx:30 | `trim()`: the result neither starts nor ends with whitespace or a line terminator |
| Text.TrimCuts | AINetBox/client/src/context/ToolsContext.tsx:30 | `trim()` removes a blank prefix and a blank suffix and nothing else: its result is the window of the input that starts where the leading whitespace ends, and everything after the window is whitespace |
| Text.TrimStartEmptyIff | AINetBox/client/src/context/ToolsContext.tsx:30 | stripping the front leaves nothing exactly when the input is all whitespace |
| Text.TrimEndEmptyIff | AINetBox/client/src/context/ToolsContext.tsx:30 | stripping the back leaves nothing exactly when the input is all whitespace |
| Text.LowerIdempotent | AINetBox/server/storage.ts:131 | lower-casing twice is lower-casing once |
| Text.TrimEmptyIff | AINetBox/client/src/context/ToolsContext.tsx:30 | `query.trim() === ""` holds exactly when every character is whitespace or a line terminator |
| Seeds.SeedFacts | AINetBox/server/storage.ts:161-696 | there are thirteen sample records, all rated on the 0..500 scale and each filed under a real category; the first three are featured, the next four popular |
| Seeds.SeedCategoriesListed | AINetBox/server/storage.ts:161-696 | the sample records are filed, in order, under image, text, audio, code, video, data, text, text, audio, image, video, code and data, never under the wildcard |
| Storage.SearchIgnoresCase | AINetBox/server/storage.ts:130-141 | the search is case-insensitive: queries equal up to case find the same tools |
| Storage.EmptyQueryMatches | AINetBox/server/storage.ts:130-141 | the empty query matches every tool |
| Storage.NameMatches | AINetBox/server/storage.ts:136 | a tool is found by its own name, in any case |
| Storage.MatchesQuery | AINetBox/server/storage.ts:134-139 | the search predicate of both stores: the lower-cased query occurs in the lower-cased name, the description or some tag |
| Storage.ToolsIn | AINetBox/server/storage.ts:120-128 | no category or "all" gives every tool; any other gives exactly the tools whose category string equals it, in order |
| Storage.Search | AINetBox/server/storage.ts:130-141 | exactly the tools whose lower-cased name, description or some tag contains the lower-cased query, in order; the empty query keeps all |
| Storage.Featured | AINetBox/server/storage.ts:143-146 | exactly the featured tools, in order |
| Storage.Popular | AINetBox/server/storage.ts:148-151 | exactly the popular tools, in order |
| Storage.FeaturedAreFeatured | AINetBox/server/storage.ts:143-146 | every tool in the featured listing is featured |
| Storage.PopularArePopular | AINetBox/server/storage.ts:148-151 | every tool in the popular listing is popular |
| Storage.ListingsAfterCreate | AINetBox/server/storage.ts:120-158 | a new tool joins the end of exactly the listings whose filter accepts it, and every listing keeps what it had |
| Storage.MemStorage.ToolList | AINetBox/server/storage.ts:121 | the stored tools in insertion order; the tool in place `i` has id `i + 1` |
| Storage.MemStorage.UserList | AINetBox/server/storage.ts:103 | the stored users in insertion order; the user in place `i` has id `i + 1` |
| Storage.MemStorage.constructor | AINetBox/server/storage.ts:89-95 | no users and the user counter at 1; the thirteen seeds stored with ids 1 to 13 in listing order and the tool counter at 14 |
| Storage.MemStorage.InitializeTools | AINetBox/server/storage.ts:161-702 | the sample records are created in order, numbered on from the counter |
| Storage.MemStorage.CreateTools | AINetBox/server/storage.ts:699-701 | the `forEach` loop: each record is created in turn with the next id |
| Storage.MemStorage.CreateTool | AINetBox/server/storage.ts:153-158 | the result is the record plus `id` = the counter's old value; the counter rises by exactly one; the store stays valid (ids are exactly `1 .. counter-1`, each row under its own id); the tool goes last; users untouched |
| Storage.MemStorage.CreateUser | AINetBox/server/storage.ts:108-113 | same as `createTool`, for users: id from `currentUserId`, counter rises by one, read back by `getUser`, other users unchanged, tools untouched |
| Storage.MemStorage.GetTool | AINetBox/server/storage.ts:116-118 | defined exactly for ids `1 .. currentToolId - 1`, and then it is the tool with that id; never-assigned ids give undefined |
| Storage.MemStorage.GetUser | AINetBox/server/storage.ts:98-100 | defined exactly for ids `1 .. currentUserId - 1`, and then it is the user with that id |
| Storage.MemStorage.GetUserByUsername | AINetBox/server/storage.ts:102-106 | the first-inserted user with that username, or undefined exactly when no user has it |
| Storage.MemStorage.GetAllTools | AINetBox/server/storage.ts:120-128 | every tool for no category or "all"; otherwise the in-order selection of that category's tools |
| Storage.MemStorage.SearchTools | AINetBox/server/storage.ts:130-141 | the in-order selection of the tools the search predicate accepts; all tools for the empty query |
| Storage.MemStorage.GetFeaturedTools | AINetBox/server/storage.ts:143-146 | the in-order selection of the featured tools |
| Storage.MemStorage.GetPopularTools | AINetBox/server/storage.ts:148-151 | the in-order selection of the popular tools |
| Sorting.Insert | AINetBox/client/src/components/AICatalog.tsx:46-67 | inserting one element grows the length by one |
| Sorting.InsertPermutes | AINetBox/client/src/components/AICatalog.tsx:46-67 | inserting adds exactly the one element (multiset) |
| Sorting.StableSort | AINetBox/client/src/components/AICatalog.tsx:46-67 | the reference sort keeps the length; its order, stability and permutation are the lemmas below |
| Sorting.InsertSorted | AINetBox/client/src/components/AICatalog.tsx:46-67 | insertion keeps a non-increasing sequence non-increasing |
| Sorting.StableSortSorted | AINetBox/client/src/components/AICatalog.tsx:52-67 | the comparator `key(b) - key(a)` sorts into non-increasing key order |
| Sorting.StableSortPermutes | AINetBox/client/src/components/AICatalog.tsx:46-67 | the sort is a permutation of its input |
| Sorting.InsertKeyClass | AINetBox/client/src/components/AICatalog.tsx:46-67 | insertion appends the element to its own key class and leaves the other classes alone |
| Sorting.StableSortStable | AINetBox/client/src/components/AICatalog.tsx:46-67 | the sort is stable: tools with equal keys keep their relative order |
| Sorting.InsertAt | AINetBox/client/src/components/AICatalog.tsx:46-67 | where insertion places an element: after the last element whose key is at least its own |
| Sorting.SortDescending | AINetBox/client/src/components/AICatalog.tsx:49-67 | sorting an array in place produces exactly the stable reference sort of its old contents |
| Sorting.InsertNext | AINetBox/client/src/components/AICatalog.tsx:49-67 | one pass of the in-place sort inserts the next element into the sorted prefix and leaves the rest of the array alone |
| Sorting.SortCopy | AINetBox/client/src/components/AICatalog.tsx:49 | `[...tools]` is copied into a fresh array, sorted, and the result is the reference sort |
| Catalog.DisplayedTools | AINetBox/client/src/components/AICatalog.tsx:36 | the search results when the query is non-empty, otherwise the category list |
| Catalog.PageCount | AINetBox/client/src/components/AICatalog.tsx:39 | `ceil(n / 6)`: the least page count that holds `n` tools; zero exactly for no tools |
| Catalog.TotalPages | AINetBox/client/src/components/AICatalog.tsx:39 | 0 while the list is undefined, otherwise `ceil(n / 6)` |
| Catalog.Page | AINetBox/client/src/components/AICatalog.tsx:40-43 | page `p >= 1` holds the tools from `(p-1)*6` up to `p*6`, cut at the end; at most six; empty beyond the last page |
| Catalog.PaginatedTools | AINetBox/client/src/components/AICatalog.tsx:40-43 | undefined exactly while the list is, otherwise the current page |
| Catalog.PagesPrefix | AINetBox/client/src/components/AICatalog.tsx:40-43 | the first `k` pages together are the first `6k` tools |
| Catalog.PagesCoverList | AINetBox/client/src/components/AICatalog.tsx:39-43 | pages `1 .. totalPages` concatenated give back the whole list |
| Catalog.SortTools | AINetBox/client/src/components/AICatalog.tsx:46-69 | `[]` for undefined, otherwise a stable sort of a copy by the key that `sortBy` selects |
| Catalog.SortToolsOrder | AINetBox/client/src/components/AICatalog.tsx:51-67 | a permutation ordered by rating for "rating", by score `rating + 100·isPopular` for "popularity" and every unknown key, and by the abstract time and name orders for "newest" and "a-z" |
| Catalog.RenderedIsPageReordered | AINetBox/client/src/components/AICatalog.tsx:252 | the rendered list is a reordering of the current slice, so which tools are on a page does not depend on `sortBy` |
| Catalog.RenderedTools | AINetBox/client/src/components/AICatalog.tsx:252 | as written, `sortTools(paginatedTools)`: nothing while the list is undefined, and never more than six tools |
| Catalog.SortAfterPaginationHidesBest | AINetBox/client/src/components/AICatalog.tsx:252 | a seven-tool list whose best-rated tool is last: page 1 sorted by rating does not show it |
| Catalog.RenderedToolsIntended | AINetBox/client/src/components/AICatalog.tsx:40-69 | sort the whole list, then cut the page |
| Catalog.SortedWindowsOrdered | AINetBox/client/src/components/AICatalog.tsx:40-69 | in a sorted list, every element of an earlier window outranks every element of a later one |
| Catalog.IntendedOrderAcrossPages | AINetBox/client/src/components/AICatalog.tsx:40-69 | with sort-then-paginate, every tool on an earlier page has a key at least that of every tool on a later page |
| Catalog.IntendedPagesPermute | AINetBox/client/src/components/AICatalog.tsx:39-69 | with sort-then-paginate, the pages together are a permutation of the displayed list |
| Catalog.PopularityExample | AINetBox/client/src/components/AICatalog.tsx:60-67 | two tools rated 400, only the second popular: "popularity" puts it first (score 500 against 400) |
| Catalog.PopularityScore | AINetBox/client/src/components/AICatalog.tsx:64-65 | the popularity score: `rating + (isPopular ? 100 : 0)` |
| Catalog.SortKey | AINetBox/client/src/components/AICatalog.tsx:51-67 | the key each `sortBy` value sorts by, largest first; "popularity" and every unknown value fall to the popularity score |
| Catalog.PageItemFor | AINetBox/client/src/components/AICatalog.tsx:274-320 | only a collapsible page (more than seven pages; not pages 1, 2, last-1 or last; not next to the current page) can be anything but a button; it is an ellipsis exactly when it is page 3 with current > 4 or page last-2 with current < last-3, and otherwise nothing |
| Catalog.PageBar | AINetBox/client/src/components/AICatalog.tsx:274 | one item per page `1 .. totalPages`, each as the rule decides |
| Catalog.ButtonsShown | AINetBox/client/src/components/AICatalog.tsx:274-320 | up to seven pages every page is a button; beyond that, the first two, the last two and the current page's neighbours always are |
| Catalog.AtMostTwoEllipses | AINetBox/client/src/components/AICatalog.tsx:284-297 | only pages 3 and `totalPages - 2` can be ellipses, so there are at most two |
| Catalog.PrevTarget | AINetBox/client/src/components/AICatalog.tsx:267 | `max(1, cur - 1)`: never below 1, one back from a later page |
| Catalog.NextTarget | AINetBox/client/src/components/AICatalog.tsx:326 | `min(totalPages, cur + 1)`: never past the last page, one on from an earlier page, the last page from the last page or beyond it |
| Catalog.TargetsInRange | AINetBox/client/src/components/AICatalog.tsx:261-327 | while the bar is shown and the current page is within it, both targets stay within it and move at most one page |
| Catalog.BarShown | AINetBox/client/src/components/AICatalog.tsx:261 | the bar, and with it both buttons, exists only for more than one page |
| Catalog.StalePage | AINetBox/client/src/components/AICatalog.tsx:252-327 | a current page beyond the last renders no tools; "next" is enabled there and jumps to the last page; "previous" steps back one page |
| Catalog.CatalogView.constructor | AINetBox/client/src/components/AICatalog.tsx:13-14 | the component starts on page 1, sorted by "popularity" |
| Catalog.CatalogView.HandlePageChange | AINetBox/client/src/components/AICatalog.tsx:71-75 | the page changes to the one given and the sort stays |
| Catalog.CatalogView.SetSortBy | AINetBox/client/src/components/AICatalog.tsx:193 | the sort changes and the page stays |
| Catalog.CatalogView.ClickPrev | AINetBox/client/src/components/AICatalog.tsx:267-268 | only while the bar is shown; disabled on page 1; otherwise goes to the previous target |
| Catalog.CatalogView.ClickNext | AINetBox/client/src/components/AICatalog.tsx:326-327 | only while the bar is shown; disabled on the last page; otherwise goes to the next target |
| Catalog.CatalogView.Render | AINetBox/client/src/components/AICatalog.tsx:252 | renders `sortTools(paginatedTools)` for the current page and sort |
| ToolsContext.ToolsState.constructor | AINetBox/client/src/context/ToolsContext.tsx:17-18 | starts with category "all" and an empty query |
| ToolsContext.ToolsState.SetCategory | AINetBox/client/src/context/ToolsContext.tsx:17 | sets the category and nothing else |
| ToolsContext.ToolsState.SetSearchQuery | AINetBox/client/src/context/ToolsContext.tsx:18 | sets the query and nothing else |
| ToolsContext.ToolsState.RunEffects | AINetBox/client/src/context/ToolsContext.tsx:23-26 | the effect clears the query exactly when the category differs from the one it last ran for; otherwise the query is kept |
| ToolsContext.ToolsState.SearchTools | AINetBox/client/src/context/ToolsContext.tsx:29-47 | a blank query sets the query to "" and keeps the category; a non-blank one is stored verbatim (untrimmed), and the category becomes "all" |
| ToolsContext.ToolsState.Search | AINetBox/client/src/context/ToolsContext.tsx:23-41 | search plus commit: a non-blank query survives only if the category was already "all"; otherwise it ends up "" |
| ToolsContext.ToolsState.SearchIntended | AINetBox/client/src/context/ToolsContext.tsx:23-41 | the corrected search: a non-blank query always survives and the category ends up "all" |
| ToolsContext.ToolsState.SelectCategory | AINetBox/client/src/context/ToolsContext.tsx:23-26 | picking a different category clears the search; picking the same one keeps it |
| ToolsContext.LostSearchScenario | AINetBox/client/src/context/ToolsContext.tsx:23-41 | select "image", then search "ai": the query ends up empty |
| ToolsContext.KeptSearchScenario | AINetBox/client/src/context/ToolsContext.tsx:23-41 | the same steps with the corrected search keep "ai" |
| Auth.RequireAuth | AINetBox/server/middleware/auth.ts:4-11 | `next` is called exactly when the header is present and non-empty; otherwise it is 401 "Authentication required" and `next` is not called |
| Auth.ValueNotValidated | AINetBox/server/middleware/auth.ts:7-10 | the header's value is not checked: any two non-empty values are treated alike |
| Routes.JoinedCategoryValues | AINetBox/server/routes.ts:22 | the values joined with ", " read `text, image, audio, video, code, data, all` |
| Routes.InvalidCategoryMessage | AINetBox/server/routes.ts:21-23 | the 400 message lists the seven values |
| Routes.ListTools | AINetBox/server/routes.ts:13-31 | an absent or empty category calls `getAllTools(undefined)`; one of the seven values, "all" included, is passed on; anything else is 400 without a storage call; a throw is 500 "Failed to retrieve tools"; otherwise 200 with the listing |
| Routes.ListToolsRoute | AINetBox/server/routes.ts:12 | `/api/tools` runs `requireAuth` first: a rejection is its 401 without a storage call, otherwise the handler runs |
| Routes.SearchRoute | AINetBox/server/routes.ts:35-49 | a missing or empty `q` is 400 "Search query is required" and makes no storage call; any other string, whitespace included, goes to `searchTools` unchanged; a throw (a non-string `q` throws too) is 500 "Failed to search tools" |
| Routes.ToolByIdRoute | AINetBox/server/routes.ts:52-69 | NaN is 400 "Invalid tool ID"; otherwise `getTool(id)` is called; 200 with that tool exactly when the id was assigned, else 404 "Tool not found"; a throw is 500 |
| Routes.NonPositiveIdNotFound | AINetBox/server/routes.ts:54-62 | nothing rejects ids that are zero or negative: they are looked up and give 404 |
| Routes.FeaturedRoute | AINetBox/server/routes.ts:72-80 | 200 with the featured listing, all of it featured, or 500 "Failed to retrieve featured tools" |
| Routes.PopularRoute | AINetBox/server/routes.ts:83-91 | 200 with the popular listing, all of it popular, or 500 "Failed to retrieve popular tools" |
| Routes.Dispatch | AINetBox/server/routes.ts:12-83 | routes are tried in registration order: `/api/tools` is the listing, `/api/tools/search` the search, any other single non-empty segment under `/api/tools/` the `:id` route, and `/api/featured-tools` and `/api/popular-tools` their own handlers; every other path matches none |
| Routes.Handle | AINetBox/server/routes.ts:12-91 | each matched path gets its own handler's outcome (the listing behind `requireAuth`, the search on `q`, the by-id route on the parsed segment, featured, popular); only `/api/tools` can answer 401; only the by-id route calls `getTool`; unmatched paths are not handled here |
| Routes.SearchNeverById | AINetBox/server/routes.ts:35-52 | the path `/api/tools/search` never reaches the by-id handler, whatever `parseInt` would make of "search" |
| Routes.OnlyListingNeedsAuth | AINetBox/server/routes.ts:12-83 | on every route but `/api/tools`, the outcome does not depend on the auth header |

## Left out

- Unicode `toLowerCase`: lower-casing is ASCII-only. Non-ASCII letters are left as they are.
- `parseInt`: the parsed id is an input (`None` for NaN). Hex prefixes and partial-prefix parses are not modelled.
- `Date.now()` and `new Date(...).toISOString()` in the seed records: `updatedAt` comes from a `stamp` parameter.
- The "newest" and "a-z" comparators: `Date` parsing and `localeCompare` are abstract integer keys (`timeOf`, `nameRank`). A NaN time, which would make the comparator inconsistent, is not modelled.
- Catalog.SortToolsOrder: "a-z" is stated over `nameRank` ties, not over `localeCompare` results, because the Unicode collation is not modelled.
- Seeds.SeedFacts: it states the count, the rating scale, the categories and the featured/popular flags. The other seed fields are given only by the records themselves.
- Promises and `async`: storage calls are synchronous. A storage exception is the `fails` input of each handler; the one throw the store makes itself, `query.toLowerCase()` on a non-string `q`, is modelled by `Routes.SearchRoute` as a 500.
- JavaScript numbers are doubles. Ids, counters and ratings are unbounded integers here, so precision loss past 2^53 is not modelled.
- The `username` column is unique in the database. `MemStorage.createUser` does not check it, and neither does the model.
- `DatabaseStorage`: it is a pass-through to the ORM. Only its search predicate is modelled, as `Storage.MatchesQuery`. The database module is not part of this model.
- The exported `storage` is `new DatabaseStorage()` (storage.ts:705), but the handlers in `routes.dfy` answer over `MemStorage`. So the ids and the listing order in their 200 bodies are MemStorage's: a counter and insertion order. The database's `select()` has no `ORDER BY` (storage.ts:46, 56, 69, 73) and the database allocates ids itself, so neither is promised for the deployed store.
- The current page is never reset when the shown list gets shorter. `Catalog.StalePage` states what the component then does (empty grid, "next" to the last page, "previous" one back). `Catalog.TargetsInRange` covers only a current page inside the bar.
- zod/drizzle runtime validation (`createInsertSchema`) is not modelled. The record shapes and defaults are.
- React rendering, react-query fetching and caching, framer-motion, the toast and `invalidateQueries` in `searchTools`, and `window.scrollTo` are left out. The client's fetches are inputs to `Catalog.DisplayedTools`.
- Express routing details are left out: case-insensitive matching, trailing slashes and URL decoding. A path is a sequence of decoded segments, and query values are absent, a string, or structured (array or object).
- `console.error` logging in the handlers is left out.
- `seed.ts`, the three.js background, the presentational components, translations and `AuthContext` are not part of this model.

## Findings

| source | as written | input that shows it | evidently intended | confidence | as-written member | corrected member |
|---|---|---|---|---|---|---|
| AINetBox/client/src/components/AICatalog.tsx:40-43, 252 | the list is cut into pages first, and only the current page is sorted | seven tools rated 100, 100, 100, 100, 100, 100, 500 with `sortBy = "rating"`: page 1 never shows the 500-rated tool | sort the whole displayed list, then paginate, so that the order runs across pages | not executed, medium | Catalog.SortAfterPaginationHidesBest | Catalog.IntendedOrderAcrossPages |
| AINetBox/client/src/context/ToolsContext.tsx:23-26, 35-41 | `searchTools` stores the query and then resets the category to "all"; that category change fires the effect, which clears the query just stored | select "image", then search "ai": the query ends up "" | the search survives and its results are shown under "all" | not executed, high | ToolsContext.LostSearchScenario | ToolsContext.ToolsState.SearchIntended |
