# Tinda marketplace: a verified model of its search and its client-side state

Tinda is a Next.js marketplace where buyers browse the stalls of Iloilo's
public markets and vendors manage their stalls, products and orders. This
project models the core of its behaviour in Dafny and proves properties of
that model:

- **Search.**
  - `SearchService.searchAll` (lib/services/searchService.ts) is modelled with its five-minute result cache, its two SQL queries and its relevance scoring. The queries are modelled as filters over table rows. The service also merges, sorts and truncates the results.
  - The `/search/suggest` route handler (app/search/suggest/route.ts) is modelled.
  - So is the typeahead `SearchBar` component (components/search/SearchBar.tsx). It covers the debounce timer, request supersession with an abort controller, the keyboard navigation and the routes of selected suggestions.
- **Shared state.**
  - The app context (lib/context.tsx) is modelled: the user, the role, the market location and the shopping cart.
  - So is the Tindera chat hook (hooks/useTinderaChat.ts), with its keyword-routed canned replies.
- **Vendor screens.**
  - The all-orders view: its filters, its query parameters and its pagination.
  - The products page: the name search, deletion, the stock colours and the markers.
  - The product listing cards: the edit form, the price pattern, saving and deleting.
  - The orders table, with its status colours.
  - The create-stall dialog: the file checks, the guards, the multipart form and the error messages.
  - The add-product and edit-product dialogs.
- **Buyer screens.**
  - The orders page labels and the order detail dialog.
  - The vendor card image address and the market location selector.
  - The loyalty widget and the product filter panel.
  - The sign-up page.

Each component that keeps React state is a Dafny `class` whose fields are that
state. Its handlers are methods whose `modifies` clauses and postconditions
state the whole new state. The pure computations (scores, labels, messages,
request bodies and checks) are functions with named results. Lemmas relate
these functions to each other: round trips, idempotence, commutation,
stability and boundaries. Browser storage, timers, the network and the
database are parameters of the methods. The values the browser or the
server hand back become datatypes, such as `FetchOutcome`, `StallsReply`
and `PutReply`.

Modules: `Common` (Option, Result and JavaScript truthiness of text), `Text`
(ASCII case mapping, search, trimming, `parseInt`/`Number` on decimal text),
`Ranking`, `SearchCache`, `SuggestRoute`, `Typeahead`, `AppContext`,
`TinderaChat`, `AllOrders`, `VendorProducts`, `ProductListing`,
`OrderStatus`, `OrderDetail`, `VendorCard`, `LocationSelector`, `Loyalty`,
`ProductFilter`, `Signup`, `CreateStall`, `AddProduct`, `EditProduct`.

## Model

| member | source | states |
|---|---|---|
| Common.OrElse | components/search/SearchBar.tsx:69 | `a \|\| b` on optional text: the value when present and non-empty, else the fallback |
| Text.Lower | lib/services/searchService.ts:21 | `toLowerCase` keeps the length and maps every character through the ASCII lower-case map |
| Text.Upper | components/buyer/loyalty-widget.tsx:48 | `toUpperCase` keeps the length and maps every character through the ASCII upper-case map |
| Text.LowerOfUpper | hooks/useTinderaChat.ts:33 | lower-casing an upper-cased text equals lower-casing the text |
| Text.LowerIdempotent | lib/services/searchService.ts:21 | lower-casing twice is lower-casing once |
| Text.StartsWith | lib/services/searchService.ts:51 | `LIKE 'q%'` on a lower-cased column; no contract of its own: PrefixIsContained relates it to Contains |
| Text.Contains | lib/services/searchService.ts:50 | `LIKE '%q%'` on a lower-cased column; no contract of its own: ContainsAt gives an occurrence as a witness and ContainsLength bounds the length |
| Text.ContainsAt | lib/services/searchService.ts:50 | a text that occurs at some position is contained (`LIKE '%q%'`) |
| Text.PrefixIsContained | lib/services/searchService.ts:50-51 | a prefix (`LIKE 'q%'`) is also contained (`LIKE '%q%'`) |
| Text.ContainsLength | lib/services/searchService.ts:50 | a contained text is no longer than the text containing it |
| Text.IndexOf | components/location-selector.tsx:18 | the first position of a character, or -1 exactly when it does not occur |
| Text.ReplaceFirst | app/orders/page.tsx:32 | `replace("-", " ")` changes only the first hyphen and keeps every other character |
| Text.ReplaceAll | components/buyer/vendor-card.tsx:23 | `replace(/\\/g, '/')` changes every backslash and nothing else |
| Text.TrimStart | components/location-selector.tsx:24 | the result is a suffix of the input whose dropped characters are all whitespace |
| Text.TrimEnd | components/location-selector.tsx:24 | the result is a prefix of the input whose dropped characters are all whitespace |
| Text.Trim | components/location-selector.tsx:24 | `trim()` as TrimEnd of TrimStart; no contract of its own: TrimSlice states it is a slice with only whitespace dropped, TrimEmpty when it is empty |
| Text.TrimSlice | components/location-selector.tsx:24 | `trim()` is a contiguous slice with no whitespace at either end, and only whitespace was dropped |
| Text.TrimEmpty | components/vendor/add-product-modal.tsx:128 | trimming gives "" exactly when the text is all whitespace |
| Text.DigitChar | hooks/useTinderaChat.ts:53 | a digit below ten becomes the character of that digit |
| Text.Decimal | hooks/useTinderaChat.ts:53 | `String(n)` of a natural number is non-empty decimal digits without a leading zero |
| Text.IntText | components/search/SearchBar.tsx:119 | `String(n)` of an integer is its decimal digits, with a minus sign before a negative one |
| Text.DecimalValue | hooks/useTinderaChat.ts:53 | reading the digits of `String(n)` gives back n |
| Text.DigitPrefix | components/buyer/product-filter.tsx:75 | the longest run of digits at the start, stopping at the first non-digit |
| Text.ParseInt | components/buyer/product-filter.tsx:75 | `parseInt` for optional whitespace, a sign and decimal digits; no contract of its own: ParseIntOr states the `\|\|` fallback over it and ParseIntDecimal the round trip |
| Text.ParseIntOr | components/buyer/product-filter.tsx:75 | `parseInt(text) \|\| fallback`: NaN and 0 give the fallback, any other value is kept |
| Text.DigitPrefixOfDigits | components/buyer/product-filter.tsx:75 | a text of digits only is read to its end |
| Text.ParseIntDecimal | components/buyer/product-filter.tsx:75 | `parseInt(String(n)) == n` for every natural n |
| Text.NumberOf | components/vendor/add-product-modal.tsx:143 | `Number` of a decimal text; no contract of its own: NumberOfDecimal states the round trip |
| Text.NumberOfDecimal | components/vendor/add-product-modal.tsx:143 | `Number(String(n)) == n` for every natural n |
| Ranking.LikeAnywhere | lib/services/searchService.ts:50-53 | `LOWER(col) LIKE '%q%'`, false on NULL; no contract of its own: StallScoreTiers and ItemScoreTiers state the arms built on it |
| Ranking.LikePrefix | lib/services/searchService.ts:51 | `LOWER(col) LIKE 'q%'`, false on NULL; no contract of its own: PrefixArmShadowed shows it never decides a score |
| Ranking.StallScore | lib/services/searchService.ts:49-55 | the stall CASE expression arm by arm; no contract of its own: StallScoreTiers states its value on admitted rows |
| Ranking.StallWhere | lib/services/searchService.ts:63-66 | the stall WHERE clause; no contract of its own: StallCandidatesExact states that the candidates are exactly these rows |
| Ranking.ItemScore | lib/services/searchService.ts:97-103 | the item CASE expression arm by arm; no contract of its own: ItemScoreTiers states its value on admitted rows |
| Ranking.ItemWhere | lib/services/searchService.ts:85-116 | the item WHERE clause with the optional in-stock condition; no contract of its own: ItemCandidatesExact and StockFilterRestricts state what it admits |
| Ranking.StallResult | lib/services/searchService.ts:73-81 | the `rows.map` of searchStalls; no contract of its own: StallCandidatesExact states the kind and score of every result |
| Ranking.ItemResult | lib/services/searchService.ts:123-134 | the `rows.map` of searchItems; no contract of its own: ItemCandidatesExact states the kind, score and stock of every result |
| Ranking.PrefixArmShadowed | lib/services/searchService.ts:50-51 | whenever the starts-with arm (80) could match, the contains arm (100) before it already matches |
| Ranking.StallScoreTiers | lib/services/searchService.ts:49-55 | an admitted stall scores 100, 60 or 40: 100 iff the name contains q, 60 iff only the category does, 40 iff only the description does |
| Ranking.ItemScoreTiers | lib/services/searchService.ts:97-103 | an admitted item scores 100, 60 or 40: 100 iff the item name contains q, 60 iff only the description does, 40 iff only the stall name does |
| Ranking.ExactStallNameScoresTop | lib/services/searchService.ts:50 | a stall named like the query, ignoring case, is admitted and scores 100 |
| Ranking.StallCandidates | lib/services/searchService.ts:63-81 | the admitted stall rows as results in table order, no more results than rows; exactness by StallCandidatesExact |
| Ranking.StallCandidatesExact | lib/services/searchService.ts:63-81 | exactly the rows the WHERE clause admits, as stall results scored 100, 60 or 40 |
| Ranking.ItemCandidates | lib/services/searchService.ts:112-134 | the admitted item rows as results in table order, no more results than rows; exactness by ItemCandidatesExact |
| Ranking.ItemCandidatesExact | lib/services/searchService.ts:112-134 | exactly the admitted rows, as item results; without out-of-stock items every result is in stock |
| Ranking.InStockOnly | lib/services/searchService.ts:85 | a sub-multiset of its input in which every result is in stock |
| Ranking.StockFilterRestricts | lib/services/searchService.ts:85 | the in-stock candidates are the full candidates filtered on stock, so they are a sub-multiset |
| Ranking.Insert | lib/services/searchService.ts:30 | one step of the descending sort: one element longer, headed by the new element or the old head; sorted by InsertSorted, a permutation by InsertPermutes, stable by InsertStable |
| Ranking.SortByScore | lib/services/searchService.ts:30 | `sort` by descending score keeps the length; sorted and a permutation by SortByScoreSorted, stable by SortStable |
| Ranking.InsertSorted | lib/services/searchService.ts:30 | inserting into a score-sorted list keeps it sorted |
| Ranking.InsertPermutes | lib/services/searchService.ts:30 | inserting adds exactly the new element to the multiset of results |
| Ranking.SortByScoreSorted | lib/services/searchService.ts:30 | the sort yields a permutation in non-increasing relevance order |
| Ranking.InsertStable | lib/services/searchService.ts:30 | insertion puts the new element after every equal-score element already present |
| Ranking.SortStable | lib/services/searchService.ts:30 | for every score, the results with that score keep their relative order |
| Ranking.Take | lib/services/searchService.ts:31 | `slice(0, n)` is a prefix of length min(n, length) |
| Ranking.SearchStalls | lib/services/searchService.ts:41-82 | searchStalls: the admitted rows by descending score, at most 20; no contract of its own: SearchStallsBounds states the bound, the order and the origin |
| Ranking.SearchItems | lib/services/searchService.ts:84-135 | searchItems: the admitted item rows by descending score, at most 20; no contract of its own: RankedResultsBounds states what reaches the caller |
| Ranking.SearchStallsBounds | lib/services/searchService.ts:67-68 | a query returns at most 20 rows, sorted, drawn from the admitted candidates |
| Ranking.TakeSorted | lib/services/searchService.ts:31 | truncating a sorted list keeps it sorted and a sub-multiset |
| Ranking.Merge | lib/services/searchService.ts:29-31 | concatenation, descending sort and `slice(0, 10)`; no contract of its own: MergeBounds, MergeKeepsBest and MergeTieOrder state its properties |
| Ranking.MergeBounds | lib/services/searchService.ts:29-31 | the merge has min(10, stalls + items) results, sorted, drawn from the two lists |
| Ranking.MergeKeepsBest | lib/services/searchService.ts:29-31 | no result dropped by the truncation scores higher than a result kept |
| Ranking.MergeTieOrder | lib/services/searchService.ts:29-30 | among equal scores the merge keeps stalls before items, each in query order |
| Ranking.RankedResults | lib/services/searchService.ts:21-31 | what searchAll computes on a cache miss; no contract of its own: RankedResultsBounds and RankedResultsIgnoreCase state its properties |
| Ranking.RankedResultsBounds | lib/services/searchService.ts:21-31 | a search gives at most 10 sorted results scored 100/60/40, all in stock unless out-of-stock items are asked for |
| Ranking.RankedResultsIgnoreCase | lib/services/searchService.ts:21 | matching uses the lower-cased query, so "Toma" and "toma" rank the same results |
| SearchCache.CacheKey | lib/services/searchService.ts:15 | the key starts with the raw query and ends with ":true" or ":false" |
| SearchCache.CacheKeyInjective | lib/services/searchService.ts:15 | different (query, flag) pairs never share a cache entry |
| SearchCache.FlagLetter | lib/services/searchService.ts:15 | the flag can be read back from the key's second-to-last letter |
| SearchCache.CaseSensitiveKeys | lib/services/searchService.ts:15-21 | "Toma" and "toma" are separate cache entries although they match alike |
| SearchCache.Fresh | lib/services/searchService.ts:17 | `Date.now() - cached.timestamp < CACHE_TTL`; no contract of its own: Lookup and TtlBoundary state when an entry is served |
| SearchCache.Lookup | lib/services/searchService.ts:16-19 | an entry is served iff it exists and is younger than 300000 ms, and then unchanged |
| SearchCache.TtlBoundary | lib/services/searchService.ts:6-17 | an entry is served at 299999 ms and not at 300000 ms |
| SearchCache.SearchStep | lib/services/searchService.ts:12-39 | one call of searchAll on a given cache; no contract of its own: ShortQueryDoesNothing, CacheHitIff, FailureLeavesCache, CacheWrittenOnlyOnSuccess, RepeatWithinTtlHits, ExpiredEntryRecomputed and StepKeepsConsistent state its behaviour |
| SearchCache.ShortQueryDoesNothing | lib/services/searchService.ts:13 | a query under two characters returns [] with no cache or database access |
| SearchCache.CacheHitIff | lib/services/searchService.ts:16-19 | the database is queried iff there is no fresh entry for the key |
| SearchCache.FailureLeavesCache | lib/services/searchService.ts:35-38 | a database failure is rethrown and leaves the cache unchanged |
| SearchCache.CacheWrittenOnlyOnSuccess | lib/services/searchService.ts:33 | the cache changes only when a query succeeds, and then only at the key, with the returned results |
| SearchCache.RepeatWithinTtlHits | lib/services/searchService.ts:16-33 | repeating a search within five minutes returns the same results without a query |
| SearchCache.ExpiredEntryRecomputed | lib/services/searchService.ts:17-33 | at five minutes or later the entry is recomputed and overwritten |
| SearchCache.StepKeepsConsistent | lib/services/searchService.ts:29-33 | if every cached list is at most 10 long and sorted, that stays so after a search, and the result is too |
| SearchCache.SearchService.constructor | lib/services/searchService.ts:8-10 | the cache starts empty |
| SearchCache.SearchService.SearchAll | lib/services/searchService.ts:12-39 | the result, whether the database was queried and the new cache are those of one search step; a success has at most 10 sorted results |
| SuggestRoute.IncludeFlag | app/search/suggest/route.ts:10 | out-of-stock items are included only for the exact text "true" |
| SuggestRoute.IncludeFlagIsExact | app/search/suggest/route.ts:10 | "true" turns the flag on; a missing parameter, "True", "1" and "" leave it off |
| SuggestRoute.Precheck | app/search/suggest/route.ts:12-21 | a missing or empty q is a 400; a one-character q is an empty 200; the service is consulted iff q has two or more characters |
| SuggestRoute.EmptyQueryIsRefused | app/search/suggest/route.ts:12-21 | "" is refused with 400 while "a" is answered with 200 |
| SuggestRoute.Details | app/search/suggest/route.ts:33 | the details of a failure are the error's message, or "Unknown error" for a non-Error |
| SuggestRoute.Reply | app/search/suggest/route.ts:23-35 | a success answers 200 with the results, the query and their count; a failure answers 500 with "Search failed" and details |
| SuggestRoute.LegacyReply | lib/services/searchService.ts:163-175 | the copy of the handler kept in the service file answers a failure with 500 and no details |
| SuggestRoute.LegacyOmitsDetails | lib/services/searchService.ts:170-175 | the two handlers agree on success and differ on failure only by the details |
| SuggestRoute.Get | app/search/suggest/route.ts:6-37 | the early answers leave the cache alone; otherwise the answer is built from one search step; a 200 never counts more than 10 results |
| Typeahead.StepDown | components/search/SearchBar.tsx:95-97 | ArrowDown moves one step down, stays on the last suggestion, and stays within [-1, count-1] |
| Typeahead.StepUp | components/search/SearchBar.tsx:101 | ArrowUp moves one step up and stops at -1 (nothing selected) |
| Typeahead.NavigationClamped | components/search/SearchBar.tsx:95-101 | both keys keep the selection within [-1, count-1], with no wrap-around at either end |
| Typeahead.PressDownReachesLast | components/search/SearchBar.tsx:95-97 | pressing ArrowDown k times reaches min(index + k, last) |
| Typeahead.RouteFor | components/search/SearchBar.tsx:119 | a stall goes to `/stalls/{id}` and an item to `/items/{id}` |
| Typeahead.RoutesDistinguishKinds | components/search/SearchBar.tsx:119 | a stall and an item never share a route |
| Typeahead.StallRouteInjective | components/search/SearchBar.tsx:119 | different stalls go to different pages |
| Typeahead.FailureMessage | components/search/SearchBar.tsx:67-80 | a non-2xx answer shows its `error` field or "Search failed"; a rejection shows its message |
| Typeahead.SearchBar.Live | components/search/SearchBar.tsx:55-56 | at most one request in flight is not aborted, and it is the controller's |
| Typeahead.SearchBar.constructor | components/search/SearchBar.tsx:18-42 | the initial state, with the mount effect's timer pending for "" |
| Typeahead.SearchBar.SetQuery | components/search/SearchBar.tsx:30-134 | typing sets the query and restarts the 300 ms timer when the query changed |
| Typeahead.SearchBar.Fetch | components/search/SearchBar.tsx:54-59 | a new request aborts the previous controller, becomes the controller, and turns loading on |
| Typeahead.SearchBar.TimerElapsed | components/search/SearchBar.tsx:31-39 | a query of two or more characters starts a request; a shorter one clears the suggestions, the panel and the error without aborting anything |
| Typeahead.SearchBar.Settle | components/search/SearchBar.tsx:61-86 | loading ends on every path; a success shows its results and a failure its message; an aborted request changes nothing else, except a non-2xx answer that arrived before the abort, which shows "Search failed" and empties the list |
| Typeahead.SearchBar.Select | components/search/SearchBar.tsx:114-121 | selecting takes the suggestion's name as the query, closes the panel and routes to its page |
| Typeahead.SearchBar.KeyDown | components/search/SearchBar.tsx:89-112 | keys act only while open: ArrowDown/ArrowUp step, Enter selects the highlighted suggestion, Escape closes |
| Typeahead.SearchBar.Hover | components/search/SearchBar.tsx:175 | hovering a suggestion highlights it |
| Typeahead.SearchBar.Focus | components/search/SearchBar.tsx:136 | focus reopens the panel iff there are suggestions |
| Typeahead.SearchBar.ClickOutside | components/search/SearchBar.tsx:44-52 | a click outside closes the panel and changes nothing else |
| Typeahead.SearchBar.Clear | components/search/SearchBar.tsx:145-154 | the clear button empties the query, the suggestions, the panel and the error |
| Typeahead.StaleSuccessAfterShrink | components/search/SearchBar.tsx:31-75 | a request for "ab" that succeeds after the query shrank to "a" still opens the panel with its results |
| Typeahead.AbortedErrorStillShown | components/search/SearchBar.tsx:55-86 | a superseded request whose non-2xx answer arrived before the abort still shows "Search failed" and closes the list while the newer request is in flight |
| Typeahead.AbortedRequestEndsLoading | components/search/SearchBar.tsx:55-86 | an aborted request's late `finally` turns loading off while the newer request is still in flight |
| AppContext.AddQuantity | lib/context.tsx:88 | every entry of the product gains the quantity; all other entries and fields are unchanged |
| AppContext.SetQuantity | lib/context.tsx:102 | every entry of the product takes the quantity; all other entries and fields are unchanged |
| AppContext.Without | lib/context.tsx:95 | the entries for every other product, in order |
| AppContext.AddItem | lib/context.tsx:84-92 | an existing product is merged into its entry; a new product is appended |
| AppContext.UpdateQuantity | lib/context.tsx:98-104 | a quantity of zero or less removes the product; a positive one sets it |
| AppContext.WithoutConcat | lib/context.tsx:95 | removal distributes over concatenation |
| AppContext.WithoutAddQuantity | lib/context.tsx:88-95 | adding to one product and then removing it is just removing it |
| AppContext.WithoutSetQuantity | lib/context.tsx:95-102 | setting one product's quantity and then removing it is just removing it |
| AppContext.WithoutTwice | lib/context.tsx:95 | removing twice is removing once |
| AppContext.OthersUntouched | lib/context.tsx:84-104 | add, remove and update leave every other product's entries as they were |
| AppContext.RemoveLeavesNone | lib/context.tsx:94-96 | after removal no entry of that product is left |
| AppContext.AddExistingMerges | lib/context.tsx:86-88 | adding a product already present keeps the length and adds the quantity to its entry |
| AppContext.UpdateSetsQuantity | lib/context.tsx:102 | a positive update gives the product's entry the new quantity and keeps its other fields |
| AppContext.UniqueAddItem | lib/context.tsx:84-92 | adding keeps product ids unique |
| AppContext.UniqueWithout | lib/context.tsx:95 | removing keeps product ids unique |
| AppContext.UniqueUpdate | lib/context.tsx:98-104 | updating keeps product ids unique |
| AppContext.AppState.constructor | lib/context.tsx:30-34 | a visitor with no user, role or location and an empty cart |
| AppContext.AppState.Login | lib/context.tsx:57-69 | the mock user of the role is logged in, whatever the credentials; the cart is kept |
| AppContext.AppState.Logout | lib/context.tsx:71-77 | back to a visitor with no user or role and an empty cart |
| AppContext.AppState.SetSelectedLocation | lib/context.tsx:79-82 | the location is set and nothing else changes |
| AppContext.AppState.AddToCart | lib/context.tsx:84-92 | the cart becomes the merged cart, and its product ids stay unique |
| AppContext.AppState.RemoveFromCart | lib/context.tsx:94-96 | the cart loses that product's entries |
| AppContext.AppState.UpdateCartQuantity | lib/context.tsx:98-104 | the cart becomes the updated cart, and its product ids stay unique |
| AppContext.AppState.ClearCart | lib/context.tsx:106 | the cart is emptied and nothing else changes |
| TinderaChat.Group | hooks/useTinderaChat.ts:33-46 | the keyword group that answers, one of six |
| TinderaChat.GroupReply | hooks/useTinderaChat.ts:34-45 | the reply text of each keyword group and the default; no contract of its own: Reply states which group answers |
| TinderaChat.Reply | hooks/useTinderaChat.ts:25-47 | a message that mentions gulay or vegetable gets the vegetable reply; otherwise presyo or price gets the price reply; and so on down the groups |
| TinderaChat.VegetablesBeforePrices | hooks/useTinderaChat.ts:34-37 | a message that names both a price and gulay gets the vegetable reply |
| TinderaChat.ReplyIgnoresCase | hooks/useTinderaChat.ts:33 | a message and its upper-cased form get the same reply |
| TinderaChat.Chat.constructor | hooks/useTinderaChat.ts:13-22 | the greeting alone, not loading |
| TinderaChat.Chat.Send | hooks/useTinderaChat.ts:50-59 | the user's message is appended as typed and loading turns on |
| TinderaChat.Chat.ReplyArrives | hooks/useTinderaChat.ts:61-75 | the reply to the oldest outstanding message is appended and loading turns off |
| TinderaChat.Chat.AddMessage | hooks/useTinderaChat.ts:49-78 | a whole exchange appends the message and its reply and keeps the earlier messages |
| TinderaChat.Chat.ClearMessages | hooks/useTinderaChat.ts:80-90 | the list goes back to the greeting alone |
| AllOrders.AddFilter | components/vendor/all-orders.tsx:60-64 | a new non-empty filter is appended, otherwise nothing changes; no empty or duplicate filter ever appears |
| AllOrders.RemoveFilter | components/vendor/all-orders.tsx:66-68 | the filter is gone and every other filter is kept |
| AllOrders.RemoveFilterConcat | components/vendor/all-orders.tsx:67 | removal distributes over concatenation |
| AllOrders.RemoveAbsentFilter | components/vendor/all-orders.tsx:67 | removing an absent filter changes nothing |
| AllOrders.AddThenRemove | components/vendor/all-orders.tsx:60-68 | adding a new filter and removing it gives back the list |
| AllOrders.RemoveKeepsClean | components/vendor/all-orders.tsx:66-68 | removal keeps the filters free of "" and duplicates |
| AllOrders.Params | components/vendor/all-orders.tsx:42-50 | a stall id is sent iff a stall is chosen, and the other parameters are the state |
| AllOrders.PreviousEnabled | components/vendor/all-orders.tsx:162 | Previous is enabled iff `page > 1`; no contract of its own: AllOrdersView.Previous states its effect |
| AllOrders.NextEnabled | components/vendor/all-orders.tsx:169 | Next is enabled iff `page * limit < total`; no contract of its own: NextIffMorePages states it means a further page exists |
| AllOrders.PageCount | components/vendor/all-orders.tsx:167 | `ceil(total / limit)`: enough pages for every order, and no more |
| AllOrders.NextIffMorePages | components/vendor/all-orders.tsx:167-170 | Next is enabled iff the page is before the last page |
| AllOrders.AllOrdersView.constructor | components/vendor/all-orders.tsx:21-28 | newest first, 10 per page, no stall, no filters, page 1, no orders |
| AllOrders.AllOrdersView.HandleAddFilter | components/vendor/all-orders.tsx:60-64 | the filters become AddFilter of the old ones and the rest is kept |
| AllOrders.AllOrdersView.HandleRemoveFilter | components/vendor/all-orders.tsx:66-68 | the filters become RemoveFilter of the old ones and the rest is kept |
| AllOrders.AllOrdersView.HandleClearFilters | components/vendor/all-orders.tsx:70-72 | the filters are emptied and the rest is kept |
| AllOrders.AllOrdersView.SetLimit | components/vendor/all-orders.tsx:97 | the limit is set to one of the offered choices and the page is kept |
| AllOrders.AllOrdersView.SetStall | components/vendor/all-orders.tsx:110 | the stall is set, and the query has a stall id iff it is not "" |
| AllOrders.AllOrdersView.ReceiveTotal | components/vendor/all-orders.tsx:54 | the total is set and the page is kept |
| AllOrders.AllOrdersView.Previous | components/vendor/all-orders.tsx:161-164 | the page goes back one only when it is past page 1 |
| AllOrders.AllOrdersView.Next | components/vendor/all-orders.tsx:168-170 | the page goes forward one only when more orders remain, and never past the last page |
| VendorProducts.Matches | app/vendor/products/page.tsx:49 | the lower-cased name contains the lower-cased term; no contract of its own: Filtered keeps exactly the matching products |
| VendorProducts.Filtered | app/vendor/products/page.tsx:49 | exactly the products whose lower-cased name contains the lower-cased term |
| VendorProducts.FilteredConcat | app/vendor/products/page.tsx:49 | filtering distributes over concatenation |
| VendorProducts.EmptyTermKeepsAll | app/vendor/products/page.tsx:49 | an empty search shows every product |
| VendorProducts.FilteredIgnoresCase | app/vendor/products/page.tsx:49 | the term's case does not matter |
| VendorProducts.WithoutId | app/vendor/products/page.tsx:53 | exactly the products with another id, in order |
| VendorProducts.WithoutIdConcat | app/vendor/products/page.tsx:53 | deletion distributes over concatenation |
| VendorProducts.WithoutAbsentId | app/vendor/products/page.tsx:53 | deleting an absent id changes nothing |
| VendorProducts.DeleteThenFilter | app/vendor/products/page.tsx:49-53 | deleting and then searching is searching and then deleting |
| VendorProducts.StockColor | app/vendor/products/page.tsx:130-136 | red iff out of stock, amber iff low, green iff in stock |
| VendorProducts.StockMarker | app/vendor/products/page.tsx:138-139 | ⚠️ iff 0 < stock < 10, ❌ iff stock is 0, nothing otherwise |
| VendorProducts.StockBand | app/vendor/products/page.tsx:130-139 | the three stock bands, out (0), low (below 10) and in stock; no contract of its own: StockColor, StockMarker and StockBands relate it to the count |
| VendorProducts.StockBands | app/vendor/products/page.tsx:130-139 | on non-negative stock the colour and the marker agree: 0, 1 to 9, and 10 or more |
| VendorProducts.BadgeVariant | app/vendor/products/page.tsx:143 | "default" iff the status is "active", else "secondary" |
| VendorProducts.ProductsPage.constructor | app/vendor/products/page.tsx:46-47 | the given products and an empty search, so every product is shown |
| VendorProducts.ProductsPage.SetSearchTerm | app/vendor/products/page.tsx:46-49 | the term is set and the products are kept |
| VendorProducts.ProductsPage.HandleDelete | app/vendor/products/page.tsx:51-55 | a confirmed delete removes that id from the products and from what is shown; a cancelled one changes nothing |
| ProductListing.ProductForm | components/vendor/product-listing.tsx:96 | the edit form holds the product's id and price, and its image and category iff present |
| ProductListing.PriceOk | components/vendor/product-listing.tsx:103 | the scan that decides the price pattern; no contract of its own: PriceOkIffPattern proves it equal to the regular expression |
| ProductListing.PriceOkIffPattern | components/vendor/product-listing.tsx:103 | the price check accepts exactly the texts matching `^\d*\.?\d{0,2}$` |
| ProductListing.PriceExamples | components/vendor/product-listing.tsx:103 | "", "." and "12.34" pass; "1.234", "1.2.3" and "-1" do not |
| ProductListing.CardImage | components/vendor/product-listing.tsx:154-158 | the image address when it has a non-blank character, else the placeholder |
| ProductListing.ProductListings.constructor | components/vendor/product-listing.tsx:40-47 | no products, loading, refresh key 0, nothing being deleted or edited |
| ProductListing.ProductListings.ProductsLoaded | components/vendor/product-listing.tsx:49-60 | loading ends; products are replaced only on success |
| ProductListing.ProductListings.OpenEditModal | components/vendor/product-listing.tsx:94-97 | the product is being edited and the form is its fields |
| ProductListing.ProductListings.HandleEditChange | components/vendor/product-listing.tsx:99-106 | a price that fails the pattern is ignored; any other edit sets that field |
| ProductListing.ProductListings.StartSave | components/vendor/product-listing.tsx:108-115 | a save is sent only while a product is being edited, with its id and the form |
| ProductListing.ProductListings.CloseEditor | components/vendor/product-listing.tsx:184-248 | closing the dialog or pressing Cancel stops editing and changes nothing else, so a later save sends nothing |
| ProductListing.ProductListings.FinishSave | components/vendor/product-listing.tsx:116-123 | success closes the editor and bumps the refresh key; failure changes nothing |
| ProductListing.ProductListings.StartDelete | components/vendor/product-listing.tsx:75-77 | a delete is sent iff confirmed, and its button is then disabled |
| ProductListing.ProductListings.FinishDelete | components/vendor/product-listing.tsx:78-90 | the delete ends on every path; only success bumps the refresh key |
| OrderStatus.StatusColor | components/vendor/vendor-orders-table.tsx:14-27 | one colour per known status, gray exactly for an unknown one |
| OrderStatus.StatusLabel | app/orders/page.tsx:31-33 | same length, first letter upper-cased, and only the first hyphen after it turned into a space |
| OrderStatus.PendingLabel | app/orders/page.tsx:31-33 | "" stays "" and "pending" reads "Pending" |
| OrderStatus.LabelAroundHyphen | app/orders/page.tsx:31-33 | with its first hyphen after the first letter at some place, the label is the capital, the text up to that place, a space, and the rest unchanged |
| OrderStatus.DeliveryLabel | app/orders/page.tsx:31-33 | a status a-b-c reads A…-b c with only the first hyphen replaced, as "out-for-delivery" reads "Out for-delivery" |
| OrderStatus.ChangeStatus | components/vendor/vendor-orders-table.tsx:10-12 | same orders in the same places; those with the id take the new status and keep their other fields |
| OrderStatus.ChangeStatusIdempotent | components/vendor/vendor-orders-table.tsx:11 | changing a status twice to the same value is changing it once |
| OrderStatus.ChangeStatusKeepsIds | components/vendor/vendor-orders-table.tsx:11 | ids, and the fields other than the status, never change |
| OrderStatus.ChangeStatusCommutes | components/vendor/vendor-orders-table.tsx:11 | changes to two different orders can be made in either order |
| OrderStatus.VendorOrdersTable.constructor | components/vendor/vendor-orders-table.tsx:8 | the table starts with the given orders |
| OrderStatus.VendorOrdersTable.HandleStatusChange | components/vendor/vendor-orders-table.tsx:10-12 | the orders become ChangeStatus of the old ones |
| OrderDetail.FindOrder | components/buyer/order-detail-modal.tsx:16 | the first order with the id, or None iff there is none |
| OrderDetail.StepIndex | components/buyer/order-detail-modal.tsx:36-37 | the status's position among the four steps, or -1 exactly for an unknown status |
| OrderDetail.Highlighted | components/buyer/order-detail-modal.tsx:59-66 | step i is highlighted iff `index <= currentStepIndex`; no contract of its own: HighlightedPrefix states the highlighted steps form a prefix |
| OrderDetail.HighlightedPrefix | components/buyer/order-detail-modal.tsx:59-66 | the highlighted steps form a prefix: none for an unknown status, all for a completed order |
| OrderDetail.LineTotal | components/buyer/order-detail-modal.tsx:87 | a line of one unit costs its price, of none nothing |
| OrderDetail.LineTotals | components/buyer/order-detail-modal.tsx:80-87 | one total per item, each price times quantity |
| OrderDetail.Render | components/buyer/order-detail-modal.tsx:15-140 | nothing iff no order matches; otherwise the steps, line totals, subtotal + ₱50 fee = total, the payment label, and the review button iff completed |
| OrderDetail.PaymentLabelExample | components/buyer/order-detail-modal.tsx:128 | "bank-transfer" reads "bank transfer" |
| OrderDetail.OrderDetailModal.constructor | components/buyer/order-detail-modal.tsx:17 | the review form starts hidden |
| OrderDetail.OrderDetailModal.LeaveReview | components/buyer/order-detail-modal.tsx:134-135 | the review form opens only for a completed order |
| OrderDetail.OrderDetailModal.CloseReview | components/buyer/order-detail-modal.tsx:17 | the review form is hidden |
| VendorCard.StripUploads | components/buyer/vendor-card.tsx:26 | one leading "uploads/" is dropped, otherwise the path is unchanged |
| VendorCard.ImageUrl | components/buyer/vendor-card.tsx:19-33 | no path gives the placeholder; a path gives the upload base followed by the path with slashes and without its "uploads/"; no backslash is left |
| VendorCard.NoBackslashLeft | components/buyer/vendor-card.tsx:23-26 | after conversion and stripping no backslash remains |
| VendorCard.PlainPathUnchanged | components/buyer/vendor-card.tsx:19-33 | a plain path is appended to the base as it is |
| VendorCard.UploadsPrefixStripped | components/buyer/vendor-card.tsx:26 | a path under "uploads/" loses exactly that prefix |
| VendorCard.WindowsUploadsStripped | components/buyer/vendor-card.tsx:23-26 | a Windows path "uploads\\…" is converted first and loses its prefix too |
| VendorCard.WindowsPathExample | components/buyer/vendor-card.tsx:23-29 | "uploads\\a.png" becomes the base followed by "a.png" |
| VendorCard.OnlyOnePrefixStripped | components/buyer/vendor-card.tsx:26 | only one "uploads/" prefix is stripped |
| LocationSelector.DisplayName | components/location-selector.tsx:17-19 | the part before the first comma: a comma-free prefix of the address |
| LocationSelector.Region | components/location-selector.tsx:22-25 | "Iloilo" without a comma; otherwise a comma-free text with no whitespace at either end |
| LocationSelector.TwoPartAddress | components/location-selector.tsx:16-25 | "name, district" with one comma shows the name in the trimmed district |
| LocationSelector.NoCommaAddress | components/location-selector.tsx:17-25 | an address without commas is its own name and has the default region |
| LocationSelector.ThreePartAddress | components/location-selector.tsx:17-25 | "name,district,rest" has the name as its display name and the trimmed district as its region |
| LocationSelector.JaroExample | components/location-selector.tsx:10-25 | "Jaro Plaza Market, Jaro, Iloilo City" shows as "Jaro Plaza Market" in "Jaro" |
| LocationSelector.Stored | components/location-selector.tsx:33 | "all" is stored as ""; any other choice as it is |
| LocationSelector.Shown | components/location-selector.tsx:33 | an empty or missing location shows "all" |
| LocationSelector.ShownAfterStored | components/location-selector.tsx:33 | storing a choice and showing it again gives back the choice |
| LocationSelector.Choose | components/location-selector.tsx:33 | choosing sets the shared location to the stored form, which shows the choice again; the cart and user are kept |
| Loyalty.TierColor | components/buyer/loyalty-widget.tsx:9-20 | one gradient per tier, gray exactly for an unknown tier |
| Loyalty.Threshold | components/buyer/loyalty-widget.tsx:22-33 | 1000 for silver, 2000 for gold, 500 for bronze and any unknown tier |
| Loyalty.NextTier | components/buyer/loyalty-widget.tsx:35 | gold for silver and gold, silver for every other tier; never bronze |
| Loyalty.NextThresholdGrows | components/buyer/loyalty-widget.tsx:22-36 | the next tier asks for more points, except at gold |
| Loyalty.PointsRemaining | components/buyer/loyalty-widget.tsx:36-61 | remaining + points = the next threshold; negative for gold above 2000 |
| Loyalty.GoldOverflowExample | components/buyer/loyalty-widget.tsx:61 | a gold member with 2500 points is told -500 points |
| Loyalty.TierTitle | components/buyer/loyalty-widget.tsx:48 | the tier with its first letter upper-cased |
| Loyalty.TitleRoundTrip | components/buyer/loyalty-widget.tsx:48 | lower-casing the title gives back a lower-case tier |
| ProductFilter.EmittedCategory | components/buyer/product-filter.tsx:23 | "All" is sent as "", any other category as it is |
| ProductFilter.ZeroMaxBecomesDefault | components/buyer/product-filter.tsx:81 | typing 0 as the maximum sets 1000; typing n ≠ 0 sets n |
| ProductFilter.ProductFilterPanel.constructor | components/buyer/product-filter.tsx:16-18 | empty search, "All", 0 to 1000 |
| ProductFilter.ProductFilterPanel.SetSearch | components/buyer/product-filter.tsx:44 | the search is set and the rest kept |
| ProductFilter.ProductFilterPanel.SetCategory | components/buyer/product-filter.tsx:58 | the category is set and the rest kept |
| ProductFilter.ProductFilterPanel.EditMin | components/buyer/product-filter.tsx:75 | the minimum becomes `parseInt(text) \|\| 0`; the maximum is kept |
| ProductFilter.ProductFilterPanel.EditMax | components/buyer/product-filter.tsx:81 | the maximum becomes `parseInt(text) \|\| 1000`; the minimum is kept |
| ProductFilter.ProductFilterPanel.ApplyFilters | components/buyer/product-filter.tsx:20-26 | the current fields are handed on, the category "" iff it is "All" or "" |
| ProductFilter.ProductFilterPanel.Reset | components/buyer/product-filter.tsx:28-33 | the panel is reset and the empty filter is handed on |
| ProductFilter.ReversedRangeIsEmitted | components/buyer/product-filter.tsx:20-81 | a minimum above the maximum is handed on unchanged |
| ProductFilter.ResetMatchesApply | components/buyer/product-filter.tsx:20-33 | reset hands on what applying the fresh panel would |
| Signup.Validate | app/signup/page.tsx:35-51 | passes iff all fields are filled, the passwords match and have six characters or more; the first failing check names the message |
| Signup.SixCharactersPass | app/signup/page.tsx:47-51 | six characters pass and five do not |
| Signup.HomeFor | app/signup/page.tsx:88-92 | vendors go to the vendor dashboard and buyers to "/" |
| Signup.Submission | app/signup/page.tsx:29-98 | registration only after validation, login only after registration, routing only after login; each failure has its message |
| Signup.SignupPage.constructor | app/signup/page.tsx:21-27 | empty fields, buyer, not loading, no error |
| Signup.SignupPage.SetFields | app/signup/page.tsx:21-25 | the fields are set and the error and loading kept |
| Signup.SignupPage.HandleSubmit | app/signup/page.tsx:29-98 | the outcome is Submission's; loading ends on every path; the shared state logs in only after a successful login |
| CreateStall.InitialKeysUnique | components/vendor/CreateStallModal.tsx:25-34 | the eight initial fields have different names |
| CreateStall.Lookup | components/vendor/CreateStallModal.tsx:88-89 | the value stored under a field, or None iff there is none |
| CreateStall.SetField | components/vendor/CreateStallModal.tsx:53-55 | the field takes the value, every other field is kept, and a new field is appended |
| CreateStall.SetFieldKeepsPlaces | components/vendor/CreateStallModal.tsx:54 | setting an existing field keeps the length and every field name in its place |
| CreateStall.SetFieldKeepsUnique | components/vendor/CreateStallModal.tsx:54 | field names stay unique |
| CreateStall.FileCheck | components/vendor/CreateStallModal.tsx:60-67 | accepted iff an image of at most 5 MB; a non-image is refused first |
| CreateStall.SizeBoundary | components/vendor/CreateStallModal.tsx:64 | exactly 5 MB passes and one byte more does not |
| CreateStall.Token | components/vendor/CreateStallModal.tsx:97 | the local token if set, else the session token |
| CreateStall.LoggedIn | components/vendor/CreateStallModal.tsx:79-82 | a user id is present and non-zero; no contract of its own: SubmitCheck states it is checked first |
| CreateStall.HasRequired | components/vendor/CreateStallModal.tsx:88-89 | the four required fields are filled; no contract of its own: SubmitCheck, OptionalFieldsIgnored and RequiredFieldEmptied state its role |
| CreateStall.SubmitCheck | components/vendor/CreateStallModal.tsx:82-104 | login first, then the four required fields, then a token; it passes iff all three hold |
| CreateStall.TextEntries | components/vendor/CreateStallModal.tsx:109 | one text part per field, in the fields' order |
| CreateStall.FormEntries | components/vendor/CreateStallModal.tsx:106-116 | the fields, then user_id, then the icon and the banner when chosen |
| CreateStall.FailureMessage | components/vendor/CreateStallModal.tsx:155-161 | a 401 is an authentication failure; otherwise the server's error; otherwise the generic text |
| CreateStall.OptionalFieldsIgnored | components/vendor/CreateStallModal.tsx:88-89 | editing a field other than the four required ones never changes the check |
| CreateStall.RequiredFieldEmptied | components/vendor/CreateStallModal.tsx:88-91 | emptying a required field of a logged-in user always refuses the submission |
| CreateStall.CreateStallModal.constructor | components/vendor/CreateStallModal.tsx:25-43 | the initial fields, no images, no previews, not submitting |
| CreateStall.CreateStallModal.HandleChange | components/vendor/CreateStallModal.tsx:53-55 | the fields become SetField of the old ones and the images are kept |
| CreateStall.CreateStallModal.HandleFileChange | components/vendor/CreateStallModal.tsx:57-72 | a refused file changes nothing and alerts; an accepted one fills its slot and its preview |
| CreateStall.CreateStallModal.ResetForm | components/vendor/CreateStallModal.tsx:138-150 | the fields, images and previews are back to the initial state |
| CreateStall.CreateStallModal.HandleSubmit | components/vendor/CreateStallModal.tsx:74-165 | the request is sent iff the check passes, with the form entries; success resets and routes to the dashboard; a failure shows its message |
| AddProduct.LoadError | components/vendor/add-product-modal.tsx:41-110 | no message iff a non-empty stall list arrived; each failure has its message, and every failure after the token check reads "Authentication error" |
| AddProduct.FindStall | components/vendor/add-product-modal.tsx:213 | the first stall whose id reads as the selected value, or None iff there is none |
| AddProduct.TriggerLabel | components/vendor/add-product-modal.tsx:213 | the selected stall's name, or "Select a stall" when none matches or the name is empty |
| AddProduct.SelectedLineAsWritten | components/vendor/add-product-modal.tsx:234 | the line names the first stall whatever is selected |
| AddProduct.SelectedLine | components/vendor/add-product-modal.tsx:234 | the line names a stall iff one has the selected id, and then that stall |
| AddProduct.SelectedLineShowsFirstStall | components/vendor/add-product-modal.tsx:234 | with the second of two stalls chosen, the line names the first as written and the second as intended |
| AddProduct.SubmitCheck | components/vendor/add-product-modal.tsx:123-131 | a stall must be chosen first; then the trimmed name, the price and the category must be non-empty; it passes iff both hold |
| AddProduct.BlankNameRefused | components/vendor/add-product-modal.tsx:128 | a name of blanks only is refused like an empty one |
| AddProduct.Body | components/vendor/add-product-modal.tsx:142-149 | the stall id is `Number(selected)`, name and description are trimmed, the stock is `parseInt` or 0 |
| AddProduct.BodyNameTrimmed | components/vendor/add-product-modal.tsx:144 | the sent name is a slice of the typed one with no blank at either end |
| AddProduct.ChosenStallSent | components/vendor/add-product-modal.tsx:91-147 | a stall chosen by its id sends that id back as a number, and a typed stock n sends n |
| AddProduct.PostMessage | components/vendor/add-product-modal.tsx:162-175 | success reads "Product added successfully!"; a refusal shows its error or "Failed to add product"; a thrown error its message |
| AddProduct.AddProductModal.constructor | components/vendor/add-product-modal.tsx:26-37 | an empty form, no stalls, nothing chosen, loading the stalls |
| AddProduct.AddProductModal.SubmitDisabled | components/vendor/add-product-modal.tsx:313 | enabled iff not submitting, a stall is chosen and there are stalls |
| AddProduct.AddProductModal.LoadStalls | components/vendor/add-product-modal.tsx:41-110 | loading ends on every path; a non-empty list is kept and its first stall chosen; the message is LoadError's |
| AddProduct.AddProductModal.ChangeStall | components/vendor/add-product-modal.tsx:114-117 | the chosen stall is set and the rest kept |
| AddProduct.AddProductModal.SetForm | components/vendor/add-product-modal.tsx:244-301 | the five inputs are set and the rest kept |
| AddProduct.Submission | components/vendor/add-product-modal.tsx:119-179 | a failed check alerts and sends nothing; a missing token alerts and sends nothing; otherwise the body is sent with the outcome's message; the dialog closes iff the product was created, which is iff the alert reads "Product added successfully!" |
| AddProduct.AddProductModal.HandleSubmit | components/vendor/add-product-modal.tsx:119-179 | the alert, request and closing are Submission's; submitting ends whenever the checks passed; the form is kept |
| AddProduct.AddProductModal.SelectedText | components/vendor/add-product-modal.tsx:232-236 | hidden without a chosen stall; when shown it is the name of a stall with the chosen id, as the corrected SelectedLine gives it (the source shows the first stall's name; see Findings) |
| AddProduct.LoadedStallIsFound | components/vendor/add-product-modal.tsx:89-213 | after loading, the chosen stall is found again as the first stall |
| EditProduct.Merged | components/vendor/edit-product-modal.tsx:29-36 | present fields override the defaults; missing texts become "" and missing numbers stay missing |
| EditProduct.OrElseEmpty | components/vendor/edit-product-modal.tsx:30-35 | a present text, or the default "" |
| EditProduct.MergedIdempotent | components/vendor/edit-product-modal.tsx:39-48 | rebuilding the form from the form gives the form |
| EditProduct.CompleteProductUnchanged | components/vendor/edit-product-modal.tsx:29-36 | a product with every text field present is its own form |
| EditProduct.Body | components/vendor/edit-product-modal.tsx:70-76 | the name or ""; description and category or null when empty; price and stock or 0 when missing, an explicit 0 kept |
| EditProduct.UntouchedSaveSendsProduct | components/vendor/edit-product-modal.tsx:29-76 | saving an untouched filled-in product sends its own values |
| EditProduct.ClearedTextsSentAsNull | components/vendor/edit-product-modal.tsx:72-75 | an empty description or category is sent as null |
| EditProduct.FailureMessage | components/vendor/edit-product-modal.tsx:87-93 | a refusal shows its error or "Failed to update product"; a thrown error its message, or its text |
| EditProduct.EditProductModal.constructor | components/vendor/edit-product-modal.tsx:29-37 | the form is the merged product and not saving |
| EditProduct.EditProductModal.ProductChanged | components/vendor/edit-product-modal.tsx:39-48 | a new product rebuilds the form from it alone |
| EditProduct.EditProductModal.ChangeText | components/vendor/edit-product-modal.tsx:57-58 | the chosen text field takes the value as given; every other field is kept |
| EditProduct.EditProductModal.ChangeStock | components/vendor/edit-product-modal.tsx:54-56 | the stock becomes `parseInt(text)`, missing for NaN |
| EditProduct.EditProductModal.ChangePrice | components/vendor/edit-product-modal.tsx:51-53 | the price becomes the parsed number, missing for NaN |
| EditProduct.ValidId | components/vendor/edit-product-modal.tsx:63 | the id is present and not 0 (`!form.item_id`); no contract of its own: HandleSave states that an invalid id sends nothing |
| EditProduct.EditProductModal.HandleSave | components/vendor/edit-product-modal.tsx:62-97 | a missing or zero id alerts "Invalid product ID" and sends nothing; otherwise the body is sent, saved-and-closed iff OK, and a failure alerts its message |
| EditProduct.StockEditSent | components/vendor/edit-product-modal.tsx:54-74 | typing n into the stock sends n, and typing no digits sends 0 |

## Left out

- Browser storage is left out. This covers restoring the session and the location on mount (lib/context.tsx:37-55) and every `localStorage`/`sessionStorage` write. Stored tokens and user ids are method parameters.
- Timers and clocks are parameters. The 300 ms debounce, the 500/800 ms simulated delays and `Date.now()` become explicit inputs: `TimerElapsed`, `ReplyArrives` and the `now` parameters.
- `AbortController` is modelled only as a token of the request it belongs to. How far a request got before it was aborted is the outcome parameter of the event that settles it.
- SQL `LIKE` wildcards are not modelled. `%`, `_` and `\` in the query would change the pattern, so `SearchCache.SearchService.SearchAll` and `SuggestRoute.Get` require a query without them.
- The order of rows with equal scores after `ORDER BY relevance_score DESC` is unspecified in SQL. The model keeps table order among ties.
- Floating point is left out:
  - `parseFloat` prices. The add-product dialog passes the price text on, and the edit dialog takes the parsed number as input.
  - `toFixed` formatting.
  - The loyalty progress percentage (components/buyer/loyalty-widget.tsx:37).
  - Product prices shown with the currency sign.
- `parseInt` and `Number` are modelled for optional whitespace, a sign and decimal digits. Hexadecimal prefixes and exponents are not modelled.
- Case mapping is ASCII only. JavaScript `toLowerCase` and SQL `LOWER` also map other letters.
- Product names in the order detail dialog come from the mock product list (components/buyer/order-detail-modal.tsx:81). The line shows the item's quantity and line total, not the looked-up name.
- The JSON decoding of the stored token in the add-product dialog (components/vendor/add-product-modal.tsx:55-63) is not modelled. Its outcomes are the `StallsReply` cases.
- `{ ...product }` copies a key that is present with the value `undefined`, which then overrides a default. The model treats such a field as missing, so the default stays.
- The all-orders limit is the text "10" in the source. It is modelled as the number `Number(limit)`.
- `clearCache`, named in the service's documentation, does not exist in lib/services/searchService.ts and is not modelled.
- The clear button's `inputRef.current?.focus()` (components/search/SearchBar.tsx:153) is not modelled. Its focus handler can read the suggestions from before the clear, so the source can end with `isOpen` true and `suggestions` empty, which the model's `Valid()` rules out (`isOpen ==> suggestions != []`). `selectedIndex` is not reset there either, so a following Enter can call `handleSelect(undefined)`.
- Rendering is not modelled: icons, Tailwind classes, charts and the chat panel's layout.
- TrimStart: only the six ASCII whitespace characters (space, tab, line feed, vertical tab, form feed, carriage return) are stripped. JavaScript `trim()` also strips U+00A0, U+FEFF, U+2028, U+2029 and the other Unicode space separators. The same narrower set is used by `Text.ParseIntOr`, `Text.Trim` and the members built on them (`AddProduct.SubmitCheck`, `AddProduct.Body`, `ProductListing.CardImage`, `LocationSelector.Region`), so a name made only of U+00A0 is refused by the source but accepted by the model.
- TrimEnd: the same ASCII-only whitespace set as TrimStart, for the same reason: the model's strings are sequences of characters without a Unicode category table.
- Precheck: the two-character minimum counts Unicode characters, while JavaScript `.length` counts UTF-16 code units. A query of one character outside the Basic Multilingual Plane (an emoji) has length 2 in the source and is searched, but is answered with no results by the model. The same applies to `Typeahead.SearchBar.TimerElapsed` and `SearchCache.SearchService.SearchAll`.
- Validate: the six-character password minimum counts Unicode characters, not UTF-16 code units, so a password of three emoji (six code units) passes in the source and is refused by the model.
- AddProduct.AddProductModal.SelectedText: renders the corrected `AddProduct.SelectedLine`; the line as written, which always names the first stall, is `AddProduct.SelectedLineAsWritten`.
- SuggestRoute.IncludeFlag: only the direction "on implies the text is exactly "true"" is an `ensures`. The other direction is shown by `SuggestRoute.IncludeFlagIsExact`.

## Findings

| source | as written | input that shows it | evidently intended | confidence | as-written member | corrected member |
|---|---|---|---|---|---|---|
| components/vendor/add-product-modal.tsx:234 | `stalls.find(s => \`${s.stall_id} === selectedStallId\`)`: the callback returns a non-empty template text, which is always truthy, so the first stall is always found | stalls 1 "Aling Nena" and 2 "Mang Tomas" with "2" selected: the line reads "Selected: Aling Nena" | compare the id with the selection, as the select's label on line 213 does, so the line reads "Mang Tomas" | not executed | AddProduct.SelectedLineAsWritten | AddProduct.SelectedLine |
