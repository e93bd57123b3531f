# Accountant marketplace: card visibility

This project models the card-visibility engine of the accountant
marketplace page (`assets/js/marketplace.js`). The page lists accountant
cards. Each card carries its texts, five `data-*` attributes and the
`visible`/`hidden` classes. The page has three handlers that recompute
those classes:

- the free-text search (`handleSearch`);
- the five structured filters (`handleFilterChange`);
- the reset (`clearFilters`).

Every handler republishes the number of visible cards
(`updateResultsCount`). The "Load More" button appends a fixed batch of
three rendered cards (`handleLoadMore`, `addMoreAccountants`). A rendered
card carries:

- its data attributes;
- the profile-link key (lower-cased name, whitespace removed,
  `@example.com` appended);
- the star strip from `generateStars`.

Files:

- `text.dfy` (module `Text`): the JavaScript string built-ins the page
  relies on. These are `toLowerCase` (ASCII letters), `join`, `includes`
  (decided by a scan, proved equal to "is a substring") and removing
  `\s`.
- `stars.dfy` (module `Stars`): `generateStars` as a method with its two
  counting loops, proved equal to the strip function `StarsOf`. For
  ratings in [0, 5] it yields floor(r) full stars, one half star iff r is
  not whole, and 5 − ceil(r) empty stars: five glyphs in all.
- `cards.dfy` (module `Cards`): the card, the filter selection, the
  search test and the filter test (`IsVisible`, computed as the source
  does, by clearing a flag field by field). Also the card renderer
  `CreateAccountantCard` and the profile key.
- `marketplace.dfy` (module `Marketplace`):
  - the listings after each handler, as functions (`SearchCards`,
    `FilterCards`, `ShowAll`), with their pointwise "card i is visible
    iff …" lemmas;
  - the count and its lemmas;
  - the loops of the handlers, as methods over the card sequence, proved
    against those functions;
  - the class `MarketplacePage`. Its fields are the cards, the six
    controls, the published count and the button. Its methods are the
    handlers, proved to keep `Valid()`: every card has exactly one of the
    two classes, the published count is the number of visible cards, and
    the button is disabled and shows the loading label exactly while a
    load is pending.

Search and filter do not compose: each recomputes every card's classes
from its own control values only. `FilterOverridesSearch` and
`SearchOverridesFilter` state this, and the idempotence lemmas follow
from it.

Three behaviours of the code that a reader might not expect:

- The rating filter compares the card's `data-rating` attribute (a
  bucket such as "4") with the selected value, not the displayed rating.
  `RatingFilterReadsBucket` shows a card displayed as 4.5 that a 4.5
  selection hides.
- The expertise filter is substring containment on the comma-joined
  `data-expertise` string, not tag membership.
  `ExpertiseMatchesInsideTag` shows "gst" passing a card tagged
  "budgst".
- The three appended cards are always rendered visible, whatever
  selection is active. `AddMoreAccountants` raises the count by exactly
  three in every state.

## Model

| member | source | states |
|---|---|---|
| Text.LowerChar | assets/js/marketplace.js:57 | the lowered character is never upper case; non-letters are unchanged; upper-case letters map to their lower-case partner |
| Text.Lower | assets/js/marketplace.js:57-65 | `toLowerCase`: lowers every character in place; its meaning is stated by `LowerIsLowered` (no upper case left, lowered text unchanged), `LowerIdempotent` and `LowerAppend` |
| Text.LowerIsLowered | assets/js/marketplace.js:57 | the lowered text has no upper-case letter, and a text without one is its own lowering |
| Text.LowerIdempotent | assets/js/marketplace.js:57 | lower-casing twice is lower-casing once |
| Text.LowerAppend | assets/js/marketplace.js:61-68 | lower-casing a concatenation lower-cases each part |
| Text.Join | assets/js/marketplace.js:66 | `join(' ')`: parts separated by the separator; its meaning with lowering is stated by `LowerJoin` |
| Text.LowerJoin | assets/js/marketplace.js:64-66 | lowering the tags and then joining with a space equals lowering the joined tags |
| Text.Includes | assets/js/marketplace.js:70 | the scan answers true iff the query occurs at some position of the text |
| Text.IncludesEmpty | assets/js/marketplace.js:70 | every text includes the empty query |
| Text.RemoveWhitespace | assets/js/marketplace.js:305 | the result has no `\s` character, is no longer than the input, equals a whitespace-free input, and stays lower case |
| Text.RemoveWhitespaceAppend | assets/js/marketplace.js:305 | removing whitespace distributes over concatenation |
| Stars.CeilIsLeastAbove | assets/js/marketplace.js:331 | `Ceil(r)` is the least integer not below r |
| Stars.HasHalfStar | assets/js/marketplace.js:317 | `rating % 1 !== 0`: the rating is not a whole number; used by `StarCounts` for the half-star count |
| Stars.Ceil | assets/js/marketplace.js:331 | `Math.ceil`; its meaning is stated by `CeilIsLeastAbove` |
| Stars.StarsOf | assets/js/marketplace.js:315-337 | the strip `generateStars` builds; its meaning is stated by `StarCounts`, `StarsOrdered` and `StarExamples` |
| Stars.StarCounts | assets/js/marketplace.js:315-337 | for r in [0, 5]: five glyphs; floor(r) full; one half iff r is not whole; 5 − ceil(r) empty |
| Stars.StarsOrdered | assets/js/marketplace.js:320-333 | full glyphs come before the half glyph, which comes before the empty ones |
| Stars.StarExamples | assets/js/marketplace.js:315-337 | the strips for 0, 2.5, 4.0, 4.5 and 5.0 |
| Stars.GenerateStars | assets/js/marketplace.js:315-337 | the two counting loops build exactly `StarsOf(rating)`, which has five glyphs for ratings in [0, 5] |
| Cards.ProfileKey | assets/js/marketplace.js:305 | the key ends with `@example.com`, contains no whitespace and no upper-case letter |
| Cards.ProfileKeyIgnoresWhitespace | assets/js/marketplace.js:305 | inserting a run of whitespace into a name leaves its key unchanged |
| Cards.CreateAccountantCard | assets/js/marketplace.js:254-311 | the card has the `visible` class only; copies the five data attributes, the name, designation, location and tags; its link key is `ProfileKey` of the name (whitespace-free); its strip is `StarsOf` of the rating, five glyphs for ratings in [0, 5] |
| Cards.SearchableTextIsLowerFullText | assets/js/marketplace.js:61-68 | the searchable text, lowered piece by piece, equals the lowered text of name, designation, location and tags joined by spaces |
| Cards.SearchableText | assets/js/marketplace.js:61-68 | the searchable text of a card; its meaning is stated by `SearchableTextIsLowerFullText` |
| Cards.MatchesSearch | assets/js/marketplace.js:70 | the search test of one card; its meaning is stated by `MatchesSearchIff` |
| Cards.MatchesSearchIff | assets/js/marketplace.js:57-70 | a card matches iff the lowered input is a substring of its lowered full text |
| Cards.SearchIgnoresInputCase | assets/js/marketplace.js:57 | lowering the input beforehand does not change the match |
| Cards.EmptySearchMatches | assets/js/marketplace.js:70 | the empty search matches every card |
| Cards.IsVisible | assets/js/marketplace.js:93-122 | the flag stays true iff every selected field passes: location, experience and price by equality, expertise by substring, rating by `data-rating >= selected` |
| Cards.NoFiltersPass | assets/js/marketplace.js:93-122 | with nothing selected every card passes |
| Cards.ExpertiseMatchesInsideTag | assets/js/marketplace.js:101 | the expertise test is substring containment: "gst" passes "budgst" |
| Marketplace.CountVisible | assets/js/marketplace.js:157-164 | the count never exceeds the number of cards |
| Marketplace.CountIsVisibleIndices | assets/js/marketplace.js:158 | the count is the number of positions holding a visible card |
| Marketplace.CountAppend | assets/js/marketplace.js:247-250 | counting distributes over appending cards |
| Marketplace.CountAllVisible | assets/js/marketplace.js:153-162 | the count equals the number of cards iff every card is visible |
| Marketplace.SearchVisibleIff | assets/js/marketplace.js:56-80 | after a search, records are kept, each card has exactly one class, and card i is visible iff the lowered input is a substring of its lowered full text |
| Marketplace.FilterVisibleIff | assets/js/marketplace.js:83-135 | after a filter change, records are kept, each card has exactly one class, and card i is visible iff its attributes pass every selected field |
| Marketplace.EmptySearchShowsAll | assets/js/marketplace.js:56-80 | the empty search shows every card |
| Marketplace.NoFiltersShowAll | assets/js/marketplace.js:83-135 | a filter change with nothing selected shows every card |
| Marketplace.ShowAllCount | assets/js/marketplace.js:146-153 | after showing all, the cards are well formed, keep their records, and the count is the number of cards |
| Marketplace.SearchIgnoresPriorClasses | assets/js/marketplace.js:59-77 | the search result depends on the records and the input, not on prior classes |
| Marketplace.FilterIgnoresPriorClasses | assets/js/marketplace.js:90-132 | the filter result depends on the records and the selection, not on prior classes |
| Marketplace.SearchIdempotent | assets/js/marketplace.js:56-80 | searching twice with the same input is searching once |
| Marketplace.FilterIdempotent | assets/js/marketplace.js:83-135 | filtering twice with the same selection is filtering once |
| Marketplace.FilterOverridesSearch | assets/js/marketplace.js:90-132 | a filter change discards what the last search hid |
| Marketplace.SearchOverridesFilter | assets/js/marketplace.js:59-77 | a search discards what the last filter change hid |
| Marketplace.SearchCards | assets/js/marketplace.js:60-77 | the listing after a search; its meaning is stated by `SearchVisibleIff` |
| Marketplace.FilterCards | assets/js/marketplace.js:92-132 | the listing after a filter change; its meaning is stated by `FilterVisibleIff` |
| Marketplace.ShowAll | assets/js/marketplace.js:148-151 | the listing after a reset; its meaning is stated by `ShowAllCount` |
| Marketplace.RenderAll | assets/js/marketplace.js:245-248 | the cards rendered for a batch, in list order; its meaning is stated by `AppendRenderedCount` and `CreateAccountantCard` |
| Marketplace.MORE_ACCOUNTANTS | assets/js/marketplace.js:188-243 | the fixed batch of three accountants with their texts, ratings, prices and data attributes; stated by `BatchSize`, `KolkataFilterOnBatch` and `RatingFilterReadsBucket` |
| Marketplace.AppendRenderedCount | assets/js/marketplace.js:246-250 | rendered cards are well formed, and appending them raises the count by their number |
| Marketplace.RatingFilterReadsBucket | assets/js/marketplace.js:111-117 | the rating filter reads `data-rating`: a card displayed as 4.5 fails a 4.5 selection |
| Marketplace.BatchSize | assets/js/marketplace.js:188-243 | the fixed batch holds three accountants |
| Marketplace.KolkataFilterOnBatch | assets/js/marketplace.js:95-98 | selecting "kolkata" over the batch shows only the first card, count 1 |
| Marketplace.ApplySearch | assets/js/marketplace.js:59-77 | the search loop produces exactly `SearchCards` of its input |
| Marketplace.ApplyFilters | assets/js/marketplace.js:90-132 | the filter loop produces exactly `FilterCards` of its input |
| Marketplace.ApplyShowAll | assets/js/marketplace.js:147-151 | the reset loop produces exactly `ShowAll` of its input |
| Marketplace.AppendRendered | assets/js/marketplace.js:245-248 | the append loop produces the old grid followed by the rendered batch, in order |
| Marketplace.MarketplacePage.constructor | assets/js/marketplace.js:52 | publishes the visible count of the given cards, as initialisation does; the empty controls and idle button are the page markup's starting state |
| Marketplace.MarketplacePage.UpdateResultsCount | assets/js/marketplace.js:157-164 | the published count becomes the number of visible cards |
| Marketplace.MarketplacePage.HandleSearch | assets/js/marketplace.js:56-80 | keeps `Valid()`; the cards become `SearchCards` of the old cards and the search box value |
| Marketplace.MarketplacePage.HandleFilterChange | assets/js/marketplace.js:83-135 | keeps `Valid()`; the cards become `FilterCards` of the old cards and the selection |
| Marketplace.MarketplacePage.ClearFilters | assets/js/marketplace.js:138-154 | keeps `Valid()`; all six controls empty, every card shown, count equals the number of cards |
| Marketplace.MarketplacePage.AppendAccountants | assets/js/marketplace.js:186-251 | keeps `Valid()`; the old cards stay unchanged and in order, followed by the rendered batch; the count grows by the batch size |
| Marketplace.MarketplacePage.AddMoreAccountants | assets/js/marketplace.js:186-251 | keeps `Valid()`; appends the three rendered cards of the fixed batch; the count grows by exactly three |
| Marketplace.MarketplacePage.HandleLoadMore | assets/js/marketplace.js:167-173 | keeps `Valid()`; the button shows the loading label, is disabled, and a load is pending |
| Marketplace.MarketplacePage.CompleteLoadMore | assets/js/marketplace.js:175-182 | keeps `Valid()`; appends the batch, the count grows by three, and the button is restored and enabled |

## Left out

- `toLowerCase` is modelled for ASCII letters only; other scripts' case mappings are not modelled.
- `parseFloat` of `data-rating` and of the rating select is not modelled: ratings are exact reals already parsed, so NaN and malformed attributes do not arise. IEEE `%`, `Math.floor` and `Math.ceil` are exact on reals.
- DOM lookups and event wiring (`initializeMarketplace`, the `querySelector` calls, reading attributes back out of markup) are not modelled; the page state is the class's fields, and the controls are fields the environment sets.
- The `if (resultsCount)` guard in `updateResultsCount` is not modelled: the count element is assumed present.
- The initial cards, the empty controls and the idle "Load More" button come from page markup, which is not part of this model: `initializeMarketplace` only wires listeners and publishes the count, so the constructor takes the cards as a well-formed sequence and starts from empty controls and an idle button.
- The 300 ms search debounce and the 1500 ms `setTimeout` are timers: load-more is modelled as two steps, `HandleLoadMore` then `CompleteLoadMore`.
- Marketplace.MarketplacePage.HandleLoadMore: requires an enabled button, because the browser delivers no click to a disabled button; the source itself does not check.
- HTML template text of `createAccountantCard` beyond the data attributes, the class, the texts the search reads, the link key and the star glyphs (image, reviews, price label, contact button) is not modelled; `encodeURIComponent` around the key is a foreign call and is left out. The texts and data attributes are assumed free of HTML markup characters: the source interpolates them into markup and the search reads `textContent` back, which returns the same text only in that case; the model copies them into the card directly.
- The contact alert, smooth scrolling and Bootstrap tooltips are UI and library calls and are left out.
- `service-worker.js` is Cache API and network plumbing with no logic of its own; it is left out.
