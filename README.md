# Phone Insights, modelled in Dafny

Phone Insights is a phone-comparison web app for the Pakistani market. This
project models two parts of it.

The first part is its three serverless endpoints:

- `recommend-phones` ranks catalogue phones within a budget.
- `generate-specs` asks a language model for a phone's specifications and
  writes them onto the phone's row.
- `generate-review` asks the model for a review of a phone.

The second part is the logic of the pages and widgets that sit around those
endpoints:

- the catalogue page's browsing state;
- the phone-finder form;
- the specification tables;
- the brand filter;
- the review scores;
- the currency hook;
- the schema.org data in the page head.

## Modules

| file | module | what it holds |
|---|---|---|
| `js.dfy` | `Js` | `Option`, JavaScript numbers with NaN, truthiness, `a \|\| b` on text |
| `text.dfy` | `Text` | `trim` with the JavaScript whitespace set, `split` on one character, `join`, decimal rendering of a status code |
| `fences.dfy` | `Fences` | the two `replace` passes and the `trim` that strip markdown fences from a model reply |
| `phones.dfy` | `Phones` | one row of the `phones` table and its twelve specification columns |
| `endpoint.dfy` | `Endpoint` | the gateway's status and content; the reply status and body |
| `recommend_phones.dfy` | `RecommendPhones` | the recommend-phones handler and its pure steps |
| `generate_specs.dfy` | `GenerateSpecs` | the generate-specs handler; the `phones` table as a class whose `Update` writes one row |
| `generate_review.dfy` | `GenerateReview` | the spec-block template and the generate-review handler |
| `catalog_page.dfy` | `CatalogPage` | the `Index` page state as a class, its query builder, the visible slice |
| `phone_finder.dfy` | `PhoneFinder` | preference toggling, the submit guard, the form as a class, the result cards |
| `specs_table.dfy` | `SpecsTable` | the `filter` of entries without a value |
| `specifications_section.dfy` | `SpecificationsSection` | groups, highlight cards, the back-camera split, the fallback |
| `brand_filter.dfy` | `BrandFilter` | distinct brands in sorted order; the active-button rule |
| `review_section.dfy` | `ReviewSection` | score colour bands; skeleton, nothing or review |
| `currency.dfy` | `Currency` | the detection state as a class and the currency it yields |
| `seo_head.dfy` | `SeoHead` | the current URL, the meta values and the JSON-LD object |

## Modelling choices

**Handlers and foreign calls:**

- Each handler starts from the already parsed request body.
- The following are the handler's inputs:
  - the environment key (whether it is set);
  - the rows the database returns (`None` when the query fails);
  - the gateway's status and `choices[0].message.content`;
  - whether the database update fails.
- `JSON.parse` is a function parameter that either yields a value or fails.
- `Number(text)` and the rendering of a number as text are also function parameters.

**Recording which calls were made:**

- `RecommendPhones.Handle` and `GenerateReview.Handle` also return the foreign calls they made, in order. This makes "no database or model call" a provable statement.
- `GenerateSpecs.Handle` also calls the GROQ gateway and writes to the database. It records no call list: its contract states the `phones` table before and after instead, so "no update" reads as "the table is unchanged".

**Status codes and errors:**

- A `throw` inside a handler becomes the 500 reply the outer `catch` builds.
- Reading a property of `null` or calling `map` on a missing array raises a `TypeError`. Its message comes from the engine, so that reply is modelled as `EngineError` with status 500.

**The update payload:** `JSON.stringify` drops `undefined` properties. So the update payload holds only those of the twelve columns that the model's reply names. A column the reply leaves out keeps its value, and a column set to `null` becomes `null`.

**Styles of model:**

- State that the source changes is held in classes with `modifies` clauses:
  - the table row update;
  - the catalogue page's four state fields;
  - the finder form;
  - the currency hook.
- Template and display rules are functions.

### Observations

- `generate-specs` answers `updated: true` even when no row has the given id. PostgREST treats an update that matches nothing as a success. See `GenerateSpecs.PhonesTable.Update`.
- The submit button and the submit handler test the budget differently:
  - the button is disabled on `!budget || Number(budget) <= 0`;
  - the handler submits on `budget && Number(budget) > 0`.
  - For non-empty text that `Number` reads as NaN, the button is enabled but pressing it does nothing (`PhoneFinder.NaNBudgetEnabledButIgnored`).
  - A `type="number"` input normally reports such text as empty, so this is recorded as an observation and not as a defect.
- The first fence pass can create a new "```json". For example, "`" + "```json" + "``json" becomes "```json". The second pass still removes every run of three backticks (`Fences.RemoveFenceLeavesNoFence`).

## Model

| member | source | states |
|---|---|---|
| `Js.TextOr` | supabase/functions/generate-review/index.ts:32-44 | `o \|\| fallback` is the value when it is non-empty text, the fallback otherwise; it is non-empty exactly when one of them is |
| `Text.Trim` | supabase/functions/recommend-phones/index.ts:153 | the trimmed text is no longer than the input and neither starts nor ends with JavaScript whitespace |
| `Text.TrimIsMiddle` | supabase/functions/recommend-phones/index.ts:153 | the trimmed text is the slice of the input left after cutting off a leading and a trailing run of JavaScript whitespace |
| `Text.TrimPadded` | supabase/functions/generate-review/index.ts:28-45 | trimming whitespace padding off a body that has no whitespace at its ends gives that body exactly |
| `Text.Split` | src/components/SEOHead.tsx:70 | `split` on one character gives at least one piece; no piece holds the separator; the first piece is a prefix; there is one piece exactly when the separator is absent |
| `Text.Join` | supabase/functions/recommend-phones/index.ts:75 | joining no items gives the empty text; otherwise the joined text starts with the first item (`SplitJoin` and `JoinContains` give the rest back) |
| `Text.SplitJoin` | supabase/functions/generate-review/index.ts:28-45 | splitting lines joined with a separator none of them contains gives the lines back |
| `Text.NatToString` | supabase/functions/recommend-phones/index.ts:141 | the decimal text of a status code is non-empty, all digits, and has no leading zero |
| `Text.NatToStringRoundTrip` | supabase/functions/recommend-phones/index.ts:141 | the decimal text of a status code reads back as that status code |
| `Fences.StripFences` | supabase/functions/recommend-phones/index.ts:153 | after removing every "```json" and then every "```", each with one optional line break, and trimming, no run of three backticks is left |
| `Fences.NoBackticksOnlyTrimmed` | supabase/functions/recommend-phones/index.ts:153 | content with no backtick is only trimmed |
| `Fences.RemoveFenceLeavesNoFence` | supabase/functions/recommend-phones/index.ts:153 | after the second `replace` no run of three backticks is left anywhere |
| `Fences.JsonBlockUnwraps` | supabase/functions/generate-specs/index.ts:103 | a reply wrapped as a json code block, with no backtick inside, is cleaned to its trimmed body |
| `Phones.ColumnNamesAreSpecColumnNames` | supabase/functions/generate-specs/index.ts:117-130 | the twelve column names of the update are exactly the names of the twelve specification columns |
| `RecommendPhones.Summaries` | supabase/functions/recommend-phones/index.ts:60-72 | one summary per fetched phone, in order, with `current_price`, `main_camera` and `display_size` renamed and the other fields copied |
| `RecommendPhones.PreferencesText` | supabase/functions/recommend-phones/index.ts:74-76 | a non-empty list gives text starting "User preferences: "; an absent or empty list gives "User has no specific preferences" |
| `RecommendPhones.PreferencesTextListsPreferences` | supabase/functions/recommend-phones/index.ts:74-76 | the text starts with "User preferences: " exactly when the list is non-empty and then contains every preference; otherwise it is "User has no specific preferences" |
| `RecommendPhones.FindIndex` | supabase/functions/recommend-phones/index.ts:162 | `find` yields the first phone with the id, and nothing exactly when no phone has it |
| `RecommendPhones.Attach` | supabase/functions/recommend-phones/index.ts:161-166 | every recommendation keeps all its fields, in order, and gains the phone `find` yields |
| `RecommendPhones.KeepMatched` | supabase/functions/recommend-phones/index.ts:167 | the filter keeps exactly the entries with a phone and never grows the list |
| `RecommendPhones.Enrich` | supabase/functions/recommend-phones/index.ts:161-167 | never more entries than the model gave; each kept entry is one of the model's recommendations with a phone of its `phone_id` attached |
| `RecommendPhones.EnrichKeepsMatchedInOrder` | supabase/functions/recommend-phones/index.ts:161-167 | the enriched list is exactly the recommendations with a matching phone, whole and in their original relative order |
| `RecommendPhones.EnrichAttachesFirstMatch` | supabase/functions/recommend-phones/index.ts:161-167 | each enriched recommendation comes from the input and carries the first fetched phone whose id is its `phone_id` |
| `RecommendPhones.MatchedMembers` | supabase/functions/recommend-phones/index.ts:161-167 | a recommendation survives exactly when some fetched phone has its `phone_id` |
| `RecommendPhones.UpstreamFailure` | supabase/functions/recommend-phones/index.ts:124-142 | 429 gives 429 "Rate limit exceeded…", 402 gives 402 "API credits exhausted…", any other failure a 500 "AI API error: <status>" |
| `RecommendPhones.UpstreamFailureStatus` | supabase/functions/recommend-phones/index.ts:177-183 | a failed gateway call is answered with 402, 429 or 500, and a 500's message ends in digits that read back as the gateway's status |
| `RecommendPhones.Handle` | supabase/functions/recommend-phones/index.ts:15-175 | a falsy budget gives 400 "Budget is required" before any call; a missing key gives 500 before any call; a failed fetch gives 500; an empty fetch gives an empty list and no model call; the model sees the summaries and the preferences text; each gateway, content and parse failure gives its own reply; a non-empty fetch always reaches the model; a parsed reply without `recommendations` gives 500 from the engine's `TypeError`; a parsed reply with them always gives 200 with the enriched list and the summary; 400 happens exactly for a falsy budget |
| `GenerateSpecs.UpdatePayload` | supabase/functions/generate-specs/index.ts:117-130 | the payload holds exactly the twelve columns the reply names, with the reply's values |
| `GenerateSpecs.ApplyPayload` | supabase/functions/generate-specs/index.ts:115-131 | a column the payload names takes the payload's value; every other column keeps its own |
| `GenerateSpecs.FullReplyOverwritesAllColumns` | supabase/functions/generate-specs/index.ts:117-130 | a reply naming all twelve columns determines all twelve, whatever the row held |
| `GenerateSpecs.UnnamedColumnsKept` | supabase/functions/generate-specs/index.ts:117-130 | a column the reply does not name keeps its value |
| `GenerateSpecs.ExtraKeysNotPersisted` | supabase/functions/generate-specs/index.ts:117-130 | keys outside the twelve columns never change the row |
| `GenerateSpecs.ApplyPayloadIdempotent` | supabase/functions/generate-specs/index.ts:115-131 | applying the same reply twice gives the same row as applying it once |
| `GenerateSpecs.PhonesTable.constructor` | supabase/functions/generate-specs/index.ts:115-116 | the table starts with the given rows, each keyed by its own id |
| `GenerateSpecs.PhonesTable.Update` | supabase/functions/generate-specs/index.ts:115-131 | the row with the id gets the payload's columns and nothing else changes; with no such row nothing changes |
| `GenerateSpecs.Handle` | supabase/functions/generate-specs/index.ts:15-141 | a missing name or id gives 400 and no change; the key, gateway, content, parse and update failures each give their 500, and a parsed `null` gives the engine's 500; a parsed object with a successful update always gives 200; only a 200 changes the table, and then exactly one row by the reply's twelve columns, echoing the parsed reply with `updated: true` |
| `GenerateReview.SpecBlock` | supabase/functions/generate-review/index.ts:28-45 | the block is the sixteen template lines joined by line breaks and trimmed: the template's leading line break and trailing indentation are dropped |
| `GenerateReview.BlockLinesSingle` | supabase/functions/generate-review/index.ts:29-44 | with no line break in any value, no template line holds one |
| `GenerateReview.BlockSplitsIntoLines` | supabase/functions/generate-review/index.ts:28-45 | the trimmed template splits on line breaks into exactly its sixteen lines |
| `GenerateReview.BlockLinesSayFields` | supabase/functions/generate-review/index.ts:29-44 | the sixteen template lines carry the name, the price with the original price exactly when it is truthy, the discount or an empty line, the rating or "N/A", and each column's value or "Unknown" |
| `GenerateReview.SpecBlockReadsBack` | supabase/functions/generate-review/index.ts:28-45 | reading the trimmed block back line by line recovers every field with its default, as long as no value holds a line break and the dimensions do not end in whitespace |
| `GenerateReview.Handle` | supabase/functions/generate-review/index.ts:14-124 | no phone gives 400 "Phone data is required" and no call; a missing key gives 500 and no call; the model is sent the phone's block; each gateway, content and parse failure gives its 500; the reply is 200 exactly when parsing succeeds, and then it wraps the parsed value as `{ review }` |
| `CatalogPage.SortOrder` | src/pages/Index.tsx:29-32 | price-low orders by `current_price` ascending, price-high by `current_price` descending, rating by `rating` descending, newest by `created_at` descending, each exactly |
| `CatalogPage.Visible` | src/pages/Index.tsx:40 | before the data arrives nothing is visible; after it, exactly the first min(displayCount, n) phones, in order |
| `CatalogPage.LoadMoreReveals` | src/pages/Index.tsx:100-103 | while "Load More" is shown, pressing it keeps the visible phones and reveals more; once hidden, every phone is visible |
| `CatalogPage.Heading` | src/pages/Index.tsx:84 | the heading names the selected brand, or "All" when none is selected |
| `CatalogPage.Catalog.constructor` | src/pages/Index.tsx:14-20 | the page starts with no brand, "newest", empty search and 12 phones shown |
| `CatalogPage.Catalog.SelectBrand` | src/pages/Index.tsx:80 | selecting a brand sets it and goes back to 12 phones; search and sort are kept |
| `CatalogPage.Catalog.SetSort` | src/pages/Index.tsx:85 | changing the sort keeps the number of phones shown |
| `CatalogPage.Catalog.SetSearch` | src/pages/Index.tsx:62 | changing the search keeps the number of phones shown |
| `CatalogPage.Catalog.LoadMore` | src/pages/Index.tsx:103 | "Load More" adds exactly 12, so the count stays a positive multiple of 12 |
| `CatalogPage.Catalog.BuildQuery` | src/pages/Index.tsx:25-32 | the brand filter is added exactly when the brand is non-empty and the name filter exactly when the search is, brand first, then the sort option's ordering |
| `PhoneFinder.Remove` | src/components/phone/PhoneRecommendations.tsx:63 | the filter drops the id and keeps every other id |
| `PhoneFinder.RemoveCounts` | src/components/phone/PhoneRecommendations.tsx:63 | the filter drops every copy of the id and keeps every copy of the others |
| `PhoneFinder.RemoveAppend` | src/components/phone/PhoneRecommendations.tsx:63 | the filter works piecewise over a concatenation, so kept ids stay in their relative order |
| `PhoneFinder.RemoveAbsent` | src/components/phone/PhoneRecommendations.tsx:63 | filtering out an absent id changes nothing |
| `PhoneFinder.RemoveDistinct` | src/components/phone/PhoneRecommendations.tsx:63 | filtering keeps a duplicate-free list duplicate-free |
| `PhoneFinder.Toggled` | src/components/phone/PhoneRecommendations.tsx:60-66 | after a toggle the id is a member exactly when it was not; no other id changes membership |
| `PhoneFinder.ToggleCases` | src/components/phone/PhoneRecommendations.tsx:60-66 | an absent id is appended at the end; a present one is removed everywhere, the others keeping their order and counts |
| `PhoneFinder.ToggleTwiceRestores` | src/components/phone/PhoneRecommendations.tsx:60-66 | toggling an absent id twice gives the original list |
| `PhoneFinder.ToggleKeepsDistinct` | src/components/phone/PhoneRecommendations.tsx:60-66 | a toggle keeps a duplicate-free list duplicate-free |
| `PhoneFinder.SubmitAllowed` | src/components/phone/PhoneRecommendations.tsx:70-72 | a budget the guard lets through is non-empty text whose `Number` is a truthy number, so `RecommendPhones.Handle`, which answers 400 exactly for a falsy budget, never answers it with 400; a NaN budget is never let through |
| `PhoneFinder.SubmitDisabled` | src/components/phone/PhoneRecommendations.tsx:134 | an empty budget or a pending request disables the button; an enabled button means a non-empty budget, no pending request, and a `Number` that is positive or NaN |
| `PhoneFinder.DisabledIsComplement` | src/components/phone/PhoneRecommendations.tsx:134 | whenever `Number(budget)` is a number, the button is disabled exactly when a submit would be ignored or a request is pending |
| `PhoneFinder.NaNBudgetEnabledButIgnored` | src/components/phone/PhoneRecommendations.tsx:70-72 | for non-empty text read as NaN the button is enabled and a submit sends nothing |
| `PhoneFinder.FinderForm.constructor` | src/components/phone/PhoneRecommendations.tsx:41-42 | the form starts with an empty budget and no preferences |
| `PhoneFinder.FinderForm.SetBudget` | src/components/phone/PhoneRecommendations.tsx:97 | typing sets the budget text and keeps the preferences |
| `PhoneFinder.FinderForm.TogglePreference` | src/components/phone/PhoneRecommendations.tsx:60-66 | the preferences become the toggled list and stay duplicate-free |
| `PhoneFinder.FinderForm.Submit` | src/components/phone/PhoneRecommendations.tsx:68-73 | `handleSubmit` sends a request exactly when the budget is non-empty and `Number(budget) > 0`, carrying that number and the preferences; the number sent is a truthy budget for the endpoint |
| `PhoneFinder.Tags` | src/components/phone/PhoneRecommendations.tsx:207 | all the tags when there are three or fewer, otherwise exactly the first three |
| `PhoneFinder.Cards` | src/components/phone/PhoneRecommendations.tsx:173-211 | one card per recommendation, in order; each card shows its recommendation's reason and the first three of its `best_for` tags |
| `PhoneFinder.CardsLabelPositions` | src/components/phone/PhoneRecommendations.tsx:182 | each badge reads "#" followed by its list position plus one, whatever `rank` says, so no two badges are equal; each card shows exactly the first three tags (all of them when there are fewer) and the recommendation's reason |
| `SpecsTable.Filtered` | src/components/SpecsTable.tsx:9 | no more rows than the input, and every shown row has a non-empty value |
| `SpecsTable.Kept` | src/components/SpecsTable.tsx:9 | the kept positions are positions of the input |
| `SpecsTable.FilteredIsTruthySubsequence` | src/components/SpecsTable.tsx:9 | the shown rows are the input rows at increasing positions, and a position is kept exactly when its value is non-empty |
| `SpecificationsSection.RenderGroup` | src/components/phone/SpecificationsSection.tsx:26-53 | a group renders exactly when some value is non-empty; then every entry is a row, in order, showing its value or "—" |
| `SpecificationsSection.RenderedGroupShowsAValue` | src/components/phone/SpecificationsSection.tsx:33-47 | a rendered group has no empty cell and shows at least one real value |
| `SpecificationsSection.HighlightCard` | src/components/phone/SpecificationsSection.tsx:55-75 | a card renders exactly when its value is non-empty, with that value |
| `SpecificationsSection.BackCamera` | src/components/phone/SpecificationsSection.tsx:102 | the back camera is the main camera's text before the first '+', trimmed, and holds no '+' |
| `SpecificationsSection.Highlights` | src/components/phone/SpecificationsSection.tsx:98-103 | at most four cards, none empty; the Display, RAM, Battery and Back Camera cards appear exactly when their value is non-empty, showing that value |
| `SpecificationsSection.Groups` | src/components/phone/SpecificationsSection.tsx:106-160 | no more groups than declared, and every shown group is the rendering of one declared group |
| `SpecificationsSection.GroupsInLayoutOrder` | src/components/phone/SpecificationsSection.tsx:106-160 | the shown groups are the declared groups at strictly increasing positions, so in layout order and none twice; a group is shown exactly when one of its values is non-empty |
| `SpecificationsSection.GroupsShowEveryValuedGroup` | src/components/phone/SpecificationsSection.tsx:106-160 | every group with a non-empty value is shown |
| `SpecificationsSection.Section` | src/components/phone/SpecificationsSection.tsx:77-93 | the fallback is shown exactly when processor, ram, storage, battery, main camera, display size and OS are all empty |
| `SpecificationsSection.DetailedHasAGroup` | src/components/phone/SpecificationsSection.tsx:78-160 | whenever the fallback is not shown, at least one specification group renders |
| `SpecificationsSection.HighlightsInOrder` | src/components/phone/SpecificationsSection.tsx:98-103 | one card per non-empty value, and the cards keep the order Display, RAM, Battery, Back Camera |
| `SpecificationsSection.HighlightsMayBeEmpty` | src/components/phone/SpecificationsSection.tsx:98-103 | a phone with only a processor shows the detailed view with no highlight card |
| `BrandFilter.LessIrreflexive` | src/components/phone/BrandFilter.tsx:24 | no text sorts before itself |
| `BrandFilter.LessTransitive` | src/components/phone/BrandFilter.tsx:24 | the default sort order is transitive |
| `BrandFilter.LessTotal` | src/components/phone/BrandFilter.tsx:24 | of two different texts one sorts first |
| `BrandFilter.StrictlySortedIsDistinct` | src/components/phone/BrandFilter.tsx:24 | a strictly sorted list has no duplicates |
| `BrandFilter.NonNull` | src/components/phone/BrandFilter.tsx:16-19 | the fetched brands are exactly the non-null brand values |
| `BrandFilter.Unique` | src/components/phone/BrandFilter.tsx:24 | `new Set` gives a duplicate-free list of the same values |
| `BrandFilter.Insert` | src/components/phone/BrandFilter.tsx:24 | inserting adds exactly the one value |
| `BrandFilter.InsertSorted` | src/components/phone/BrandFilter.tsx:24 | inserting a new value into a strictly sorted list keeps it strictly sorted |
| `BrandFilter.Sort` | src/components/phone/BrandFilter.tsx:24 | `sort` gives a strictly sorted list of the same values |
| `BrandFilter.Brands` | src/components/phone/BrandFilter.tsx:24 | the brand list is strictly sorted and holds exactly the brands that some row has |
| `BrandFilter.BrandsSortedAndComplete` | src/components/phone/BrandFilter.tsx:16-24 | the brand list is sorted, has no duplicates, and holds exactly the brands of the fetched rows |
| `BrandFilter.SortedUnique` | src/components/phone/BrandFilter.tsx:24 | two strictly sorted lists of the same values are equal |
| `BrandFilter.BrandsDeterminedByOccurrence` | src/components/phone/BrandFilter.tsx:16-24 | the brand list is the one sorted list of the brands that occur, whatever the row order |
| `BrandFilter.Buttons` | src/components/phone/BrandFilter.tsx:33-49 | "All Brands" first, then one button per brand, in order |
| `BrandFilter.ActiveButtonRule` | src/components/phone/BrandFilter.tsx:33-45 | at most one button is active, and one is active exactly when nothing is selected or the selected brand is listed |
| `ReviewSection.ScoreColor` | src/components/phone/AIReviewSection.tsx:14-19 | green exactly from 85, yellow exactly in [70, 85), orange exactly in [50, 70), red below 50 or for NaN |
| `ReviewSection.ScoreColorMonotone` | src/components/phone/AIReviewSection.tsx:14-19 | a higher score never gets a worse band |
| `ReviewSection.Bars` | src/components/phone/AIReviewSection.tsx:92-96 | five bars, one per score, in layout order, each coloured by its own score |
| `ReviewSection.ReviewView` | src/components/phone/AIReviewSection.tsx:58-67 | while loading the skeleton shows whatever the review; outside loading, no review renders nothing |
| `Currency.CurrencyFor` | src/hooks/useCurrency.ts:36-59 | loading or undetermined gives Rs/PKR/1 loading; Pakistan gives Rs/PKR/1; elsewhere gives $/USD/280 |
| `Currency.RateOneIffPkr` | src/hooks/useCurrency.ts:36-59 | the rate is 1 exactly when the code is PKR, and the symbol is Rs exactly then |
| `Currency.CurrencyHook.constructor` | src/hooks/useCurrency.ts:13-14 | the hook starts undetermined and loading, showing rupees |
| `Currency.CurrencyHook.Detect` | src/hooks/useCurrency.ts:16-29 | "PK" means Pakistan; a failure counts as Pakistan; loading ends either way |
| `SeoHead.PageImage` | src/components/SEOHead.tsx:23 | an omitted image is the site's OG image |
| `SeoHead.MetaValues` | src/components/SEOHead.tsx:43-53 | seven head values are written, each under a different name: the description under `description` and `og:description`, the title under `og:title`, the page type under `og:type`, the page image under `og:image`, and the current URL under `canonical` and `og:url` |
| `SeoHead.MetaDefaults` | src/components/SEOHead.tsx:23-51 | without a page type `og:type` is "website", and "product" for a product page; without an image `og:image` is the site's OG image; with an empty canonical the canonical link is the site root |
| `SeoHead.CurrentUrl` | src/components/SEOHead.tsx:50-51 | the current URL is the canonical one when it is non-empty, the site root otherwise |
| `SeoHead.CanonicalAndOgUrlAgree` | src/components/SEOHead.tsx:50-53 | the canonical link and `og:url` carry the same current URL |
| `SeoHead.BrandName` | src/components/SEOHead.tsx:70 | the brand is the phone's brand when truthy, otherwise the name's text before its first space |
| `SeoHead.BrandFromNameIsFirstWord` | src/components/SEOHead.tsx:70 | a brand taken from the name is a space-free prefix of it, ending at a space or at the name's end |
| `SeoHead.SchemaData` | src/components/SEOHead.tsx:64-96 | the schema is a Product exactly when there is a phone |
| `SeoHead.ProductSchemaFields` | src/components/SEOHead.tsx:64-84 | the product carries the phone's name, the page description and the brand name; the offer is in PKR at the phone's price and the current URL; the rating is present exactly when truthy, with 85 reviews; the image is the phone's when truthy, otherwise the page image (the site's OG image when none is given) |
| `SeoHead.WebSiteSchemaFields` | src/components/SEOHead.tsx:85-96 | without a phone the schema is the site with its URL and the `search={search_term_string}` target |

## Left out

- The database queries:
  - for `recommend-phones`, the fetched rows are an input;
  - for `generate-specs`, the update is a map write on `PhonesTable`;
  - for the `Index` page, the query is built but not run;
  - for the brand filter, the query yields the rows' `brand` column.
- The ±20% budget window (`budget * 0.8`, `budget * 1.2`) and the `limit(20)`: these belong to the query, and the query is an input.
- The HTTP calls to the model gateways and to the geolocation service: their answers are inputs.
- `JSON.parse` and `Number`: these are function parameters with no properties assumed.
- The text of the prompts, and what the model's output means:
  - `generate-review` records only the phone block it sends;
  - `recommend-phones` records the budget, the preferences text and the summaries.
- `JSON.stringify` of the reply bodies and of the phone summaries: bodies are datatypes.
- Reply values that are not text or `null`:
  - `SpecObject` values in `generate-specs` are text or `null`;
  - a model sending numbers or nested objects there is not modelled.
- Infinite numbers: `JsNumber` has NaN and finite values only.
- Character order: the brand sort compares Dafny characters, which are Unicode scalar values. JavaScript compares UTF-16 code units, and the two orders differ only for characters outside the Basic Multilingual Plane.
- Gateway replies that are not well-formed:
  - `await response.json()` throwing on a 2xx body that is not JSON: in all three endpoints the outer `catch` answers 500 with the engine's message;
  - a gateway body that parses to JSON `null`, where reading `data.choices` throws a `TypeError`;
  - the handlers take `choices[0].message.content` as an input (`Upstream.content`), so both cases above are outside the model.
- `GenerateSpecs.Handle`: `JSON.parse` yielding a number, a string, a boolean or an array is not modelled; `Parsed` holds only `null` and an object.
- Request parsing, CORS preflight, logging, React rendering, styling, react-query caching and retries, and the loading spinners of the catalogue grid and of the brand filter.
- `updateMeta` and the script-tag handling in the page head: these are DOM updates. Only the values written are modelled.
- `formatPrice`: float division and `toLocaleString`.
- Trim: its own contract gives only the length and the two ends. Which slice of the input it is, the whitespace cut off before and after, is stated by `Text.TrimIsMiddle`. It is kept apart so that the many proofs that use `Trim` stay small.
- `GenerateReview.SpecBlockReadsBack`:
  - It assumes no value holds a line break, and that the dimensions do not end in whitespace, since the final `trim` would cut it.
  - The block itself is modelled for every input.
- `GenerateReview.Handle`: the `phone` object is modelled as a catalogue row. Fields missing from it, which would render as "undefined", are not modelled.
- FinderForm.Submit: the model starts at `handleSubmit`. The budget input is `type="number"` with `min="1000"`, and its default step is 1. The browser checks these before the submit event fires, so a budget that is not a whole number of at least 1000 is blocked there. The model lets through every budget that `handleSubmit` itself accepts, such as "500" or "1500.5".
- `RecommendPhones.Handle`: a recommendation is modelled with the five fields the prompt asks for: `phone_id`, `rank`, `match_score`, `reason` and `best_for`. The source copies every field the model sent (`{...rec}`), so any other field is echoed in the reply as well. A `null` entry in `recommendations` throws when reading `rec.phone_id`, and the outer `catch` answers 500; `Recommendation` has no null, so this path is not modelled.
- `CatalogPage.Catalog.BuildQuery`: the `%` wildcards in the brand and search text are passed through unescaped, just as the page does. Pattern matching itself is not modelled.
