# Portfolio catalog, browse filter and contact submission

A model of the logic behind a game studio's marketing site:

- **The portfolio catalog** (`src/data/portfolioData.ts`). This is a fixed list of nine project records plus the lookup lists the page's selectors offer. Four query helpers narrow the catalog: featured projects, by category, by status, and a case-insensitive free-text search.
- **The portfolio browsing page** (`src/pages/Portfolio.tsx`).
  - It combines a search box and three selectors (category, status, platform) into one filter. `All` means "no restriction".
  - It mirrors the search term in the URL's `search` parameter.
  - It offers a button that clears every restriction.
  - Its heading pluralises the result count.
- **The portfolio section of the home page** (`src/components/sections/PortfolioSection.tsx`).
  - It shows cards for the featured projects.
  - It validates a contact form.
  - It posts accepted submissions to a chat webhook. A message is truncated to the webhook's 1024-character field limit first.
  - It moves its banner between idle, success and error according to how the webhook call ends.

Modules, one per file:

| file | module | contents |
|---|---|---|
| `wrappers.dfy` | `Wrappers` | `Option` for optional record properties |
| `text.dfy` | `Text` | `toLowerCase` and `includes` on `seq<char>` |
| `filtering.dfy` | `Filtering` | `Array.prototype.filter` on sequences, with subsequence and membership lemmas |
| `portfolio_data.dfy` | `PortfolioData` | the project record, the nine-record catalog, the lookup lists, the four query helpers and facts about the catalog |
| `portfolio_page.dfy` | `PortfolioPage` | the page's filter, heading and URL rules, and a `Page` class for its state |
| `portfolio_section.dfy` | `PortfolioSection` | truncation, the form schema, the card display rules, and a `ContactSubmission` class for the submit state machine |

Design choices:

- **The query helpers take the project list as a parameter.** In the source they read the module-level `portfolioProjects` array. Here every property of a helper is proved for any list, and the catalog facts instantiate those properties with `Catalog`, the literal copy of the nine records.
- **The page's state is a class.** Its methods `HandleSearch`, `SyncFromUrl`, the three `Select…` methods and `ClearFilters` are the page's setters and handlers. Each method's contract states its entire new state.
- **The submit state is a class.** Its invariant `Valid` says the form's challenge field holds the stored token. `BeginSubmit` runs `onSubmit` up to the `await` on `fetch`, `FinishSubmit` runs the rest, and `OnSubmit` runs both back to back. `FinishSubmit` and `OnSubmit` take the outcome of the webhook call as an input: no webhook configured, a response with or without an ok status, or an exception. Their contracts tie the new status to the pure function `StatusAfter`.

## Model

| member | source | states |
|---|---|---|
| `Text.Lower` | src/data/portfolioData.ts:201 | lower-casing keeps the length and maps every character through the single-character case mapping |
| `Text.LowerOfUpper` | src/data/portfolioData.ts:201 | under the model's single-character case mapping, lower-casing the upper-cased form of a string gives the lower-cased string |
| `Text.LowerIdempotent` | src/data/portfolioData.ts:201 | lower-casing twice is lower-casing once |
| `Text.ContainsIffOccurs` | src/data/portfolioData.ts:203-206 | `includes` holds exactly when the term occurs at some index of the string |
| `Text.ContainsEmpty` | src/pages/Portfolio.tsx:36-39 | every string includes the empty string |
| `Text.ContainsShorter` | src/pages/Portfolio.tsx:36-39 | a string only includes terms no longer than itself |
| `Filtering.Filter` | src/data/portfolioData.ts:187 | `filter` returns an in-order subsequence of its input, no longer than it, whose members are exactly the accepted members of the input |
| `Filtering.FilterTwice` | src/pages/Portfolio.tsx:45 | filtering by one predicate and then another is filtering by their conjunction |
| `Filtering.FilterDistinct` | src/data/portfolioData.ts:187 | filtering a list without repeats gives a list without repeats |
| `Filtering.FilterUnique` | src/data/portfolioData.ts:187 | on a list without repeats, the in-order subsequence holding exactly the accepted members is the filter's result |
| `Filtering.FilterAtIndices` | src/data/portfolioData.ts:187 | when the accepted elements are exactly those at given ascending indices, the filter returns the elements at those indices |
| `PortfolioData.GetFeaturedProjects` | src/data/portfolioData.ts:186-188 | the result is an in-order subsequence of the records whose members are exactly the records flagged featured |
| `PortfolioData.GetProjectsByCategory` | src/data/portfolioData.ts:190-193 | `All` returns the records unchanged; any other category returns the in-order subsequence of records with exactly that category |
| `PortfolioData.GetProjectsByStatus` | src/data/portfolioData.ts:195-198 | `All` returns the records unchanged; any other string returns the in-order subsequence of records whose status is exactly that string |
| `PortfolioData.SearchProjects` | src/data/portfolioData.ts:200-208 | the result is the in-order subsequence of records whose lower-cased title, description, some tag or category includes the lower-cased term |
| `PortfolioData.UnknownCategoryIsEmpty` | src/data/portfolioData.ts:190-193 | a category no record carries gives an empty list, not an error |
| `PortfolioData.UnknownStatusIsEmpty` | src/data/portfolioData.ts:195-198 | a status no record carries gives an empty list |
| `PortfolioData.SearchEmptyIsCatalog` | src/data/portfolioData.ts:200-208 | the empty term matches every record |
| `PortfolioData.SearchIgnoresCase` | src/data/portfolioData.ts:201 | under the model's case mapping, a term and its upper-case spelling find the same records |
| `PortfolioData.SearchFindsByTag` | src/data/portfolioData.ts:205 | a term included in any single tag finds the record |
| `PortfolioData.CatalogIds` | src/data/portfolioData.ts:20-183 | the catalog has nine records, numbered 1 to 9 in order |
| `PortfolioData.CatalogDistinct` | src/data/portfolioData.ts:20-183 | no record occurs twice in the catalog |
| `PortfolioData.CatalogCategoriesListed` | src/data/portfolioData.ts:210 | the category list is `All` followed by each record's category in catalog order |
| `PortfolioData.StatusesListed` | src/data/portfolioData.ts:211 | the status list is `All` followed by the three status labels, so every status is selectable |
| `PortfolioData.CatalogPlatformsListed` | src/data/portfolioData.ts:212 | every record's platform is one of the platform list's choices after `All` |
| `PortfolioData.CatalogFeaturedFlags` | src/data/portfolioData.ts:20-183 | exactly the first three records are flagged featured |
| `PortfolioData.FeaturedOfFlags` | src/data/portfolioData.ts:186-188 | for any nine-record list whose first three records alone are featured, the featured list is those three, ids 1, 2, 3 |
| `PortfolioData.FeaturedAreFirstThree` | src/data/portfolioData.ts:186-188 | the catalog's featured projects are its first three records, ids 1, 2, 3 |
| `PortfolioData.CatalogDevelopmentFlags` | src/data/portfolioData.ts:20-183 | exactly the third, sixth and ninth records are in development |
| `PortfolioData.DevelopmentOfFlags` | src/data/portfolioData.ts:195-198 | for any nine-record list whose records 3, 6, 9 alone are in development, selecting that status gives those three |
| `PortfolioData.DevelopmentAreEveryThird` | src/data/portfolioData.ts:195-198 | selecting `Development` on the catalog gives the records with ids 3, 6 and 9 |
| `PortfolioData.UnlistedCategoryIsEmpty` | src/data/portfolioData.ts:190-193 | a category outside the selector's list selects nothing from the catalog |
| `PortfolioPage.FilteredProjects` | src/pages/Portfolio.tsx:34-47 | the page's list is the in-order subsequence of records that pass the text test and all three selectors |
| `PortfolioPage.FilteredIsChainOfFilters` | src/pages/Portfolio.tsx:35-46 | the combined filter equals applying the text, category, status and platform filters one after another |
| `PortfolioPage.UnrestrictedIsCatalog` | src/pages/Portfolio.tsx:36-43 | an empty term with every selector at `All` lists the whole catalog |
| `PortfolioPage.CategoryOnlyIsByCategory` | src/pages/Portfolio.tsx:41 | with only the category selector set, the page agrees with `getProjectsByCategory` |
| `PortfolioPage.StatusOnlyIsByStatus` | src/pages/Portfolio.tsx:42 | with only the status selector set, the page agrees with `getProjectsByStatus` |
| `PortfolioPage.TextMatchImpliesSearchMatch` | src/pages/Portfolio.tsx:36-39 | a record the page's text test accepts is also accepted by `searchProjects`' test |
| `PortfolioPage.FilteredNarrowsSearch` | src/pages/Portfolio.tsx:34-47 | the page's list is `searchProjects`' list further narrowed by the page's callback |
| `PortfolioPage.SearchMatchNotImpliesTextMatch` | src/pages/Portfolio.tsx:36-39 | the converse fails: a record whose category alone contains the term is found by `searchProjects` and not by the page |
| `PortfolioPage.PluralSuffix` | src/pages/Portfolio.tsx:192 | the suffix is empty exactly when the count is one, and `s` otherwise |
| `PortfolioPage.ResultsHeading` | src/pages/Portfolio.tsx:192 | the heading is singular exactly when one record is listed, and plural in both words otherwise |
| `PortfolioPage.InitialTerm` | src/pages/Portfolio.tsx:19 | the initial term is the URL's `search` parameter, or empty when it is absent |
| `PortfolioPage.ParamsForSearch` | src/pages/Portfolio.tsx:51-55 | a non-empty search installs the single parameter `search`; an empty one clears every parameter |
| `PortfolioPage.TermAfterSync` | src/pages/Portfolio.tsx:26-31 | the URL effect replaces the term only with a present, non-empty `search` parameter |
| `PortfolioPage.SyncAfterSearchKeepsTerm` | src/pages/Portfolio.tsx:49-56 | the effect that follows `handleSearch(value)` leaves the term at `value` |
| `PortfolioPage.InitialTermIsSynced` | src/pages/Portfolio.tsx:19-31 | the effect's first run does not change the initial term |
| `PortfolioPage.SyncIdempotent` | src/pages/Portfolio.tsx:26-31 | running the effect twice on the same parameters is running it once |
| `PortfolioPage.NavigatedSearchBecomesTerm` | src/components/sections/HeroSection.tsx:26-36 | opening the page with a non-empty `search` query makes that query the term, whatever the term was |
| `PortfolioPage.NavigationWithoutSearchKeepsTerm` | src/pages/Portfolio.tsx:26-31 | a URL without a non-empty `search` parameter leaves the term as it was |
| `PortfolioPage.Page.Filtered` | src/pages/Portfolio.tsx:34-47 | the rendered list holds exactly the page's records matching the current term and selectors, in order |
| `PortfolioPage.Page.constructor` | src/pages/Portfolio.tsx:18-22 | the term starts from the URL and every selector at `All` |
| `PortfolioPage.Page.HandleSearch` | src/pages/Portfolio.tsx:49-56 | the term becomes the typed value; the parameters become `search=value`, or none for an empty value; the selectors are untouched |
| `PortfolioPage.Page.SyncFromUrl` | src/pages/Portfolio.tsx:26-31 | a present, non-empty `search` parameter becomes the term; otherwise nothing changes |
| `PortfolioPage.Page.Navigate` | src/components/layout/Header.tsx:32-38 | a URL change from outside installs the new parameters and the effect's term, leaving the selectors alone |
| `PortfolioPage.Page.SelectCategory` | src/pages/Portfolio.tsx:136 | only the category selector changes |
| `PortfolioPage.Page.SelectStatus` | src/pages/Portfolio.tsx:152 | only the status selector changes |
| `PortfolioPage.Page.SelectPlatform` | src/pages/Portfolio.tsx:168 | only the platform selector changes |
| `PortfolioPage.Page.ClearFilters` | src/pages/Portfolio.tsx:317-323 | the term is empty, every selector is `All`, the parameters are cleared, and the page lists the whole catalog again |
| `PortfolioSection.TruncateMessage` | src/components/sections/PortfolioSection.tsx:167 | the sent message never exceeds 1024 characters; a message that fits is sent unchanged; a longer one becomes exactly 1024 characters, its first 1021 followed by `...` |
| `PortfolioSection.TruncateIdempotent` | src/components/sections/PortfolioSection.tsx:167 | truncating an already truncated message changes nothing |
| `PortfolioSection.Rejected` | src/components/sections/PortfolioSection.tsx:19-24 | a name under 2 characters, a malformed address, a message under 10 characters and an empty challenge response are each rejected, and nothing else is |
| `PortfolioSection.AcceptedIffNothingRejected` | src/components/sections/PortfolioSection.tsx:19-24 | the form is accepted exactly when no field is rejected |
| `PortfolioSection.PayloadFor` | src/components/sections/PortfolioSection.tsx:155-170 | the payload carries the name and address unchanged, and the message after the truncation rule: within the field limit, unchanged when it fits |
| `PortfolioSection.StatusAfter` | src/components/sections/PortfolioSection.tsx:137-218 | a submission ends in success exactly when a token is present and the webhook is missing or answers ok; it never ends idle |
| `PortfolioSection.ContactSubmission.constructor` | src/components/sections/PortfolioSection.tsx:48-51 | the banner starts idle, nothing is being submitted, there is no token, the form is empty and nothing has been sent |
| `PortfolioSection.ContactSubmission.EditFields` | src/components/sections/PortfolioSection.tsx:450-479 | typing changes the name, email and message values only |
| `PortfolioSection.ContactSubmission.ReceiveToken` | src/components/sections/PortfolioSection.tsx:82-85 | the token is stored and copied into the form's challenge field; nothing else changes |
| `PortfolioSection.ContactSubmission.DropToken` | src/components/sections/PortfolioSection.tsx:86-93 | the token is cleared in the state and the form; nothing else changes, also while a request is pending |
| `PortfolioSection.ContactSubmission.BeginSubmit` | src/components/sections/PortfolioSection.tsx:137-206 | without a token the status becomes error and nothing else changes; with a token and no webhook the submission succeeds at once, clearing the token and the form; otherwise the truncated payload is sent and the submission stays pending with the busy flag set |
| `PortfolioSection.ContactSubmission.FinishSubmit` | src/components/sections/PortfolioSection.tsx:187-217 | once `fetch` settles the busy flag is false; an ok response is a success that clears the token and the form; a failed response or an exception is an error that keeps the token and form as they are at that moment |
| `PortfolioSection.ContactSubmission.OnSubmit` | src/components/sections/PortfolioSection.tsx:137-218 | run without interruption: without a token the status becomes error and nothing else changes; with one, the status is `StatusAfter`'s, the busy flag ends false, the truncated payload is sent unless no webhook is configured, success clears the token and the form, and an error keeps both |
| `PortfolioSection.ContactSubmission.HandleSubmit` | src/components/sections/PortfolioSection.tsx:444 | the form's own values are checked; rejected values change nothing; an accepted form always has a token, and its submission ends with `StatusAfter`'s status, the busy flag false, the form's payload sent unless no webhook is configured, and the token and form cleared on success and kept on error |
| `PortfolioSection.CardText` | src/components/sections/PortfolioSection.tsx:312 | a card shows the short description when it is present and non-empty, and the full description otherwise |
| `PortfolioSection.VisibleTags` | src/components/sections/PortfolioSection.tsx:329 | a card shows a prefix of the tags of length at most three |
| `PortfolioSection.CardOf` | src/components/sections/PortfolioSection.tsx:272-338 | a card carries the project's id, title, status, platform, players and revenue figures, display text and visible tags |
| `PortfolioSection.Cards` | src/components/sections/PortfolioSection.tsx:272 | there is one card per featured project, in the featured list's order |
| `PortfolioSection.CardsFollowIds` | src/components/sections/PortfolioSection.tsx:58 | the cards' ids are the featured projects' ids, in order |

## Left out

- `Text.Lower`: only ASCII and the Latin-1 letters U+00C0..U+00DE are mapped. JavaScript's full Unicode case mapping, including mappings that change the length of a string, is not modelled. The catalog's non-ASCII characters (`á`, `é`, `í`, `ñ`, `ó`, `ú`) are already lower case.
- `Text.Contains`: it compares Unicode scalar values where JavaScript compares UTF-16 code units. For well-formed strings the two agree; they differ only for strings holding lone surrogates, which a Dafny `string` cannot hold.
- `PortfolioSection.Rejected`: the address check of the validation library is not visible, so whether an address is well formed is an input. Length minima count Unicode scalar values where the library counts UTF-16 code units.
- `Text.LowerOfUpper`: the round trip holds for the model's one-to-one case table only. JavaScript's `toUpperCase` maps `µ` to Greek `Μ`, which lower-cases to `μ`, and maps `ß` to `SS`; for such characters the source's lower-casing of an upper-cased term differs from the lower-cased term.
- `PortfolioData.SearchIgnoresCase`: for the same reason this holds in the source only for terms without such characters, for example ASCII terms.
- `PortfolioSection.ContactSubmission.OnSubmit`: it runs `onSubmit` without interruption. The `await` on `fetch` is modelled by `BeginSubmit` and `FinishSubmit`, between which the busy flag is true and the token callbacks may run. `OnSubmit` and `HandleSubmit` promise nothing about such interleavings.
- `PortfolioData.Rating`: numeric ratings are kept in tenths (4.8 is `Score(48)`) because the model has no floating point.
- **Aliasing.** `getProjectsByCategory('All')` and `getProjectsByStatus('All')` return the catalog array itself. The model returns an equal value, so sharing of that array with the caller is not modelled.
- **The webhook call.** The request itself is not modelled: the URL comes from the environment, the body is JSON-serialized, and the embed's title, colour, timestamp and footer are decoration. Only the three field values are kept, in `Payload`. `requests` records each payload handed to `fetch`, and the call's outcome is an input.
- **The challenge widget.** Script loading, widget rendering, site key, widget id and the widget `reset`/`remove` calls are not modelled. Only the callbacks' effect on the token and the form is.
- **`reset()` of the form library.** It restores the form's default values. There are none here, so the form is modelled as becoming all-empty.
- **Presentation.** Animation, layout, icons, the filter panel's show/hide toggle, the achievement notification and its visibility observer have no logic to state.
- **Logging.** The success and error banner texts and console logging are left out.
- **Catalog card facts.** The cards of the concrete catalog are not listed one by one. `FeaturedAreFirstThree` gives the featured ids for the catalog, and `CardsFollowIds` carries ids from the featured list to the cards.
- `PortfolioSection.TruncateMessage`: lengths are counted in Unicode scalar values, where JavaScript counts UTF-16 code units. The two differ only for characters outside the Basic Multilingual Plane, where `substring` can also split a surrogate pair.
