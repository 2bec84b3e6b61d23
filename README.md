# ARMSX2 web: compatibility backend and list logic

This project models the logic of the ARMSX2 web site in Dafny. ARMSX2 is a
PlayStation 2 emulator for Android. The site hosts a community compatibility
list: players report how a game runs on their phone's SoC (system on a chip),
and a small backend groups those reports into one entry per game.

The backend (`server/index.js`) is modelled in five modules:

- `Scores`: the weight of each reported status (`STATUS_SCORES`, `getScoreForStatus`), and the
  consensus label computed from a mean weight (`statusFromAverage`).
- `Normalize`: `normalizeSoc` and `normalizeSubmission`. They accept both field spellings,
  resolve the defaults and the key priorities, and trim the text fields.
- `Aggregate`: the de-duplicating SoC union (`aggregateTestedSocs`) and the status histogram
  (`buildStatusBreakdown`). It also holds the grouping of seed and community reports by
  `TITLE-ID::REGION` (`groupGamesWithAverages`), the per-group summary, and `loadData`.
- `OAuth`: the single-use, ten-minute OAuth `state` store. It is the defence against cross-site
  request forgery of the authorization-code grant (sections 4.1 and 10.12 of RFC 6749). The
  module also holds the start route and the callback route with its order of checks.
- `Api`: `GET` and `POST /api/compatibility`, with the backend's two data files as fields of a
  class.

The client code is modelled one module per file:

- `FilteredGames`: `useFilteredGames`, which sorts, filters by status, searches and pages the
  list (ten games per page).
- `VersionSwapper`: the APK version picker. It covers the sliding window of page buttons, pages
  of four releases, the page-clamping effects and the release labels.
- `Carousel`: the hero slideshow. It covers the modular slide index, the position and placement
  of each slide, and the swipe rule.
- `SubmitModal`: the report form. It covers the merged SoC suggestions, the sign-in message
  receiver, the SoC row edits and the submit validation chain.
- `CompatList`: the list page. It covers the SoC name filter options, the status tally, the
  colour classes, the region flags and the per-card fields.
- `GameDetail`: the game detail dialog, with its field fallbacks, colour, flag and SoC rows.
- `DownloadData`: `useDownloadData`. It extracts the version from a release tag, keeps the
  releases that ship an APK, splits them into stable and nightly, and picks the latest release
  or the fallback.

Some modules are shared:

- `Wrappers`: `Option` and `Result`.
- `Text`: the JavaScript string operations used on `seq<char>`: `trim`, `toLowerCase`,
  `toUpperCase`, `includes`, `||` on strings, and the default code-unit order of `sort`.
- `Seqs`: filter, a stable insertion sort, `slice` with its index clamping, sums and means.
- `Listing`: the game record the client receives.

Some things stand in for what the model cannot see:

- The clock is a `now` parameter and the random OAuth token is a `token` parameter.
- Data files are `Document` values: missing, unparsable, or parsed.
- Requests to GitHub are abstract replies.
- The window width is a parameter.
- `localeCompare` is an arbitrary total preorder on titles, passed as `titleLe`.
- A missing or falsy JavaScript string is `None` or `""`, and `Truthy` tells them apart from a
  value.

## Model

| member | source | states |
|---|---|---|
| Scores.LookupIsWeightOfKind | server/index.js:24-37 | the `STATUS_SCORES` lookup (with its `?? unknown` fallback) agrees, key by key, with an independent classification of the twelve spellings into seven statuses plus "unrecognised" |
| Scores.ScoreIsWeightOfKind | server/index.js:90-94 | `getScoreForStatus` is the weight of the trimmed, lower-cased status; every weight lies in [0, 5]; an empty or unrecognised status weighs 1 |
| Scores.ScoreIsWeight | server/index.js:90-94 | the score of a status is the weight of the classification of its trimmed, lower-cased form, including the empty status |
| Scores.EmptyUnrecognised | server/index.js:91 | the empty key is not a status of the table |
| Scores.WeightRange | server/index.js:24-37 | every weight of the table lies in [0, 5], and the fallback weighs 1 |
| Scores.ScoreIgnoresCaseAndSpace | server/index.js:92 | the score of a status equals the score of its trimmed, lower-cased form |
| Scores.StatusBands | server/index.js:96-103 | each label owns the band [rank − 0.5, rank + 0.5) with inclusive lower bounds 0.5/1.5/2.5/3.5/4.5, open at both ends of the scale |
| Scores.StatusMonotone | server/index.js:96-103 | a higher average never gets a worse label |
| Scores.UnanimousLabel | server/index.js:96-103 | the label of a group whose reports all carry one status: each status maps to its own label, "boot" to "Menu", an unrecognised status to "Not Tested" |
| Normalize.NormalizeSoc | server/index.js:105-127 | every field of the result is non-empty; a falsy entry becomes "Unknown SoC", and a string keeps its name; both take the fallback status, or "Unknown", for both back-ends |
| Normalize.NormalizeSocPriorities | server/index.js:122-126 | for an object, the name is `soc_name` > `name` > "Unknown SoC", and each status is the snake_case field > the short field > the fallback > "Unknown" |
| Normalize.StoredSocRoundTrip | server/index.js:105-127 | normalising an already normalised entry, as stored in the submissions file, gives it back unchanged |
| Normalize.RawStatus | server/index.js:131 | the status used as the SoC fallback (`status \|\| compatibility \|\| "Unknown"`) is never empty |
| Normalize.NormalizeSocs | server/index.js:134-136 | every entry of `tested_socs` is normalised in place, in order, with the submission's status as fallback |
| Normalize.TrimmedOr | server/index.js:139-145 | `(value \|\| default).trim()`: the trimmed value when it is truthy, the (trimmed) default otherwise; the result is trimmed |
| Normalize.NormalizeSubmission | server/index.js:129-149 | the submitter is never empty; title, title id, region, status, notes and version are trimmed; `tested_socs` keeps its length when it is a list and is empty otherwise; every SoC is well formed |
| Normalize.SubmitterPriority | server/index.js:130 | the submitter is `githubUser` > `submittedBy` > the caller's default > "anonymous" |
| Normalize.TitleIdPriority | server/index.js:132-140 | the title id is the trimmed `title-id` > `titleId` > "UNKNOWN" |
| Normalize.NormalizeSubmissionDefaults | server/index.js:139-147 | the defaults "Unknown Title", "NTSC-U", "Unknown", "", "Unknown", and the current time for a missing `createdAt` |
| Normalize.StoredSocs | server/index.js:144 | the stored form of a SoC list, entry by entry |
| Normalize.StoredSocsRoundTrip | server/index.js:134-136 | re-normalising a stored SoC list gives the same list |
| Normalize.NonBlankReloadable | server/index.js:129-149 | a report whose title, title id, region, status and version are not blank is stored in a form that reloads unchanged |
| Normalize.EmptyTitleReloadsUnknown | server/index.js:139 | a stored report with an empty title reloads as "Unknown Title" |
| Normalize.NonBlankKept | server/index.js:139-145 | a value that is not blank is truthy and stays non-empty after trimming |
| Normalize.StoredIdentityRoundTrip | server/index.js:129-149 | reloading a stored reloadable report keeps its title, title id and region |
| Normalize.StoredReportRoundTrip | server/index.js:129-149 | reloading a stored reloadable report keeps its status and version |
| Normalize.StoredNotesRoundTrip | server/index.js:143 | reloading a stored reloadable report keeps its notes |
| Normalize.StoredSocListRoundTrip | server/index.js:134-136 | reloading a stored reloadable report keeps its SoC list |
| Normalize.StoredRoundTrip | server/index.js:129-149 | for a report whose text fields are non-blank and already trimmed, `loadData` reads back exactly the report the POST handler stored (normalise ∘ store = identity) |
| Aggregate.SocUnion | server/index.js:151-166 | reference definition of the SoC union: it keeps only entries of its input |
| Aggregate.SocUnionSnoc | server/index.js:157-161 | appending an entry to the input adds it to the union iff its key is new |
| Aggregate.KeysOfSnoc | server/index.js:157 | the key set of a list grows by the key of an appended entry |
| Aggregate.FlattenSnoc | server/index.js:155-156 | the SoCs of one more submission come after the SoCs seen so far |
| Aggregate.AggregateTestedSocs | server/index.js:151-166 | the nested loops over the `seen` set produce exactly the reference union of all the submissions' SoCs |
| Aggregate.SocUnionDistinct | server/index.js:157-161 | the union never holds two entries with the same `name\|vulkan\|opengl` key |
| Aggregate.SocUnionKeys | server/index.js:151-166 | the union has exactly the keys of its input: every input triple is represented |
| Aggregate.FirstIndex | server/index.js:158 | the first position of a key in a list: found iff the key occurs, and no earlier entry has it |
| Aggregate.FirstIndexOfPrefix | server/index.js:158 | appending does not move the first occurrence of a key already seen |
| Aggregate.FirstIndexOfLast | server/index.js:158 | a new key first occurs at the appended position |
| Aggregate.SocUnionFirstOccurrence | server/index.js:158-161 | each entry of the union is the first input entry with its key |
| Aggregate.SocUnionOrder | server/index.js:155-163 | the union lists its entries in first-seen order |
| Aggregate.SocKeyCollision | server/index.js:157 | two different triples can share a joined key ("a\|b","c","d" and "a","b\|c","d"), and the union then keeps only the first |
| Aggregate.BreakdownCounts | server/index.js:168-177 | a status key is in the histogram iff some submission's lower-cased status (default "unknown") is that key, and its count is the number of such submissions |
| Aggregate.MapSumRemove | server/index.js:168-177 | the total of a histogram is one key's count plus the total of the rest |
| Aggregate.MapSumUpdate | server/index.js:172 | setting one count changes the total by the difference |
| Aggregate.BreakdownTotal | server/index.js:168-177 | the histogram's counts sum to the number of submissions |
| Aggregate.MembersSnoc | server/index.js:297-313 | appending a submission adds it at the end of its own group only |
| Aggregate.GroupOrderSpec | server/index.js:295-316 | the groups, in first-seen order, are exactly the keys with at least one member, each listed once |
| Aggregate.Append | server/index.js:297-313 | the `append` closure keeps the `Map` in step with the reference grouping: a new key creates a group headed by its first member, and every member is pushed onto its group |
| Aggregate.BuildGroups | server/index.js:295-316 | appending the seed games and then the community reports yields the reference grouping of their concatenation |
| Aggregate.SeedHeaderFirst | server/index.js:305-316 | a group with a seed member takes its title, title id and region from a seed game, as seeds are appended first |
| Aggregate.Mean | server/index.js:322-323 | the mean score of a group (0 for an empty one) lies in [0, 5] |
| Aggregate.NotesOf | server/index.js:325-331 | `notesList` holds one note entry per sorted member, in order |
| Aggregate.Summarize | server/index.js:318-347 | a group's summary keeps its title, title id and region, holds a permutation of its members, counts them, and has a score in [0, 5] |
| Aggregate.SummaryMembersOrdered | server/index.js:319-321 | the members are sorted by `createdAt`, and members with equal timestamps keep their appending order (the sort is stable) |
| Aggregate.SortedLast | server/index.js:339-340 | the last member of a sorted list is among the latest |
| Aggregate.SummaryLatest | server/index.js:339-340 | version and notes come from the latest member, with the defaults "Unknown" and "" |
| Aggregate.SummaryUnanimous | server/index.js:322-324 | when all members weigh w, the score is w and the label is `statusFromAverage(w)` |
| Aggregate.SummaryCounts | server/index.js:342-345 | the breakdown sums to `submissionCount`, and the SoC union is duplicate-free and covers the members' SoCs |
| Aggregate.GamesOf | server/index.js:318 | one summary per key, in order |
| Aggregate.GamesOfSnoc | server/index.js:318 | one more key adds its summary at the end |
| Aggregate.Games | server/index.js:318 | there are as many summaries as groups |
| Aggregate.GroupGamesWithAverages | server/index.js:295-350 | the imperative grouping, summarising and sorting produce exactly the reference `Aggregated` list |
| Aggregate.SummariesStep | server/index.js:318-347 | summarising the next group in the `Map`'s order extends the summaries of the earlier groups |
| Aggregate.SummaryOfGroup | server/index.js:298-312 | a group's summary carries the group's key and exactly its members |
| Aggregate.GamesAreGroups | server/index.js:318-347 | the i-th summary is the i-th group: its key, a non-zero count, and a permutation of the group's members |
| Aggregate.AggregatedGroups | server/index.js:295-350 | no served game is empty, and each holds exactly the reports with its key |
| Aggregate.AggregatedDistinct | server/index.js:295-350 | no two served games share a `TITLE-ID::REGION` key |
| Aggregate.GamesCover | server/index.js:315-318 | every submission lands in some game |
| Aggregate.AggregatedCovers | server/index.js:315-349 | every seed and community report lands in some served game |
| Aggregate.CountSumSnoc | server/index.js:312 | one more report adds one to the count of its own group |
| Aggregate.CountSumOrder | server/index.js:295-316 | the group sizes sum to the number of reports |
| Aggregate.CountOfGames | server/index.js:344 | the `submissionCount`s of the summaries sum to the group sizes |
| Aggregate.AggregatedCount | server/index.js:295-350 | `submissionCount` over all served games sums to \|base\| + \|user\|: each report is counted exactly once |
| Aggregate.AggregatedByTitle | server/index.js:349 | the served list is sorted by title under the given order |
| Aggregate.ByTitlePreorder | server/index.js:349 | the title comparator on games is a total preorder when the order on titles is |
| Aggregate.Entries | server/index.js:67-78 | a missing or unparsable file, or one without its list field, reads as the empty list |
| Aggregate.NormalizeSeeds | server/index.js:356-358 | each seed game is normalised with "official-seed" as the default submitter |
| Aggregate.NormalizeCommunity | server/index.js:359-361 | each community report is normalised with its own `githubUser`, or "community", as the default submitter |
| Aggregate.LoadDataCount | server/index.js:352-364 | the served games account for every entry of both files exactly once |
| Aggregate.LoaderSubmitters | server/index.js:356-361 | a seed without a submitter is attributed to "official-seed", a community report to its `githubUser`, else "community" |
| Aggregate.DefaultSubmitterUsed | server/index.js:130 | without `githubUser` or `submittedBy`, a non-empty default is the submitter |
| OAuth.AfterValidate | server/index.js:189-195 | validation deletes a known state, whatever the verdict, and leaves every other entry alone |
| OAuth.StateStore.constructor | server/index.js:180 | the store starts empty |
| OAuth.StateStore.Create | server/index.js:183-187 | the token is recorded with the current time and handed out |
| OAuth.StateStore.Validate | server/index.js:189-195 | answers whether the state is known and at most ten minutes old, and consumes it |
| OAuth.SecondUseFails | server/index.js:189-195 | after a validation, the same state is never accepted again |
| OAuth.UnknownStateUntouched | server/index.js:190-191 | an unknown state is rejected and the store is unchanged |
| OAuth.IssuedStateWindow | server/index.js:181-195 | a state issued at t0 is accepted at t1 iff t1 − t0 ≤ 600000 ms, and is removed either way |
| OAuth.FrontendOrigin | server/index.js:15 | the frontend origin is never empty |
| OAuth.TargetOriginIsFrontend | server/index.js:199 | the result page posts to the configured origin or the local development origin; the `"*"` fallback is never taken |
| OAuth.HandleStart | server/index.js:220-233 | an unconfigured server answers 500 and issues nothing; otherwise it records a fresh state and redirects with it |
| OAuth.FailureText | server/index.js:289 | the error page always carries a non-empty message |
| OAuth.Exchange | server/index.js:247-292 | the token exchange always goes first, and the profile is fetched iff a token was granted; success (200 with the profile) requires both replies to be ok; every failure renders the error page with status 500 and a message; every page posts to the `FRONTEND_ORIGIN` of the environment, or the development origin |
| OAuth.HandleCallback | server/index.js:235-293 | a missing code or state gives 400 before the store is touched; a rejected state gives 400 before any request to GitHub; the configuration is checked next; requests are sent only after every guard has passed |
| Api.MissingFields | server/index.js:379-392 | the missing list has at most one entry per required field; the exact list is stated by Api.MissingFieldsInOrder and Api.MissingFieldsExactly |
| Api.PushedFields | server/index.js:383-392 | title id, `githubUser` and `tested_socs` (absent or empty) are appended in that order when missing |
| Api.MissingFieldsInOrder | server/index.js:379-392 | the missing list is the missing fields in the order title, status, notes, region, version, title-id, githubUser, tested_socs |
| Api.MissingFieldsExactly | server/index.js:379-392 | a field is listed iff it is not provided |
| Api.FindInvalid | server/index.js:400-402 | `find` stops at the first entry lacking a snake_case field, throws on a `null` entry before it, and finds nothing iff every entry is complete |
| Api.AsWrittenSocCheck | server/index.js:400-407 | the SoC check as written: a rejection names an incomplete entry, and a thrown error means a `null` entry |
| Api.ThrowsHasNull | server/index.js:401 | `find` throws only when it reaches a `null` entry |
| Api.EmptyEntryDefeatsSocCheck | server/index.js:400-404 | an empty-string entry is found but is falsy, so a report with it passes the check |
| Api.SocCheck | server/index.js:400-407 | the corrected check accepts iff every entry has a name and both statuses |
| Api.SocChecksAgree | server/index.js:400-407 | without `null` or empty-string entries, the check as written and the corrected check agree |
| Api.CompleteSocKeepsFields | server/index.js:122-126 | an accepted entry is stored with its own name and statuses |
| Api.Server.constructor | server/index.js:21-22 | the server starts with the two given data files |
| Api.Server.List | server/index.js:366-375 | answers `loadData` with its size and generation time, and every stored report is counted once |
| Api.Server.Post | server/index.js:377-427 | missing fields give 400 with the list; then the SoC guard as written decides: a `null` entry reached by the scan throws (Express's 500), a truthy incomplete entry gives 400, and anything else, including an empty-string entry found first, is accepted; a failed write gives 500; only success writes, appending exactly one normalised report after the earlier ones and answering 201 with the reloaded list |
| Api.EmptyEntryStoredAsUnknownSoc | server/index.js:400-412 | a report whose entries are `""` and a name-only record passes the guard as written though the corrected check rejects it, and the `""` is stored as an "Unknown SoC" entry with the report's status |
| Api.AppendAddsOneReport | server/index.js:412-422 | appending one entry to the submissions file adds one to the served report count |
| Api.AcceptedReportReloads | server/index.js:409-422 | an accepted report with non-blank fields reloads exactly as it was stored |
| Api.BlankTitlePassesGuards | server/index.js:382-403 | a title of spaces is truthy, so it passes the field and SoC checks |
| Api.BlankTitleFieldsProvided | server/index.js:382 | the blank-title report has no missing field |
| Api.BlankTitleSocComplete | server/index.js:400-402 | the blank-title report's SoC is complete |
| Api.BlankTitleReloadsAsUnknown | server/index.js:377-422 | the blank-title report is accepted, is stored with an empty title, and reloads as "Unknown Title" |
| Api.BlankTitleStoredEmpty | server/index.js:139 | trimming stores the blank title as "" |
| FilteredGames.ByUpperTitlePreorder | src/hooks/useFilteredGames.jsx:18-29 | the upper-cased title comparator is a total preorder |
| FilteredGames.Filtered | src/hooks/useFilteredGames.jsx:15-45 | every shown game is an input game with the selected status, and it matches a non-blank search in its title, title id or region |
| FilteredGames.FilteredSorted | src/hooks/useFilteredGames.jsx:18-29 | the filtered list is ordered by upper-cased title |
| FilteredGames.FilteredSubMultiset | src/hooks/useFilteredGames.jsx:15-45 | the filtered list is a sub-multiset of the input |
| FilteredGames.FilteredComplete | src/hooks/useFilteredGames.jsx:31-44 | every game with the selected status that matches the search (or any game, for a blank search) is shown |
| FilteredGames.UnfilteredIsPermutation | src/hooks/useFilteredGames.jsx:31-36 | with "all" and a blank search the list is a permutation of the input |
| FilteredGames.BlankSearchIgnored | src/hooks/useFilteredGames.jsx:34-36 | a whitespace-only search is the same as no search |
| FilteredGames.GameFilter.constructor | src/hooks/useFilteredGames.jsx:11-13 | an empty search, the "all" filter, page 1 |
| FilteredGames.GameFilter.TotalPages | src/hooks/useFilteredGames.jsx:51-53 | `ceil(\|filtered\| / 10)`: the smallest page count that holds every filtered game |
| FilteredGames.GameFilter.Paginated | src/hooks/useFilteredGames.jsx:55-59 | the current page holds at most ten games, all of them filtered ones |
| FilteredGames.GameFilter.SetSearchTerm | src/hooks/useFilteredGames.jsx:47-49 | sets the term; a changed list returns to page 1; the page stays valid |
| FilteredGames.GameFilter.SetFilterTo | src/hooks/useFilteredGames.jsx:47-49 | sets the filter; a changed list returns to page 1; the page stays valid |
| FilteredGames.GameFilter.SetGames | src/hooks/useFilteredGames.jsx:47-49 | new games return to page 1 |
| FilteredGames.GameFilter.Paginate | src/hooks/useFilteredGames.jsx:61-65 | moves to page n iff 1 ≤ n ≤ totalPages, and otherwise changes nothing |
| FilteredGames.GameFilter.NextPage | src/hooks/useFilteredGames.jsx:67-69 | one page forward, never past totalPages |
| FilteredGames.GameFilter.PrevPage | src/hooks/useFilteredGames.jsx:71-73 | one page back, never below 1 |
| FilteredGames.EveryGameOnAPage | src/hooks/useFilteredGames.jsx:51-59 | the i-th filtered game is at position i mod 10 of page i div 10 + 1, which is a real page |
| VersionSwapper.MaxButtons | src/components/VersionSwapperModal.jsx:12-22 | 5 before the resize handler runs, then 3 iff the width is at least 768 and 2 iff it is less |
| VersionSwapper.Range | src/components/VersionSwapperModal.jsx:32-35 | the ascending integers lo..hi |
| VersionSwapper.Pagination | src/components/VersionSwapperModal.jsx:10-72 | no pager for at most one page; otherwise the `for` loop fills exactly the window's pages, the ellipsis shows iff the window ends before the last page, and Previous and Next are disabled exactly at the first and last page |
| VersionSwapper.WindowShape | src/components/VersionSwapperModal.jsx:27-31 | for a page in range, the window is a consecutive run inside 1..totalPages that holds the page and has min(maxButtons, totalPages) buttons |
| VersionSwapper.ReleasePage | src/components/VersionSwapperModal.jsx:136-145 | a page holds at most four releases |
| VersionSwapper.EveryReleaseOnAPage | src/components/VersionSwapperModal.jsx:135-145 | every release is shown on a page the pager can reach |
| VersionSwapper.ClampPage | src/components/VersionSwapperModal.jsx:171-185 | a non-negative page of a non-empty list is clamped into 1..total; a page in range, or any page of an empty list, stays |
| VersionSwapper.ClampPageSettles | src/components/VersionSwapperModal.jsx:171-185 | the clamping effect settles after one run |
| VersionSwapper.ClampedPageNonEmpty | src/components/VersionSwapperModal.jsx:135-185 | after clamping, a non-empty list never shows an empty page |
| VersionSwapper.CardFor | src/components/VersionSwapperModal.jsx:83-99 | no card without a URL; otherwise "Latest-Nightly" iff latest and nightly, "Latest" iff latest only, "Nightly" iff nightly only |
| VersionSwapper.PageCards | src/components/VersionSwapperModal.jsx:236-266 | one card per release of the page, in the page's order; the k-th is that release's card, marked latest iff it is the first card of page 1 |
| VersionSwapper.OnlyFirstCardIsLatest | src/components/VersionSwapperModal.jsx:241-263 | a card is labelled latest iff it is the first card of page 1 |
| VersionSwapper.Picker.constructor | src/components/VersionSwapperModal.jsx:131-133 | the stable tab and page 1 of both lists |
| VersionSwapper.Picker.SetView | src/components/VersionSwapperModal.jsx:215-222 | switches the tab and keeps both pages |
| VersionSwapper.Picker.ChangePage | src/components/VersionSwapperModal.jsx:249-272 | sets the page of one list only |
| VersionSwapper.Picker.ClampEffects | src/components/VersionSwapperModal.jsx:171-185 | both pages become their clamped values, and the tab stays |
| Carousel.Forward | src/components/Carousel.jsx:16 | `(i + 1) % n` stays in [0, n), steps forward, and wraps from n − 1 to 0 |
| Carousel.Backward | src/components/Carousel.jsx:17-18 | `(i − 1 + n) % n` stays in [0, n), steps back, and wraps from 0 to n − 1 |
| Carousel.ForwardBackwardInverse | src/components/Carousel.jsx:16-18 | the two arrows undo each other |
| Carousel.ForwardBy | src/components/Carousel.jsx:20-25 | k timer ticks from a slide land in [0, n) |
| Carousel.ForwardByIsModular | src/components/Carousel.jsx:20-25 | k ticks of the timer from slide i land on slide (i + k) mod n |
| Carousel.ModStep | src/components/Carousel.jsx:16 | one more step moves the remainder forward by one, wrapping around |
| Carousel.ModUnique | src/components/Carousel.jsx:16-18 | a quotient and remainder in range are the ones `%` computes, for the non-negative operands the component uses |
| Carousel.Pos | src/components/Carousel.jsx:74-75 | a slide's position is in [0, n): 0 iff it is current, 1 iff it is the next slide (n > 1), n − 1 iff it is the previous one |
| Carousel.PosInjective | src/components/Carousel.jsx:75 | two slides never share a position |
| Carousel.PlacementFor | src/components/Carousel.jsx:78-90 | front iff position 0; a narrow window shows only the front slide; on a wide one, right iff position 1, and left iff position n − 1 and not 0 or 1 |
| Carousel.GlowIffVisible | src/components/Carousel.jsx:82-98 | on a wide window a slide glows iff it is visible |
| Carousel.OneFrontSlide | src/components/Carousel.jsx:75-90 | exactly the current slide is in front |
| Carousel.NeighboursFlank | src/components/Carousel.jsx:84-87 | with three slides or more, the next slide is on the right and the previous one on the left |
| Carousel.Indicators | src/components/Carousel.jsx:128-133 | n dots, exactly one highlighted: the current one |
| Carousel.SwipeOf | src/components/Carousel.jsx:39-48 | over fractional pixel offsets: no move, no swipe; next iff dx < −40 and \|dx\| > \|dy\|; previous iff dx > 40 and dx > \|dy\| |
| Carousel.SwipeMirrored | src/components/Carousel.jsx:44-46 | mirroring a swipe horizontally swaps next and previous |
| Carousel.MirroredSwipesCancel | src/components/Carousel.jsx:39-48 | a swipe followed by its mirror image returns to the same slide |
| Carousel.Slideshow.constructor | src/components/Carousel.jsx:14-29 | slide 0 and cleared touch refs |
| Carousel.Slideshow.NextSlide | src/components/Carousel.jsx:16-25 | the index moves forward one slide, modulo n |
| Carousel.Slideshow.PrevSlide | src/components/Carousel.jsx:17-18 | the index moves back one slide, modulo n |
| Carousel.Slideshow.TouchStart | src/components/Carousel.jsx:30-35 | records the start point and clears the moved flag |
| Carousel.Slideshow.TouchMove | src/components/Carousel.jsx:36-38 | sets the moved flag |
| Carousel.Slideshow.TouchEnd | src/components/Carousel.jsx:39-48 | the index becomes the one after the gesture's swipe, and stays in range |
| SubmitModal.CleanOptions | src/components/CompatibilitySubmitModal.jsx:51-54 | the trimmed, non-blank suggestions, and only those |
| SubmitModal.BlankNotOffered | src/components/CompatibilitySubmitModal.jsx:52-54 | a falsy or whitespace-only suggestion is dropped |
| SubmitModal.Unique | src/components/CompatibilitySubmitModal.jsx:49-56 | `Array.from(new Set(..))`: the same elements, each once |
| SubmitModal.UniquePrefix | src/components/CompatibilitySubmitModal.jsx:49-56 | de-duplication keeps first-seen order: a prefix's result is a prefix of the whole result |
| SubmitModal.MergedSocOptions | src/components/CompatibilitySubmitModal.jsx:48-58 | never empty and duplicate-free; exactly the trimmed suggestions when there are any, the three default SoCs otherwise |
| SubmitModal.AuthAfter | src/components/CompatibilitySubmitModal.jsx:61-76 | a message can only mark the user verified with a non-empty name |
| SubmitModal.ForeignMessageIgnored | src/components/CompatibilitySubmitModal.jsx:62 | a message from another origin that does not contain "localhost" changes nothing |
| SubmitModal.SignInMessage | src/components/CompatibilitySubmitModal.jsx:64-70 | a sign-in message with a username verifies that user and clears the error; without one it changes nothing |
| SubmitModal.AuthErrorMessage | src/components/CompatibilitySubmitModal.jsx:71-75 | an error message clears verification and shows the payload message or the default |
| SubmitModal.AuthInvariantKept | src/components/CompatibilitySubmitModal.jsx:60-79 | any sequence of messages keeps "verified implies a non-empty user" |
| SubmitModal.WithKey | src/components/CompatibilitySubmitModal.jsx:109 | `{ ...row, [key]: value }` changes only that key |
| SubmitModal.RemoveAt | src/components/CompatibilitySubmitModal.jsx:131 | filtering out an index in range removes one row; any other index removes none |
| SubmitModal.RemoveAtKeepsOthers | src/components/CompatibilitySubmitModal.jsx:131 | the other rows keep their order, and exactly that row is gone |
| SubmitModal.OfferedRemovalKeepsARow | src/components/CompatibilitySubmitModal.jsx:455-459 | removal is offered only with more than one row, so at least one row remains |
| SubmitModal.Missing | src/components/CompatibilitySubmitModal.jsx:198-199 | a field is missing iff it is empty |
| SubmitModal.KeysOf | src/components/CompatibilitySubmitModal.jsx:201 | the names of the missing fields, one per field, in the same order |
| SubmitModal.CleanSocs | src/components/CompatibilitySubmitModal.jsx:173-177 | each SoC name is trimmed and the statuses are kept |
| SubmitModal.CheckPayload | src/components/CompatibilitySubmitModal.jsx:179-203 | the payload is sent iff no field is missing and no SoC row is incomplete |
| SubmitModal.Validate | src/components/CompatibilitySubmitModal.jsx:164-171 | not signed in, or a blank username, stops with its message |
| SubmitModal.ValidateAccepts | src/components/CompatibilitySubmitModal.jsx:164-203 | a request is sent iff the user is verified with a non-blank name, every cleaned row is complete and no field is missing; the payload then carries the user |
| SubmitModal.MissingInOrder | src/components/CompatibilitySubmitModal.jsx:198-201 | the missing fields are reported in the order title, title-id, region, status, version, notes |
| SubmitModal.RequiredFieldsOrdered | src/components/CompatibilitySubmitModal.jsx:198 | the required fields are listed in that order |
| SubmitModal.IndexOf | src/components/CompatibilitySubmitModal.jsx:198 | the position of a field in the required list |
| SubmitModal.FindIncomplete | src/components/CompatibilitySubmitModal.jsx:179-181 | `find` returns the first incomplete row, or nothing iff every row is complete |
| SubmitModal.CheckSubmission | src/components/CompatibilitySubmitModal.jsx:159-204 | the step-by-step validation chain of `handleSubmit` gives exactly the specified verdict |
| SubmitModal.MessagesAfter | src/components/CompatibilitySubmitModal.jsx:161-231 | a validation error is shown alone; success shows iff the server accepted; the error and success messages are never both shown |
| SubmitModal.Dialog.constructor | src/components/CompatibilitySubmitModal.jsx:9-46 | the initial auth state, the initial form and empty messages |
| SubmitModal.Dialog.ReceiveAuth | src/components/CompatibilitySubmitModal.jsx:61-76 | the auth state follows `AuthAfter`; the form and messages stay |
| SubmitModal.Dialog.StartVerification | src/components/CompatibilitySubmitModal.jsx:83-100 | verifying starts, and a blocked popup stops it with its message |
| SubmitModal.Dialog.UpdateSoc | src/components/CompatibilitySubmitModal.jsx:106-112 | only the given key of the given row changes |
| SubmitModal.Dialog.AddSocRow | src/components/CompatibilitySubmitModal.jsx:114-126 | one default Playable/Playable row is appended |
| SubmitModal.Dialog.RemoveSocRow | src/components/CompatibilitySubmitModal.jsx:128-133 | exactly that row is removed |
| SubmitModal.Dialog.ResetForm | src/components/CompatibilitySubmitModal.jsx:135-157 | the initial form, cleared auth and cleared messages |
| SubmitModal.Dialog.HandleSubmit | src/components/CompatibilitySubmitModal.jsx:159-232 | a request is sent iff validation passes, carrying the validated payload; the messages are those of the outcome; submitting ends |
| SubmitModal.Dialog.Send | src/components/CompatibilitySubmitModal.jsx:205-231 | the messages follow the server's answer, and submitting ends |
| CompatList.SocNameOf | src/components/CompatibilityList.jsx:44-54 | a game's entry yields a name iff it is a string or has a truthy `soc_name`; a report's entry only for a truthy `soc_name` |
| CompatList.AddNames | src/components/CompatibilityList.jsx:44-54 | adding one list's names to the set keeps it duplicate-free, keeps what was there, and adds exactly the names of the entries |
| CompatList.NamesInSnoc | src/components/CompatibilityList.jsx:44-54 | one more entry adds at most its own name |
| CompatList.AvailableSocs | src/components/CompatibilityList.jsx:41-58 | exactly the non-empty names from every game's and report's SoCs, sorted in code-unit order, each once |
| CompatList.SortedNonEmpty | src/components/CompatibilityList.jsx:57 | `filter(Boolean).sort()` of a duplicate-free list keeps exactly the non-empty names, sorted and duplicate-free |
| CompatList.LexLePreorder | src/components/CompatibilityList.jsx:57 | the default sort order is a total preorder |
| CompatList.FilterDistinct | src/components/CompatibilityList.jsx:57 | filtering keeps a list duplicate-free |
| CompatList.BucketOf | src/components/CompatibilityList.jsx:76-82 | a game without a status is counted as not tested |
| CompatList.BucketNames | src/components/CompatibilityList.jsx:76-82 | each bucket holds exactly its lower-cased status; every other status, "not tested" included, goes to not-tested |
| CompatList.Bump | src/components/CompatibilityList.jsx:77-82 | one game adds one to the total |
| CompatList.BumpCounts | src/components/CompatibilityList.jsx:77-82 | one game adds one to its own bucket and to no other |
| CompatList.TallyCounts | src/components/CompatibilityList.jsx:75-84 | each bucket's count is the number of games in that bucket |
| CompatList.TallySum | src/components/CompatibilityList.jsx:75-84 | the buckets sum to the number of games |
| CompatList.Stats | src/components/CompatibilityList.jsx:59-84 | the total is the number of games and the counts are the tally; with no games every count is 0 |
| CompatList.BackgroundClass | src/components/CompatibilityList.jsx:122-129 | every background class is non-empty |
| CompatList.TagClass | src/components/CompatibilityList.jsx:131-138 | every tag class is non-empty |
| CompatList.FilterClasses | src/components/CompatibilityList.jsx:118-148 | "" iff the type is unknown; an unknown status gets the "all" background or the default tag |
| CompatList.FilterClassesIgnoreCase | src/components/CompatibilityList.jsx:119 | the classes ignore the case of the status |
| CompatList.TagClassesDistinct | src/components/CompatibilityList.jsx:131-138 | the known statuses have distinct tags, none of them the default |
| CompatList.FlagIcon | src/components/CompatibilityList.jsx:158-175 | no region gives glb; the upper-cased region is tested in the order NTSC-U → us, PAL-E → eu, PAL-A → au, NTSC-J → jp, PAL → eu; glb iff the region is missing or mentions none of NTSC-U, PAL and NTSC-J |
| CompatList.PalOfPalE | src/components/CompatibilityList.jsx:165-171 | a region with PAL-E also contains PAL |
| CompatList.PalOfPalA | src/components/CompatibilityList.jsx:167-171 | a region with PAL-A also contains PAL |
| CompatList.Reporter | src/components/CompatibilityList.jsx:422-424 | the last report's submitter, else "community"; never empty |
| CompatList.ReportCount | src/components/CompatibilityList.jsx:425 | `submissionCount \|\| submissions.length \|\| 1`: never 0 |
| CompatList.CaseFrom | src/components/CompatibilityList.jsx:461-464 | the rest of the status from a position that does not start a word, character by character |
| CompatList.StatusDisplay | src/components/CompatibilityList.jsx:461-464 | same length; the first character and every word character after a '-' are upper-cased, the rest unchanged |
| CompatList.StatusDisplayIdempotent | src/components/CompatibilityList.jsx:461-464 | casing a displayed status again changes nothing |
| CompatList.UpperKeepsClass | src/components/CompatibilityList.jsx:462 | upper-casing keeps word characters and '-' and is idempotent |
| GameDetail.DetailColor | src/components/GameDetailModal.jsx:10-23 | every status other than perfect, playable, in-game and menu, in any case, gets the red class |
| GameDetail.ColoursAgreeExceptCrash | src/components/GameDetailModal.jsx:10-23 | the dialog and the list card agree on every status but "crash", which the card colours darker red |
| GameDetail.DetailColorIgnoresCase | src/components/GameDetailModal.jsx:11 | the colour ignores case |
| GameDetail.DetailFlagIcon | src/components/GameDetailModal.jsx:25-28 | a missing region gives glb |
| GameDetail.FlagIconsAgree | src/components/GameDetailModal.jsx:25-43 | the dialog shows the same flag as the list card for every region |
| GameDetail.HeaderOf | src/components/GameDetailModal.jsx:70-73 | the values computed at the top of the dialog: each is the game's own value, or 'missing_serial', 'Game Details', 'Unknown' and the no-notes text; only the game name reaches the markup |
| GameDetail.HeaderColor | src/components/GameDetailModal.jsx:72-95 | the computed (unrendered) `color`: red for a game without a status |
| GameDetail.UnknownUncoloured | src/components/GameDetailModal.jsx:72-95 | "Unknown" is not a coloured status |
| GameDetail.ViewOf | src/components/GameDetailModal.jsx:75-91 | an entry with `soc_name` shows its own results, and the first of Vulkan, OpenGL, game status and "Unknown" as verdict; a string or any other entry shows the game status |
| GameDetail.SocsToDisplay | src/components/GameDetailModal.jsx:74 | one row per entry, in order |
| GameDetail.ListedNamesShown | src/components/GameDetailModal.jsx:74-91 | every name the list page collects from a game's entries has a row in its dialog |
| GameDetail.BareRowsFollowHeader | src/components/GameDetailModal.jsx:72-87 | a row without results of its own gets the computed status as its (unrendered) verdict |
| GameDetail.Render | src/components/GameDetailModal.jsx:97-211 | the markup: the heading is `title \|\| "Game Details"`, the flag is the list page's, the status badge and the notes are the raw values, the badge colour equals the computed `color` even for a game without a status, one row per entry named as in `soCsToDisplay`, and the footnote iff there is an entry |
| GameDetail.RowBadges | src/components/GameDetailModal.jsx:167-205 | a row with a `soc_name` key shows a Vulkan or OpenGL badge iff that status of its own is truthy; any other row shows both badges with the game's status and colour, or none when the game has no status |
| DownloadData.DigitsFrom | src/hooks/useDownloadData.jsx:44 | the maximal run of digits at a position |
| DownloadData.MatchEnd | src/hooks/useDownloadData.jsx:44 | where a `\d+\.\d+\.\d+` match starting at a position ends, when there is one |
| DownloadData.FindVersionFrom | src/hooks/useDownloadData.jsx:44-46 | the leftmost match from a position, or none iff no position matches |
| DownloadData.CleanVersion | src/hooks/useDownloadData.jsx:42-51 | the first version-shaped substring of the tag (or of "0") when there is one |
| DownloadData.DigitsFromExact | src/hooks/useDownloadData.jsx:44 | a maximal run of n digits is the one found |
| DownloadData.ShapedMatchesWhole | src/hooks/useDownloadData.jsx:44 | a version-shaped string matches as a whole from its start |
| DownloadData.VersionTagKept | src/hooks/useDownloadData.jsx:44-46 | a tag that is already a version is kept as is |
| DownloadData.MatchIsVersion | src/hooks/useDownloadData.jsx:44 | every match is version-shaped |
| DownloadData.CleanVersionFound | src/hooks/useDownloadData.jsx:44-46 | when the tag holds a version, the result is version-shaped and occurs in the tag |
| DownloadData.CleanVersionNotFound | src/hooks/useDownloadData.jsx:47-51 | otherwise a leading "v" is stripped, or the tag is used as is |
| DownloadData.MissingTagIsZero | src/hooks/useDownloadData.jsx:42 | a missing tag gives "0" |
| DownloadData.FirstApk | src/hooks/useDownloadData.jsx:52-54 | the asset found ends in ".apk" (case-insensitively), and none is found iff no asset does |
| DownloadData.FirstApkIsFirst | src/hooks/useDownloadData.jsx:52-54 | it is the first such asset |
| DownloadData.ToRelease | src/hooks/useDownloadData.jsx:55-62 | id, date and prerelease are copied; the version is the cleaned tag; the name falls back to the tag; there is a URL iff some asset is an APK |
| DownloadData.WithApk | src/hooks/useDownloadData.jsx:40-64 | every kept release is the mapping of some release of the API's list and has a URL, and every release whose mapping has a URL is kept |
| DownloadData.WithApkKeepsOrder | src/hooks/useDownloadData.jsx:40-64 | the kept releases keep the API's order: of two kept releases, the earlier is the mapping of an earlier release of the list |
| DownloadData.WithApkHead | src/hooks/useDownloadData.jsx:40-64 | the first kept release is the mapping of the first release in the API's order that ships an APK |
| DownloadData.LatestIsFirstListedApk | src/hooks/useDownloadData.jsx:67-76 | the latest URL, version and prerelease flag are those of the first release in the API's order that ships an APK |
| DownloadData.StableNightlyPartition | src/hooks/useDownloadData.jsx:65-66 | stable and nightly are disjoint, together are a permutation of the APK releases, and each keeps their order |
| DownloadData.LoadingEnds | src/hooks/useDownloadData.jsx:96-98 | every outcome ends loading and sets a download URL |
| DownloadData.FailureFallsBack | src/hooks/useDownloadData.jsx:88-95 | a failed fetch shows the backup APK with "v0 (Fallback)" and keeps the lists |
| DownloadData.NoApkFallsBack | src/hooks/useDownloadData.jsx:77-87 | a list without APKs shows the backup APK with "v0" and empty lists |
| DownloadData.LatestIsFirstApk | src/hooks/useDownloadData.jsx:67-76 | the latest URL and version are those of the first APK release, prerelease or not, and the two lists split the APK releases |
| DownloadData.DownloadState.constructor | src/hooks/useDownloadData.jsx:21-29 | the initial state cells: no URL, version "0", loading, empty lists |
| DownloadData.DownloadState.FetchAllReleases | src/hooks/useDownloadData.jsx:33-99 | the state cells after the effect are those of the specified outcome |
| DownloadData.DownloadState.ShowReleases | src/hooks/useDownloadData.jsx:40-87 | the cells set after a successful fetch are those of the listing of its APK releases |
| DownloadData.DownloadState.ShowListing | src/hooks/useDownloadData.jsx:65-87 | the cells set from the APK releases: the two lists and the latest release or the fallback |
| Text.TrimSpec | server/index.js:139-145 | `trim` is the slice between the leading and the trailing white space, and the result is trimmed |
| Text.TrimIdempotent | src/hooks/useFilteredGames.jsx:34 | trimming twice is trimming once |
| Text.TrimEmptyIffBlank | src/hooks/useFilteredGames.jsx:34 | a string trims to "" iff it is all white space |
| Text.Contains | src/hooks/useFilteredGames.jsx:41-43 | `includes`: true iff the string occurs at some position |
| Text.LexLeTotal | src/components/CompatibilityList.jsx:57 | the default sort order compares any two strings |
| Text.LexLeTransitive | src/components/CompatibilityList.jsx:57 | the default sort order is transitive |
| Text.LexLeAntisymmetric | src/components/CompatibilityList.jsx:57 | strings that sort before each other are equal |
| Seqs.SortBySorted | server/index.js:319-321 | the sort orders its output under any total preorder |
| Seqs.SortByStable | server/index.js:319-321 | elements that compare equal keep their relative order |
| Seqs.FilterKeepsOrder | src/hooks/useDownloadData.jsx:65-66 | `filter` keeps order: two kept elements occur in the list in the same order |
| Seqs.PageOf | src/hooks/useFilteredGames.jsx:55-59 | a page is the clamped `slice` from (page − 1) · size, with at most `size` elements |
| Seqs.PageLocates | src/hooks/useFilteredGames.jsx:51-59 | the i-th element is on page i div size + 1, at position i mod size |
| Seqs.CeilDiv | src/hooks/useFilteredGames.jsx:52 | `Math.ceil(n / d)`: the least count of pages that holds n elements |

## Left out

- Express routing, CORS, `dotenv`, JSON bodies that are not objects, and the files themselves. A data file is a `Document` value, and a write is a `writeOk` flag.
- The network. The GitHub token and profile requests are `Fetched` replies, and `useDownloadData`'s fetch is a `Fetch` outcome. The result page's HTML and `postMessage` are reduced to the page's kind, payload and target origin.
- `randomBytes` and `Date.now` are parameters. `new Date(..).getTime()` on `createdAt` is an integer timestamp, so an unparsable date (NaN) is not modelled.
- `toFixed(2)` rounding of `globalScore` and the `toFixed(1)` percentages of the list page's stats are left out. The score is the exact mean, and the label is computed from the same unrounded mean.
- `localeCompare` is an arbitrary total preorder on titles (`titleLe`), not the locale's collation.
- Case mapping covers ASCII letters only, and the default `sort` order compares code units as characters. The order of astral-plane characters (surrogate pairs) is not modelled.
- `STATUS_SCORES` is a closed map, so prototype keys such as "constructor" are not modelled.
- Aggregate.BreakdownTotal: `buildStatusBreakdown` counts on a plain `{}`, so a status that names a prototype property breaks the count. For "constructor", `(acc[k] || 0) + 1` is the string of `Object` with "1" appended. For "__proto__", the assignment goes to the prototype setter and the count is lost. The model's histogram is a `map` without inherited keys, so its counts sum to the number of reports even for these statuses, which the POST handler accepts.
- Aggregate.BreakdownCounts: holds for every status key of the model; in the source it fails for prototype property names, for the reason above.
- Concurrency is left out, including the last-writer-wins race between two POSTs on the submissions file.
- Timers are left out: the seven-second carousel interval (modelled as repeated `NextSlide`), the popup's 600 ms reset after a successful report, and the 400 ms window close.
- The window width is a parameter, and the resize listener is left out.
- The game detail dialog's simulated description fetch is left out; it has no logic.
- JSX and CSS rendering are left out, apart from the class strings and labels listed in the table. `front.jsx` and the other presentational components are not part of this model, nor are `App.jsx`, `App.js`, `usePageTransition.jsx`, `useGameData.jsx`, `useContactForm.jsx` and `ContactUs.jsx`.
- A missing string field and the empty string are the same value (`""`, or `None`, which `Truthy` treats like `""`). So `soc_name: null` and an absent `soc_name` key are one case. The game detail dialog shows `None` for both back-ends when the game has no status, where the page shows `undefined` or `""`.
- A missing `status` or `title` that would make `toLowerCase` or `replace` throw on the client (in the status filter, the search, the card's status casing and the detail dialog's badge colour) is modelled as the empty string, not as a crash.
- The detail dialog's "Tested Version" line renders the game's raw `version`, which the served game record of this model does not carry.
- Carousel.Slideshow.constructor: requires at least one slide. With none, the page would fail when it reads `images[0]`.
- SubmitModal.Dialog.UpdateSoc: requires an index in range. The form only edits rows it renders, and JavaScript would extend the array for any other index.
- Normalize.NormalizeSubmission: JSON text fields of a payload are `Option<string>`, so a truthy value that is not a string (`"title": 5`, `"status": true`) is not modelled. In the source it passes the missing-field check and the SoC guard, and then `.trim()` throws inside `normalizeSubmission`. So Api.Server.Post answers 500 without writing, where the model can only express string fields. For the same reason Aggregate.LoadDataCount does not cover a seed or stored report with such a field: in the source `loadData` then throws and every GET answers 500.
- Scores.ScoreIsWeightOfKind: `getScoreForStatus` calls `status.toString()`. A non-string status (a number) is not modelled. Every status reaching it is a string after `normalizeSubmission`, because a non-string one already makes that function throw (see the line above).

## Findings

| source | as written | input that shows it | evidently intended | confidence | as-written member | corrected member |
|---|---|---|---|---|---|---|
| server/index.js:400-404 | `find` returns the first entry lacking `soc_name`, `vulkan_status` or `opengl_status`, and the handler rejects only when the found entry is truthy | `tested_socs: ["", {"soc_name": "Tensor G3"}]`: the empty string is found but is falsy, so the report is accepted and stored with an "Unknown SoC" entry | reject every entry that lacks one of the three fields | not executed | Api.AsWrittenSocCheck (Api.EmptyEntryDefeatsSocCheck, Api.EmptyEntryStoredAsUnknownSoc; the guard Api.Server.Post runs) | Api.SocCheck (Api.SocChecksAgree: the handler's guard equals it on lists without `null` or empty-string entries) |
