# ChirpID client logic in Dafny

A model of the parts of the ChirpID bird-identification app that have
behaviour of their own: the identification history store, the Wikipedia
summary lookup with its three-step fallback chain, the backend
reachability record, and the size helpers that turn screen widths and size
names into layout numbers.

| file | module | models |
|---|---|---|
| `common.dfy` | `Common` | `Option`, `Result`, values a `catch` receives, truthiness of optional strings |
| `strings.dfy` | `Strings` | `String.prototype.includes`, decimal rendering of an integer |
| `wikipedia_service.dfy` | `WikipediaService` | `lib/wikipediaService.ts` |
| `wikipedia_fallback.dfy` | `WikipediaFallback` | the lookup chain in `contexts/BirdHistoryContext.tsx:39-49` (repeated in `app/bird-details.tsx` and `components/shared/WikipediaInfo.tsx`) |
| `bird_history.dfy` | `BirdHistory` | `contexts/BirdHistoryContext.tsx` |
| `backend_status.dfy` | `BackendStatus` | `hooks/useBackendStatus.ts` |
| `layout.dfy` | `Layout` | the scales and breakpoints of `constants/Layout.ts` |
| `layout_utils.dfy` | `LayoutUtils` | `constants/LayoutUtils.ts` |

Modelling choices:

- **The network is a parameter.** `Network = string -> HttpOutcome` maps
  the requested page title to a response or a thrown network failure. A
  response has a status, a status text and a body. The body is either a
  summary page (`title`, `extract`, optional `thumbnail.source`,
  `content_urls.desktop.page`) or the value thrown while reading it.
- **Truthiness is explicit.** The callers test `result.error`,
  `thumbnailUrl` and `scientificName` with JavaScript truthiness, so `""`
  counts as absent. `HasError` and `Truthy` say exactly that. One
  consequence: an `Error` with an empty message becomes `error: ""`, and
  the chain then treats that record as a success. `FailureIsSeen` and
  `SearchFailureIsSeen` prove that this is the only way a failed
  `FetchBirdWikipediaInfo` or `SearchBirdWikipedia` record can pass the
  callers' `if (result.error)` tests unseen.
- **The history store is a class.** `BirdHistoryStore` has a
  `seq<BirdIdentification>` field. The generated id and the time are
  parameters. The background enrichment is its own method,
  `ApplyWikipediaResult`, so a caller can run any sequence of inserts,
  clears and late enrichments. `AddBirdToHistory` is the case where nothing
  happens in between.
- **Ids.** The source builds ids from `Date.now()` and `Math.random()` and
  does not check them for uniqueness. The model takes the id as a parameter
  and requires it not to be in the history yet. The store invariant
  `Valid()` says that all ids are distinct.
- **Backend status is a class with four fields.** The ping's outcome and
  the completion time are parameters of `CheckBackendStatus`.
- **Facts of the code the model keeps:**
  - The scientific-name step of the chain calls `searchBirdWikipedia`, so it
    first requests the name with `" bird"` appended.
  - Enrichment needs a result with no error and a non-empty thumbnail URL.
  - `lib/api.ts` exports only `uploadAudio`. `pingBackend`, imported by
    hooks/useBackendStatus.ts:1, is not defined there, so the ping outcome
    is a parameter.

## Model

| member | source | states |
|---|---|---|
| `WikipediaService.FetchBirdWikipediaInfo` | lib/wikipediaService.ts:29-81 | Success exactly when the answer for `name` has an OK status, a readable body and an extract without "may refer to:". On success title, description, page URL and thumbnail are copied from the page. Every failure gives title = name, empty description and page URL, and no thumbnail. A 404 gives the not-found message, any other non-OK status gives `Wikipedia API error: <status> <statusText>`, a disambiguation page gives the ambiguity message. A thrown value gives its `Error` message or the fixed fallback text |
| `WikipediaService.SearchBirdWikipedia` | lib/wikipediaService.ts:88-118 | An OK, readable answer for `name + " bird"` is returned as a success with the page's fields. Every other answer, including a thrown one, gives exactly `FetchBirdWikipediaInfo(name)` |
| `WikipediaService.FetchRequestsName` | lib/wikipediaService.ts:34-42 | The direct lookup depends only on the answer for the title `name` itself |
| `WikipediaService.SearchRequestsSuffixedThenName` | lib/wikipediaService.ts:92-117 | The search depends only on the answers for `name + " bird"` and, on fallback, `name` |
| `WikipediaService.FailureIsSeen` | lib/wikipediaService.ts:44-80 | Every failure the lookup produces has a non-empty error message, so callers' `if (result.error)` sees it. The one exception is an `Error` with an empty message, thrown by the request or while reading an OK body |
| `WikipediaService.SearchFailureIsSeen` | lib/wikipediaService.ts:103-117 | A failed suffixed search carries a non-empty message, with the same single exception, because it fails only through the plain lookup of `name` |
| `WikipediaService.NotFoundDistinctFromApiError` | lib/wikipediaService.ts:44-51 | A 404 and any other failing status never give the same message |
| `WikipediaService.NotFoundNamesPage` | lib/wikipediaService.ts:46 | The 404 message contains the requested name |
| `WikipediaService.ApiErrorCarriesStatus` | lib/wikipediaService.ts:48-50 | The status code can be read back from the digits of the non-404 error message |
| `WikipediaService.SearchKeepsDisambiguationPage` | lib/wikipediaService.ts:103-111 | The suffixed search does no disambiguation check: a page containing "may refer to:" comes back as a success |
| `Strings.ContainsIsOccurrence` | lib/wikipediaService.ts:56 | The `includes` search returns true exactly when the pattern occurs at some position (both directions) |
| `Strings.OccurrenceIsFound` | lib/wikipediaService.ts:56 | A known occurrence of the pattern is found |
| `Strings.ContainedInContext` | lib/wikipediaService.ts:56 | A pattern surrounded by any text is found |
| `Strings.Decimal` | lib/wikipediaService.ts:49 | The rendering of the status is non-empty, all digits, with no leading zero |
| `Strings.DecimalRoundTrip` | lib/wikipediaService.ts:49 | Reading the decimal rendering back gives the same number |
| `Strings.DecimalInjective` | lib/wikipediaService.ts:49 | Different statuses render differently |
| `WikipediaFallback.FallbackChain` | contexts/BirdHistoryContext.tsx:39-49 | A success at the common-name step is kept. A success at the scientific-name step is kept; that step runs only after a failed first step and with a non-empty scientific name. If both earlier steps failed or were skipped, the suffixed search on the common name decides. The chain fails exactly when every step it ran failed |
| `WikipediaFallback.LookupForBird` | contexts/BirdHistoryContext.tsx:38-49 | The step-by-step reassignment of `wikiResult` ends with the chain's result |
| `WikipediaFallback.ChainResultIsAStep` | contexts/BirdHistoryContext.tsx:39-49 | The result is always one of the three lookups. A missing or empty scientific name is the same as having none |
| `WikipediaFallback.ChainRequests` | contexts/BirdHistoryContext.tsx:39-49 | The chain depends only on the answers for the common name, the scientific name and each of them with " bird" |
| `WikipediaFallback.NotFoundThenScientificName` | contexts/BirdHistoryContext.tsx:39-44 | If the common name has no page (404) and the scientific-name lookup succeeds, the chain returns the scientific-name result |
| `BirdHistory.NewIdentification` | contexts/BirdHistoryContext.tsx:30-34 | The new entry carries the generated id and timestamp, and its caller fields are exactly the caller's |
| `BirdHistory.IdentificationRoundTrip` | contexts/BirdHistoryContext.tsx:30-34 | An entry is rebuilt exactly from its caller fields, id and timestamp |
| `BirdHistory.Prepend` | contexts/BirdHistoryContext.tsx:35 | The new entry is at index 0. Every earlier entry follows it unchanged and in order. The length grows by one |
| `BirdHistory.EnrichById` | contexts/BirdHistoryContext.tsx:51-57 | The length is unchanged. Entries with another id are untouched. An entry with the id differs only in `wikipediaImageUrl`, which is set to the image |
| `BirdHistory.EnrichKeepsIds` | contexts/BirdHistoryContext.tsx:51-57 | Enrichment never inserts or removes: the ids in order stay the same, and the id is present afterwards exactly when it was before |
| `BirdHistory.EnrichAbsentIsNoop` | contexts/BirdHistoryContext.tsx:51-57 | On a list without the id, an empty one included, enrichment changes nothing |
| `BirdHistory.EnrichIdempotent` | contexts/BirdHistoryContext.tsx:51-57 | Enriching twice is the same as enriching once |
| `BirdHistory.EnrichChangesAtMostOne` | contexts/BirdHistoryContext.tsx:51-57 | When ids are distinct, at most one entry changes |
| `BirdHistory.EnrichAfterPrepend` | contexts/BirdHistoryContext.tsx:35-57 | Enriching right after inserting a fresh entry changes that head entry only |
| `BirdHistory.AfterEnrichment` | contexts/BirdHistoryContext.tsx:50-58 | The update is applied only when the final lookup result has no error and a non-empty thumbnail URL. Otherwise the history is unchanged |
| `BirdHistory.BirdHistoryStore.constructor` | contexts/BirdHistoryContext.tsx:25-26 | The store starts with an empty history that is not visible |
| `BirdHistory.BirdHistoryStore.InsertIdentification` | contexts/BirdHistoryContext.tsx:27-35 | The new state is the new entry prepended to the old history. Ids stay distinct and visibility is unchanged |
| `BirdHistory.BirdHistoryStore.ApplyWikipediaResult` | contexts/BirdHistoryContext.tsx:50-61 | The new history is the guarded enrichment of whatever history the store holds at that moment. The length is unchanged; a failed lookup leaves everything as it was |
| `BirdHistory.BirdHistoryStore.AddBirdToHistory` | contexts/BirdHistoryContext.tsx:27-62 | The end state is the old history with the new entry in front. That entry carries the chain's thumbnail exactly when the chain provides one |
| `BirdHistory.BirdHistoryStore.ClearHistory` | contexts/BirdHistoryContext.tsx:64-66 | The history is empty afterwards |
| `BirdHistory.BirdHistoryStore.SetHistoryVisible` | contexts/BirdHistoryContext.tsx:26 | Only the visibility flag changes |
| `BirdHistory.EnrichmentAfterClear` | contexts/BirdHistoryContext.tsx:50-66 | Insert, clear, then a late enrichment: the history stays empty |
| `BirdHistory.UseBirdHistory` | contexts/BirdHistoryContext.tsx:12-18 | Inside a provider the hook returns the provider's store. Outside one it fails with the fixed message |
| `BackendStatus.BackendStatusMonitor.constructor` | hooks/useBackendStatus.ts:12-17 | The monitor starts offline and loading, never checked, with no error |
| `BackendStatus.BackendStatusMonitor.StartCheck` | hooks/useBackendStatus.ts:21 | Sets loading and clears the error; `isOnline` and `lastChecked` are kept |
| `BackendStatus.BackendStatusMonitor.CheckSucceeded` | hooks/useBackendStatus.ts:23-29 | Online, not loading, checked at the given time, no error |
| `BackendStatus.BackendStatusMonitor.CheckFailed` | hooks/useBackendStatus.ts:30-37 | Offline, not loading, checked at the given time. The error is the `Error` message, or "Unknown error" for any other thrown value |
| `BackendStatus.BackendStatusMonitor.CheckBackendStatus` | hooks/useBackendStatus.ts:19-39 | After the check the monitor is not loading, was checked at the given time, and has an error exactly when it is offline. It is online exactly when the ping returned |
| `BackendStatus.BackendStatusMonitor.Refresh` | hooks/useBackendStatus.ts:51-54 | Refresh is the periodic check itself and leaves the same state (`CheckedWith`) |
| `BackendStatus.CheckDeterminesState` | hooks/useBackendStatus.ts:19-39 | A completed check does not depend on earlier ones: any two monitors checked with the same ping outcome at the same time agree on all four fields |
| `Layout.SpacingScaleIncreasing` | constants/Layout.ts:2-9 | The spacing scale grows strictly from xs to xxl |
| `Layout.ButtonScaleIncreasing` | constants/Layout.ts:36-41 | The button scale grows strictly from sm to xl |
| `Layout.BreakpointsIncreasing` | constants/Layout.ts:43-48 | The breakpoints are in increasing order |
| `LayoutUtils.ResponsiveSpacing` | constants/LayoutUtils.ts:84-92 | Width below 375 gives 16, width from 375 up to but not including 768 gives 24, any wider width gives 32 |
| `LayoutUtils.StepByWidthMonotone` | constants/LayoutUtils.ts:84-92 | A three-step function of the width with ordered breakpoints and growing steps never decreases as the width grows |
| `LayoutUtils.ResponsiveSpacingMonotone` | constants/LayoutUtils.ts:84-92 | The spacing never shrinks as the width grows, and is always 16, 24 or 32. The proof instantiates the step lemma with the ordered breakpoints and the growing spacing scale |
| `LayoutUtils.ResponsiveSpacingAtBreakpoints` | constants/LayoutUtils.ts:85-87 | Each breakpoint belongs to the wider step: 375 gives the large spacing, 768 the extra-large one |
| `LayoutUtils.IconForButton` | constants/LayoutUtils.ts:97-105 | sm, md, lg and xl give 16, 24, 32 and 48; the default gives 24 |
| `LayoutUtils.IconFitsButton` | constants/LayoutUtils.ts:97-105 | The icon is smaller than the circular button of the same size. Both the icon and the button grow with the size name |
| `LayoutUtils.CircularButton` | constants/LayoutUtils.ts:34-40 | Width equals height equals the button size, 44 by default. Border radius 999, content centred |
| `LayoutUtils.VerticalSpacing` | constants/LayoutUtils.ts:64-66 | The vertical margin is the named spacing, 16 by default |
| `LayoutUtils.HorizontalSpacing` | constants/LayoutUtils.ts:68-70 | The horizontal margin is the named spacing, 16 by default |

## Left out

- HTTP itself, headers, `response.json()` and `encodeURIComponent`: the network is an oracle keyed by the unencoded title.
- Repeated requests are not told apart: the oracle gives the same answer every time a title is asked for.
- Response bodies that do not have the summary-page shape are treated as a failure, as if reading them threw. A body without `extract` but with `content_urls` would make the suffixed search return `description: undefined`; that case collapses into the fallback here.
- Concurrency: the race between the background enrichment and `clearHistory`, and between overlapping status checks, is modelled only as method calls in any order.
- Time and randomness: `Date.now()`, `new Date()` and `Math.random()` are parameters, and uniqueness of the generated id is a precondition.
- `console.error` logging, and the 30-second polling interval together with its cleanup (hooks/useBackendStatus.ts:41-49).
- React state plumbing (`useState`, `createContext`, the provider component). The provider's value is the store object.
- The catch clause of addBirdToHistory (contexts/BirdHistoryContext.tsx:59-61) never fires in the model: both lookups return a record and never throw. Failures reach the store as error records, and those leave the history unchanged.
- LayoutUtils.ResponsiveSpacing: the width is a real number; floating-point widths and `NaN` (which falls through to 32 in JavaScript) are not modelled.
- The constant style helpers `containerPadding`, `screenPadding`, `cardPadding`, `buttonBase`, `headingText`, `bodyText`, `captionText` and `card` take no input. `bodyText` and `captionText` multiply in floating point. The font-size, hit-slop and shadow tables of constants/Layout.ts are style data and are not transcribed. The font sizes and shadows are read by these helpers and by screen components, the hit-slop table by the button components.
- Upload, recording, playback, permissions, route parameters, colours and every screen are not part of this model.
