# Gamehub selection-and-fetch coordinator in Dafny

Gamehub is a single-page React application that lists video games from the RAWG catalog
by genre or by search term. Its only logic with a shape is inside the `App` component:
four pieces of state (`genres`, `selectedGenre`, `games`, `searchTerm`), the handlers that
update them, the `[selectedGenre]` effect that decides when a `/games` request goes out,
the request builder `fetchGames`, and three display rules (platform icon with name
fallback, score fallback, active genre marker). This project models that component and
proves what it does.

Files and modules:

- `catalog.dfy`, module `Catalog`: genres, games, platforms, the `/games` query parameters
  (`genres`, `search`, `page_size`), and a `Response` for a call that succeeds or fails.
- `display.dfy`, module `Display`: the icon table, platform cells, the platform row, the
  score badge and the sidebar's active marker.
- `coordinator.dfy`, module `Coordinator`: every event as a pure transition from one state
  to the next state plus the requests it issued. Each event first applies its handler's
  updates; then the re-render runs the `[selectedGenre]` effect (`SelectionEffect`). The
  effect runs only when `selectedGenre` changed. Its guard then returns early on a falsy
  selection (`null` or id 0) or a non-empty search term. Because every event goes through
  that rule, "typing never fetches" and "re-clicking never fetches" are consequences rather
  than assumptions. `Run` folds a sequence of events.
- `app.dfy`, module `AppComponent`: class `App` with the four fields, a log of issued
  `/games` requests, the set of requests still awaiting a response, and a flag for the
  mount-time `/genres` request. One method per event; each is proved to produce exactly
  the state and requests of the matching `Coordinator` transition. `Valid()` keeps every
  logged request well formed: page size 8, never both filters, never an empty search.
- `scenarios.dfy`, module `Scenarios`: client methods that drive an `App` through concrete
  event sequences (initial load, genre switch, search precedence, typing, empty results,
  failure isolation, a stale response, a re-click).

Network responses are separate events. A games response names the request it answers, and
any pending one may arrive at any time. This captures the component's last-writer-wins
behaviour without modelling concurrency.

Three behaviours of the code that a reader might not expect, all modelled as written:

- A genre click does not always fetch. Clicking the genre that is already selected, or a
  genre whose id is 0, clears the search term and issues no request.
- The score badge shows "N/A" for a Metacritic score of 0 as well as for a missing one.
- A `/games` request with an empty search term and no selection carries no `genres`
  parameter at all.

## Model

| member | source | states |
|---|---|---|
| `Display.IconTableRoundTrip` | src/App.jsx:13-20 | the icon table's keys are exactly pc, playstation, xbox, mac, linux, steam, and it is a bijection onto the six glyphs |
| `Display.PlatformLabel` | src/App.jsx:117 | a cell shows a glyph iff the slug is one of the six table keys, and that glyph is the one registered under the slug; otherwise it shows the platform's name |
| `Display.PlatformLabels` | src/App.jsx:115-119 | the row has one cell per `parent_platforms` entry, in order, none skipped, each the entry's label |
| `Display.PlatformRow` | src/App.jsx:115 | a game without `parent_platforms` shows an empty row; otherwise one cell per entry |
| `Display.ScoreBadge` | src/App.jsx:121 | the badge shows the Metacritic score iff it is present and non-zero, and then shows that score; else "N/A" |
| `Display.IsActive` | src/App.jsx:70 | a genre is marked active iff the selection is some id equal to the genre's id |
| `Display.Sidebar` | src/App.jsx:67-70 | one entry per genre in order, each active iff its id equals the selection |
| `Display.AtMostOneActive` | src/App.jsx:67-70 | with distinct genre ids, at most one entry is active, and exactly one iff the selected id is listed |
| `Display.IconProperty` | src/App.jsx:117 | the JavaScript lookup `platformIcons[slug]` finds an own glyph for the six keys, an inherited `Object.prototype` member for inherited keys, `undefined` otherwise |
| `Display.PlatformCellAsWritten` | src/App.jsx:117 | as written, a slug naming an inherited member yields that member, not the name fallback |
| `Display.InheritedSlugSkipsNameFallback` | src/App.jsx:117 | the slug "constructor" reaches neither a glyph nor the name as written, while the intended rule shows the name |
| `Display.AsWrittenAgreesOutsideInheritedKeys` | src/App.jsx:117 | for every slug that is not an inherited key, the lookup as written and the intended rule agree |
| `Coordinator.ActiveFilter` | src/App.jsx:42-43 | search mode exactly when the search term is non-empty |
| `Coordinator.GamesRequest` | src/App.jsx:41-45 | page size 8; with a non-empty search term the request carries `search` = term and no `genres`; with an empty one it carries `genres` = selection and no `search` |
| `Coordinator.RequestCarriesActiveFilter` | src/App.jsx:42-43 | the filter read back from the built request is the one the mode rule selects |
| `Coordinator.QueryDeterminedByFilter` | src/App.jsx:41-45 | two well-formed requests are equal iff they carry the same filter |
| `Coordinator.SelectionEffect` | src/App.jsx:51-54 | a request is issued iff `selectedGenre` changed to a truthy value while the search term is empty, and it is the genre request for the new selection |
| `Coordinator.OnGenres` | src/App.jsx:28-37 | success replaces `genres` wholesale and selects the first genre if the list is non-empty (else keeps the selection); failure changes nothing; games and search term never change; a fetch happens iff the first id differs from the selection, is non-zero, and the search term is empty |
| `Coordinator.ClickGenre` | src/App.jsx:71-74 | the click selects the id and clears the search term, leaving genres and games; it fetches that genre iff it was not already selected and its id is non-zero |
| `Coordinator.TypeSearch` | src/App.jsx:95 | a keystroke changes only the search term and issues nothing |
| `Coordinator.SubmitSearch` | src/App.jsx:56-59 | submitting changes no state and issues exactly one request, whose filter is the active one, whatever the selection |
| `Coordinator.ResultsOrEmpty` | src/App.jsx:47 | a response without `results` yields the empty list; otherwise the results themselves |
| `Coordinator.OnGames` | src/App.jsx:47-48 | success replaces `games` wholesale and changes nothing else; failure changes nothing; no request is issued |
| `Coordinator.RunIssuesWellFormed` | src/App.jsx:39-49 | every request issued by any event sequence has page size 8, never both filters and never an empty search |
| `Coordinator.AtMostOneRequestPerEvent` | src/App.jsx:51-59 | an event sequence issues at most as many requests as it has events |
| `Coordinator.TypingNeverFetches` | src/App.jsx:95 | any run of keystrokes issues no request and leaves everything but the search term, which becomes the last text typed |
| `Coordinator.GamesChangeOnlyOnResponse` | src/App.jsx:47 | without a games response, no sequence of events changes `games` |
| `Coordinator.GamesChangeOnlyOnSuccess` | src/App.jsx:47-48 | without a successful games response, no sequence of events changes `games`; failed responses leave it as it was |
| `Coordinator.GenresChangeOnlyOnResponse` | src/App.jsx:31 | without a genres response, no sequence of events changes `genres` |
| `Coordinator.ReclickClearsSearchWithoutFetch` | src/App.jsx:71-74 | clicking the already-selected genre clears the search term and issues no request |
| `Coordinator.RunAppend` | src/App.jsx:22-131 | running two event sequences one after the other gives the same state as running their concatenation, and the issued requests concatenate |
| `Coordinator.LastSuccessShown` | src/App.jsx:47-48 | after any event sequence, `games` is the result list (or the empty list) of the most recently arrived successful games response, whatever came before it and whatever failed responses came after it |
| `AppComponent.App.constructor` | src/App.jsx:23-26 | the fields start as empty genres, no selection, empty games, empty search; nothing is fetched; the genres request is pending |
| `AppComponent.App.FetchGames` | src/App.jsx:39-49 | appends the request built from the current state to the log and marks it pending |
| `AppComponent.App.RunSelectionEffect` | src/App.jsx:51-54 | appends exactly the requests of `SelectionEffect` for the previous and current state |
| `AppComponent.App.OnGenresResponse` | src/App.jsx:28-37 | the new state and the appended requests are those of `OnGenres`; the genres request is no longer pending |
| `AppComponent.App.OnGenreClick` | src/App.jsx:71-74 | clicking sidebar entry i gives the state and requests of `ClickGenre` with that entry's id |
| `AppComponent.App.OnSearchInput` | src/App.jsx:95 | the state of `TypeSearch`; the request log and pending set are unchanged |
| `AppComponent.App.OnSearchSubmit` | src/App.jsx:56-59 | the state is unchanged and the log grows by the one request of `SubmitSearch` |
| `AppComponent.App.OnGamesResponse` | src/App.jsx:47-48 | the response to any pending request k gives the state of `OnGames` and removes k from the pending set |
| `Scenarios.InitialLoad` | src/App.jsx:28-54 | loading genres ids 1 and 2 selects 1 and issues exactly `{genres: 1, page_size: 8}` |
| `Scenarios.GenreSwitchClearsSearch` | src/App.jsx:71-74 | with "zelda" typed, clicking genre 2 clears the term and issues `{genres: 2, page_size: 8}` |
| `Scenarios.SearchPrecedence` | src/App.jsx:56-59 | with genre 1 selected and "mario" typed, submitting issues `{search: "mario", page_size: 8}` without a genre |
| `Scenarios.TypingDoesNotFetch` | src/App.jsx:95 | typing "a" then "ab" issues no request |
| `Scenarios.EmptyResultTolerance` | src/App.jsx:47 | a games response without results leaves an empty game list |
| `Scenarios.FailureIsolation` | src/App.jsx:36 | a failed genres response leaves the selection and the games as they were |
| `Scenarios.StaleResponseOverwrites` | src/App.jsx:47-54 | after switching from genre 1 to 2, the first request's late response overwrites the games shown for genre 2 |
| `Scenarios.ReclickSendsNothing` | src/App.jsx:71-74 | re-clicking the selected genre after typing clears the term and adds no request |

## Left out

- JSX markup, CSS class names and image URLs: presentation only. The six `react-icons` components are abstract glyph tokens.
- The HTTP client `./api/rawg`, axios parameter serialisation and promise timing: responses are events carrying a list or a failure. The base URL and API key are not part of this model.
- `console.error` on a failed request: a diagnostic with no effect on state.
- React's scheduler, batching and re-render machinery: each event is applied atomically, followed by one render that runs the `[selectedGenre]` effect. A second mount under React's development StrictMode is not modelled.
- The "Platforms" and "Order by" buttons: no behaviour is bound to them.
- A genres response without `results`: the component would set `genres` to undefined and then throw into its own catch. Every successful genres response is taken to carry a list.
- JavaScript values that are not integers (NaN, fractional ids or scores): ids and scores are integers here.
- AppComponent.App.OnGenreClick: clicks are taken by sidebar index, because the handler exists only on rendered entries. The pure `Coordinator.ClickGenre` accepts any id, as the handler does no validation.

## Findings

| source | as written | input that shows it | evidently intended | confidence | as-written member | corrected member |
|---|---|---|---|---|---|---|
| src/App.jsx:117 | `platformIcons[slug] \|\| name` looks the slug up on a plain object, so keys inherited from `Object.prototype` are found and are truthy | a platform with slug `constructor` (or `toString`, `__proto__`, ...): the cell comes out empty (or, for `__proto__`, rendering throws) instead of showing the name | any slug outside the six table keys falls back to the platform's name | low: catalog slugs are platform names; not executed | `Display.InheritedSlugSkipsNameFallback` (over `Display.PlatformCellAsWritten`) | `Display.PlatformLabel` |
