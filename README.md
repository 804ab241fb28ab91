# Football dashboard: data orchestration, modelled in Dafny

The dashboard is one React component (`src/App.js`). The user types up to three team
names. For each name the component:

1. resolves the name to the sports-data API's `team_id`, using the first search hit;
2. fetches three resources for that id (the next 15 fixtures, the 2024 standings and
   the 2024 injuries) and combines them into one bundle, but only if all three succeed;
3. stores the three results in slot order, with `null` for a team that failed.

When the injuries are shown, the list is deduplicated by player name.

This project models that logic. The network is an `Api` value: for every request, it
says what the reply is. So every step is a function of the names and that value.

- `wrappers.dfy`: `Option`, which stands for the component's `null`.
- `upstream.dfy`: the API's values: search replies, data requests, outcomes, and a log of
  the requests sent.
- `injuries.dfy`: `removeDuplicateInjuries`. It is a loop method proved against the
  reference function `Dedupe`, plus lemmas about `Dedupe`.
- `name_resolver.dfy`: the URL segment built by `teamName.replace(' ', '_')`, and the
  first-match rule of `fetchTeamId`.
- `resource_fetcher.dfy`: `fetchTeamData`, which combines three outcomes into one
  bundle or nothing.
- `dashboard.dfy`: the pipeline for one team, the positional result list, and the
  `App` class. The class holds `teamNames`, `data`, `loading` and `error`, and its
  `HandleSubmit` follows `handleSubmit` step by step.

Three behaviours of the code are easy to miss, and the model keeps them:

- The code does not check `response.ok`. A non-2xx reply whose body parses as JSON
  counts as a success. Only a transport error or a JSON parse error is a failure, and
  that is what `FetchFailed` and `SearchFailed` stand for. On the search path, a body
  that is `null` or has no `api` field throws while being read and lands in the same
  `catch`, so `SearchFailed` stands for that case too.
- "No candidates", "`api.teams` missing" and a failed search request all end in the same
  `catch`. They leave the same message, `Error fetching team ID for <name>`. The code
  has no separate not-found error and transport error.
- An id of `0` is falsy. It leaves the slot absent *without* writing an error
  (`RunTeamOutcome`).

## Model

| member | source | states |
|---|---|---|
| `Injuries.Dedupe` | src/App.js:105-118 | The deduplicated list is never longer than the input, and it is empty exactly when the input is empty |
| `Injuries.RemoveDuplicateInjuries` | src/App.js:105-118 | The loop with its seen-names set returns exactly `Dedupe(injuries)`. So the lemmas below about `Dedupe` hold of its result |
| `Injuries.DedupeDistinct` | src/App.js:109-114 | No two records of the output share a player name |
| `Injuries.DedupeNames` | src/App.js:109-115 | The set of player names in the output equals the set in the input |
| `Injuries.DedupeSubsequence` | src/App.js:105-117 | The output is an order-preserving subsequence of the input |
| `Injuries.DedupeIsFirstOccurrences` | src/App.js:109-114 | The output is exactly the records with no earlier record of the same name, in input order. So the record kept for a player is its first one |
| `Injuries.PrefixDedupe` | src/App.js:109-115 | After scanning the first `n` records, the kept list is the first occurrences among them |
| `Injuries.DedupeOfDistinct` | src/App.js:109-114 | A list without repeated names is returned unchanged |
| `Injuries.DedupeIdempotent` | src/App.js:105-117 | Deduplicating twice gives the same list as deduplicating once |
| `Injuries.DistinctNamesCount` | src/App.js:109-114 | A list without repeated names has as many distinct names as records |
| `Injuries.DedupeLength` | src/App.js:105-117 | The output has exactly one record per distinct player name of the input |
| `Injuries.DedupeExample` | src/App.js:109-114 | `[A, B, A]` becomes `[A, B]`, keeping the first record for `A` |
| `NameResolver.FirstSpace` | src/App.js:20 | Gives the position of the first space: no space before it, and a space at it when it is inside the string |
| `NameResolver.SearchSegment` | src/App.js:20 | The segment has the name's length. The first space becomes `_` and every other character stays, later spaces included. A name without a space is unchanged |
| `NameResolver.SegmentReplacesOneSpace` | src/App.js:20 | When the name has a space, the segment has exactly one space fewer and one underscore more than the name. Otherwise both counts are unchanged |
| `NameResolver.SegmentExample` | src/App.js:20 | `"A B C"` becomes `"A_B C"` |
| `NameResolver.FetchTeamId` | src/App.js:30-45 | An id is returned exactly when the reply holds a non-empty `teams` list, and it is the first candidate's `team_id`. Otherwise the result is `null` and the error `Error fetching team ID for <name>` is written |
| `NameResolver.FirstCandidateWins` | src/App.js:33-36 | The candidates after the first never affect the result |
| `NameResolver.FailedLookupNamesTeam` | src/App.js:37-44 | A failed transport, a missing `teams` field or an empty list gives no id and an error message ending with the team name |
| `ResourceFetcher.DataRequests` | src/App.js:60-64 | Three requests for the team id: fixtures with `next=15`, then standings and injuries for season 2024 |
| `ResourceFetcher.AssembleBundle` | src/App.js:66-80 | A bundle exists exactly when all three outcomes succeed, and it holds their three payloads. Otherwise there is no bundle and the error is `Failed to fetch data for the team` |
| `ResourceFetcher.AssembleUnbundle` | src/App.js:71-75 | Combining a bundle's own three parts gives that same bundle back with no error |
| `ResourceFetcher.UnbundleAssemble` | src/App.js:71-75 | Any bundle produced is exactly the three successful outcomes it came from |
| `ResourceFetcher.FetchTeamData` | src/App.js:48-81 | A bundle is produced exactly when all three requests for the id succeed, and it holds the fixtures, standings and injuries replies in those fields, as the URL order fixes the destructuring. An error is written exactly when no bundle is produced, and it is `Failed to fetch data for the team` |
| `ResourceFetcher.StandingsFailureLosesBundle` | src/App.js:59-80 | A failed standings request loses the whole bundle, whatever the other two requests return |
| `Dashboard.Truthy` | src/App.js:90 | The `if (teamId)` test: `null` and `0` are falsy. Its consequences are stated by `RunTeamCalls`, `RunTeamOutcome` and `FalsyIdFetchesNothing` |
| `Dashboard.Resolve` | src/App.js:20-45 | `fetchTeamId` against the reply to the search for the name's URL segment. `RunDependsOnLoggedReplies` states that only that reply matters |
| `Dashboard.RunTeam` | src/App.js:88-95 | The `map` callback for one name. Its contract is carried by `RunTeamCalls`, `RunTeamOutcome`, `RunDependsOnLoggedReplies` and `FalsyIdFetchesNothing` |
| `Dashboard.RunTeamCalls` | src/App.js:88-95 | A pipeline first searches for the name's URL segment. It sends the three data requests for the id only when the id is truthy, and no data request for a `null` or `0` id |
| `Dashboard.RunDependsOnLoggedReplies` | src/App.js:88-95 | A pipeline depends on the network only through the replies to the search for the name's URL segment and to the data requests it logs. Networks that agree on those give the same slot, error and log |
| `Dashboard.FalsyIdFetchesNothing` | src/App.js:88-95 | For a `null` or `0` id, the replies to data requests cannot change the pipeline: the fetcher is not invoked |
| `Dashboard.RunTeamOutcome` | src/App.js:88-95 | A slot is filled exactly when the id is truthy and all three requests succeed, and it is then the bundle `fetchTeamData` built for that id. A failed lookup leaves its message and a failed fetch leaves the data message. An absent slot has no error exactly when the id was `0` |
| `Dashboard.SucceedingRun` | src/App.js:89-93 | A truthy id whose three data requests succeed fills the slot and writes no error, whatever other requests would return |
| `Dashboard.UnresolvedRun` | src/App.js:89-94 | An unresolved name leaves the slot `null` and writes the lookup message naming the team |
| `Dashboard.Runs` | src/App.js:88-97 | There is one pipeline per name, and pipeline `i` is the one for name `i` |
| `Dashboard.Slots` | src/App.js:87-98 | The result list has one slot per name, and slot `i` is name `i`'s pipeline result |
| `Dashboard.SlotIsolation` | src/App.js:88-97 | Slot `i` depends only on name `i`: lists that agree at `i` agree in slot `i` |
| `Dashboard.LastError` | src/App.js:88-97 | The shared error after the pipelines' `setError` writes (lines 43 and 78), the last write winning. Its contract is carried by `NoErrorIffNoFailure`, `LastErrorIsMostRecent` and `LastErrorAfter` |
| `Dashboard.NoErrorIffNoFailure` | src/App.js:83-103 | The shared error stays cleared exactly when no pipeline wrote one |
| `Dashboard.LastErrorIsMostRecent` | src/App.js:83-103 | A reported error was written by a pipeline, and no later pipeline wrote one |
| `Dashboard.LastErrorAfter` | src/App.js:83-103 | If pipeline `k` wrote an error and no later pipeline did, that error is the one left |
| `Dashboard.OneFailedLookup` | src/App.js:87-98 | One unresolvable name among names whose ids are truthy and whose three data requests succeed does not abort the submission. Only its slot is `null`, and the error left names that team |
| `Dashboard.NameList` | src/App.js:87 | The three form fields, in slot order |
| `Dashboard.App.constructor` | src/App.js:6-9 | Initial state: empty names, empty `data`, not loading, no error |
| `Dashboard.App.BeginSubmit` | src/App.js:84-85 | On entry, `loading` is true and the error is cleared. Names and data are unchanged |
| `Dashboard.App.SettleTeam` | src/App.js:41-79 | While `loading` is on, a settling pipeline's error, if it has one (the lookup message or the data message), replaces the shared error. Nothing else changes |
| `Dashboard.App.SettleTeams` | src/App.js:88-97 | Pipelines settle only while `loading` is on. After all of them have settled, the error is the last one written, or the previous value if none was written |
| `Dashboard.App.FinishSubmit` | src/App.js:97-102 | The result list replaces `data` wholesale, and `loading` becomes false |
| `Dashboard.App.HandleSubmit` | src/App.js:83-103 | `data` becomes the 3 slots aligned with the three names. `error` is the last error this submission wrote, or none. `loading` is false at the end, and the names are unchanged |

## Left out

- The network: `fetch`, `response.json()`, URLs, request headers and the API key. The
  `Api` value's replies stand in for them.
- Payload contents. Fixtures, standings and injuries bodies are opaque JSON values, and
  the model does not read the fields used only for display.
- Rendering: the JSX, `handleChange` and the form's input handling. That includes the
  render-time guard around the deduplication call and `toLocaleDateString` formatting,
  which depends on the host's locale.
- `console.error` logging.
- The outer `catch` of `handleSubmit` ('Error fetching data.'). Both helpers catch all of
  their own failures, so no modelled path reaches it.
- JavaScript's dynamic typing. `team_id` is an integer, so truthiness means "not `null`
  and not `0`". Non-numeric ids, and a reply with no `api` field, are not distinguished
  from the modelled cases.
- `Dashboard.App.HandleSubmit`: the pipelines run one after another, in slot order. In
  the component they run concurrently, and the shared error gets whichever write comes
  last in time. A second submission can also overlap the first and race on `loading`,
  `error` and `data`. Neither interleaving is modelled.
- `Dashboard.RunTeam`: the network is one `Api` value for the whole submission, so
  identical requests in one submission get the same reply. In the component each
  pipeline sends its own `fetch`, and two of them can fail independently: a repeated
  name, or two names with the same URL segment (`"A B"` and `"A_B"`), whose lookups get
  different replies is not expressed. `SlotIsolation` and `OneFailedLookup` are about a
  fixed reply per request.
- `ResourceFetcher.FetchTeamData`: the three requests are taken as already settled. The
  order in which `Promise.all` sees them, and its early rejection, are not modelled.
  Neither changes the result, because any failure gives the same constant message.
