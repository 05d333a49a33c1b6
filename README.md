# Job import dashboard: reconciliation and polling, in Dafny

This project models the two pieces of sequential logic in the job-import
admin dashboard.

- **The dashboard's data logic** (`app/page.tsx`). A refresh (`fetchData`)
  reads the import logs and the job stats from the backend. When a response
  is not ok, it falls back to the persisted logs followed by two built-in
  entries. When the backend reports no logs, it merges in the persisted
  ones. It then normalises every raw record through a first-truthy
  fallback chain per field, and decides between the stats stored by the
  last submission and the fresh ones. A submission (`handleNewImport`)
  prepends the new entry to the persisted list, capped at 10. It bumps the
  pending and total counts and stores them with the time. A cache clear
  (`clearLocalData`) deletes the three stored keys and refreshes once.
- **The interval poller** (`app/utils/polling.ts`). `SimplePoller` keeps a
  timer handle and a polling flag in step. It guards `start` against a
  second start, clears both in `stop`, and dispatches each tick's outcome
  to the success or error callback.

Modules:

- `JsValues` (`js_values.dfy`): JSON values as JavaScript sees them.
  Truthiness, `||`, optional property access, and `Math.max` on a count
  that may be absent (NaN).
- `NumberText` (`number_text.dfy`): `Date.now().toString()` and
  JavaScript's `parseInt`, with the round trip between them.
- `DashboardData` (`dashboard_data.dfy`): the data logic of `app/page.tsx`
  as pure functions, and the lemmas about it. `Reconcile` is one whole
  refresh.
- `DashboardPage` (`dashboard_page.dfy`): the component as the class
  `SimpleDashboard`. Its React state is held in fields, and its three
  handlers are methods that update those fields and the injected
  `LocalStorage` step by step. Each method's postcondition equates the new
  state with the `DashboardData` functions.
- `Polling` (`polling.dfy`): the class `SimplePoller`. Its invariant is
  `isPolling <==> intervalId != null`.

Conventions:

- Browser storage is injected as an object.
- The clock is a `nat` parameter (`now`).
- `new Date().toISOString()` is an opaque string parameter (`nowIso`).
- Each `fetch` outcome is a parameter. It either threw, or it gave a
  response with its `ok` flag and a body that parses or does not.

Quirks of the code that the model keeps:

- The pending recount goes to the wrong field. The mock path and the
  empty-list merge both write it to `overview.activeJobs`
  (app/page.tsx:93, 116). The transform reads `overview.pendingJobs`
  (app/page.tsx:143). So the fresh pending count is 0 on the mock path,
  and it stays the backend's own after a merge (`BackendFailureFallback`,
  `EmptyListMerge`).
- A missing backend total becomes 0. With no `totalJobs` in the backend
  overview, `Math.max(undefined, n)` is NaN, and `NaN || 0` is 0
  (`EmptyListMerge`).
- Stored stats are deleted only when both keys are present. If only one
  of `currentStats` and `currentStatsTimestamp` is stored, a refresh
  deletes nothing (`StoredStatsOverride`).
- A throwing success callback also reaches `onError`. The callback runs
  inside the tick's `try`, so when it throws, `onError` is called with
  that error. The two callbacks are exclusive only when the success
  callback does not throw (`Polling.Dispatch`).

## Model

| member | source | states |
|---|---|---|
| `JsValues.FirstTruthyIsFirst` | app/page.tsx:131-139 | a chain of logical ors over `a`, `b`, …, `d` yields the first truthy candidate in order, and the default only when every candidate is falsy (so `0` and `""` fall through) |
| `JsValues.FirstTruthyWithTruthyFallback` | app/page.tsx:133-136 | a chain ending in a truthy literal is always truthy |
| `JsValues.MathMax` | app/page.tsx:118-121 | `Math.max(total, n)` is finite exactly when the backend total is a number; it is then at least both arguments and equal to one of them; otherwise NaN |
| `NumberText.ParseIntDecimalText` | app/page.tsx:154 | `parseInt` of the text `Date.now().toString()` wrote (line 274) gives back the same instant |
| `NumberText.ParseIntOfDigits` | app/page.tsx:154 | a non-empty run of decimal digits parses to its decimal value |
| `NumberText.DecimalTextValue` | app/page.tsx:274 | the decimal text of a clock value consists of digits whose value is that clock value |
| `DashboardData.NormaliseAsOrChains` | app/page.tsx:131-139 | the list-driven normalisation equals the source's seven inline chains of logical ors, field by field, with the defaults `"Unknown API"`, `""`, `"json"`, `"unknown"`, `0` and the current ISO time |
| `DashboardData.NormaliseTakesFirstTruthy` | app/page.tsx:131-139 | every normalised field is the first truthy candidate of its chain in the listed order, or that chain's default |
| `DashboardData.NormaliseNamesAreTruthy` | app/page.tsx:133-136 | the normalised name, type and status are never empty |
| `DashboardData.NormalisePending` | app/page.tsx:136 | a record is pending after normalisation exactly when its raw status is `"pending"` |
| `DashboardData.Normalise` | app/page.tsx:131-139 | the body transcribes the seven chains of logical ors of one record as candidate lists; `NormaliseAsOrChains` and `NormaliseTakesFirstTruthy` state what it picks |
| `DashboardData.TransformLogs` | app/page.tsx:131-139 | the body transcribes the optional `map` with `[]` as default: no list gives `[]`, a list is normalised by `NormaliseAll` |
| `DashboardData.TransformStats` | app/page.tsx:141-146 | with no overview all four counts are 0; each count is `StatField` of the field of the same name |
| `DashboardData.CountPendingRaw` | app/page.tsx:93 | the pending count of raw records (also at line 115) is at most the number of records |
| `DashboardData.CountPending` | app/page.tsx:157 | the pending count of normalised logs is at most the number of logs |
| `DashboardData.PersistedLogs` | app/page.tsx:59 | the body transcribes reading the persisted list with `'[]'` as default (also at lines 105 and 237) |
| `DashboardData.Store.Without` | app/page.tsx:32-34 | `removeItem` of one key (also at lines 169-170) empties that slot and keeps the two others |
| `DashboardData.MockOverview` | app/page.tsx:88-99 | the body transcribes the built-in overview; `BackendFailureFallback` states the stats it yields |
| `DashboardData.NeedsMerge` | app/page.tsx:106 | the body transcribes the merge condition: no or an empty backend list, and some persisted logs |
| `DashboardData.RecountOverview` | app/page.tsx:113-121 | after the merge `activeJobs` is the persisted pending count, `totalJobs` is `Math.max` of the backend total and the persisted count, and every other count is unchanged |
| `DashboardData.Gather` | app/page.tsx:45-124 | the body transcribes the branches that choose the raw list and overview; `ReconcileFailsOnlyOnThrow`, `BackendFailureFallback`, `EmptyListMerge` and `BackendListWins` state them |
| `DashboardData.BothStored` | app/page.tsx:152 | the body transcribes `storedStats && storedStatsTimestamp` on the stored texts |
| `DashboardData.StoredIsRecent` | app/page.tsx:154-159 | the body transcribes `Date.now() - parseInt(stamp) < 30000`, with NaN comparing false |
| `DashboardData.PreferStored` | app/page.tsx:159-161 | the body transcribes the three conditions; `StoredStatsOverride` states their effect |
| `DashboardData.Reconcile` | app/page.tsx:39-183 | a refresh never writes the persisted logs, and leaves storage either as it was or with both stats keys deleted |
| `DashboardData.FormAccepted` | app/page.tsx:367-392 | the body transcribes what the form lets through to the handler: the `required` name and URL are non-empty and the `required` select is `json` or `xml`; `PersistedEntryNormalisesToVisible` and `SubmittedEntryShownFirst` assume it |
| `DashboardData.JobIdOf` | app/page.tsx:224 | the body transcribes the chain `data.jobId`, `jobId`, `id`, then `'Unknown'` |
| `DashboardData.JobIdTakesFirstTruthy` | app/page.tsx:224 | the alert's job id is the first truthy of the three candidates, `"Unknown"` only when all are falsy, and never empty |
| `DashboardData.NewLogId` | app/page.tsx:228 | the body transcribes `data.importLogId`, or else the clock (again at line 248) |
| `DashboardData.NewLogIdTruthy` | app/page.tsx:228 | the new log's id is the backend's `importLogId` or the clock, and is truthy |
| `DashboardData.PersistedEntry` | app/page.tsx:227-235 | the body transcribes the persisted record; `PersistedEntryNormalisesToVisible` relates it to the shown one |
| `DashboardData.VisibleEntry` | app/page.tsx:247-255 | the body transcribes the record shown at once |
| `DashboardData.BumpStats` | app/page.tsx:260-270 | the body transcribes the stats update; `SubmissionKeepsDominance` states what it keeps |
| `NumberText.DecimalText` | app/page.tsx:274 | `Date.now().toString()` is a non-empty string of decimal digits |
| `NumberText.ParseInt` | app/page.tsx:154 | the body follows `parseInt`'s steps; `ParseIntDecimalText`, `ParseIntOfDigits` and `ParseIntNoDigits` state its results |
| `NumberText.ParseIntNoDigits` | app/page.tsx:154 | text that, after white space and an optional sign, does not start with a digit parses to NaN, so such a timestamp is never recent |
| `DashboardData.NormaliseAll` | app/page.tsx:131 | normalising the list keeps its length and order, element by element |
| `DashboardData.CountPendingNormalised` | app/page.tsx:157 | the number of pending logs is the same before and after normalisation |
| `DashboardData.CountPendingRawAppend` | app/page.tsx:93 | counting pending records distributes over concatenation |
| `DashboardData.StatField` | app/page.tsx:141-146 | a displayed count is non-zero exactly when the backend field is a truthy number, and is then that number; otherwise 0 |
| `DashboardData.MockLogsNormalised` | app/page.tsx:62-86 | the built-in entries normalise to id 1 `"completed"` and id 2 `"pending"`, exactly one of them pending |
| `DashboardData.ReconcileFailsOnlyOnThrow` | app/page.tsx:45-102 | a refresh fails exactly when a fetch throws, or when both responses are ok and a body does not parse; a non-ok response never fails it |
| `DashboardData.BackendFailureFallback` | app/page.tsx:55-99 | with a non-ok response the raw list is the persisted logs then the two built-in entries; the fresh stats are `{1250, 0, 1180, 25}` because the recount goes to `activeJobs` |
| `DashboardData.FallbackLogsLayout` | app/page.tsx:59-86 | the fallback list holds the persisted logs in order, then id 1 (completed), then id 2 (pending), with one more pending entry than the persisted logs |
| `DashboardData.EmptyListMerge` | app/page.tsx:105-121 | with ok responses, a missing or empty backend list and persisted logs, the shown logs are the persisted ones; total = max(backend total, persisted count), or 0 when the backend total is absent; pending keeps the backend's value |
| `DashboardData.BackendListWins` | app/page.tsx:106 | a non-empty backend list is shown as received, whatever is persisted |
| `DashboardData.StoredStatsOverride` | app/page.tsx:148-175 | stored stats are shown iff both keys are stored, age < 30000, stored pending ≥ visible pending logs and > fresh pending; then the keys stay; when both are stored and lose, both are deleted; with one key missing nothing is deleted; the persisted logs are never touched |
| `DashboardData.RecentOptimisticStatsWin` | app/page.tsx:152-161 | stats stamped at t by a submission win within 30 s whenever they dominate both pending counts |
| `DashboardData.StaleStatsNeverWin` | app/page.tsx:159-171 | stats stamped at t lose once 30 s have passed, so both keys are deleted |
| `DashboardData.RefreshAfterClear` | app/page.tsx:31-36 | a refresh from empty storage shows the fresh stats and leaves storage empty |
| `DashboardData.CappedPrepend` | app/page.tsx:237-239 | the persisted list after a submission has at most 10 entries: the new one first, then the first ≤ 9 earlier ones in order |
| `DashboardData.RepeatedSubmissionsStayCapped` | app/page.tsx:237-239 | any number of submissions keep the list within 10, newest first; its length is the number of submissions plus the earlier entries, up to 10 |
| `DashboardData.PersistedEntryNormalisesToVisible` | app/page.tsx:227-255 | the persisted record, read back by a later refresh, normalises to exactly the entry the submission showed |
| `DashboardData.SubmissionKeepsDominance` | app/page.tsx:257-264 | the bumped stats keep covering the visible pending logs, one of the three conditions for a refresh to keep them |
| `DashboardData.SubmittedEntryShownFirst` | app/page.tsx:227-239 | after a submission, a refresh with the backend down or empty shows the submitted entry first, as the submission showed it |
| `DashboardPage.LocalStorage.RemoveItem` | app/page.tsx:32-34 | removing a key empties that slot and leaves the others |
| `DashboardPage.LocalStorage.SetImportLogs` | app/page.tsx:239 | writing the log list replaces that slot only |
| `DashboardPage.LocalStorage.SetCurrentStats` | app/page.tsx:273 | writing the stats replaces that slot only |
| `DashboardPage.LocalStorage.SetCurrentStatsTimestamp` | app/page.tsx:274 | writing the timestamp replaces that slot only |
| `DashboardPage.SimpleDashboard.constructor` | app/page.tsx:23-26 | the component starts with no logs, no stats, not loading and no error (lines 23-26), and with the empty form of lines 189-193 |
| `DashboardPage.ReadReplies` | app/page.tsx:45-124 | the raw list and overview a refresh goes on with are `Gather`'s: the persisted logs plus the built-in entries when a response is not ok, the merge when the backend list is missing or empty, and nothing (a failed refresh) when a fetch threw or a body did not parse |
| `DashboardPage.SimpleDashboard.FetchData` | app/page.tsx:39-183 | one refresh: on failure the error banner is set and logs, stats and storage are kept; otherwise logs, stats and storage become `Reconcile`'s; loading ends false; the persisted cap is preserved |
| `DashboardPage.SimpleDashboard.ShowRefresh` | app/page.tsx:148-175 | the end of a refresh: shows the stored stats and keeps the keys when they win, otherwise shows the fresh stats and deletes both keys if both were stored |
| `DashboardPage.SimpleDashboard.HandleNewImport` | app/page.tsx:195-300 | a thrown fetch or parse error, or a non-ok response, alerts and changes no logs, stats, form or storage; on success the alert carries the job id, the capped persisted list, the prepended visible entry, the bumped stats, their timestamp and the reset form are as stated, and refreshes are scheduled at 2000, 5000 and 10000 ms |
| `DashboardPage.SimpleDashboard.ClearLocalData` | app/page.tsx:31-37 | all three keys end deleted, exactly one refresh runs, and what it shows is `Reconcile` from empty storage; loading ends false and the form is kept |
| `Polling.Dispatch` | app/utils/polling.ts:33-47 | a tick calls `onSuccess` with the data iff provided and fetch and parse succeeded; `onError` iff provided and either they threw or the success callback threw; both only in the latter case, success first |
| `Polling.SimplePoller.constructor` | app/utils/polling.ts:21-22 | a new poller has no timer and is not polling, which satisfies the invariant |
| `Polling.SimplePoller.Start` | app/utils/polling.ts:24-48 | start while polling changes nothing; from idle it registers the timer and sets the flag; the invariant is kept |
| `Polling.SimplePoller.Stop` | app/utils/polling.ts:50-57 | afterwards no timer and not polling; with no timer it is a no-op; the invariant is kept |
| `Polling.SimplePoller.IsActive` | app/utils/polling.ts:59-61 | returns the flag, which under the invariant is "a timer is registered" |
| `Polling.SimplePoller.Fire` | app/utils/polling.ts:33-47 | a cleared timer makes no callback; a registered one dispatches with the configuration `start` captured |

## Left out

- Network, JSON text and parsing, `localStorage` itself, `alert`, `console`
  and rendering are not modelled. Each fetch outcome and each body is a
  parameter. Storage holds parsed values under three typed keys.
- `app/simple-page.tsx`, `app/simple-layout.tsx`, `app/layout.tsx`,
  `app/types/api.ts` and the configuration files hold no logic of the
  core and are not part of this model.
- The helpers `pollJobStats`, `pollImportLogs` and `pollQueueStats` are
  left out. They only start a poller with a fixed URL and interval.
- `maxRetries` is carried in the configuration and never read, as in the
  source.
- The three delayed refreshes are returned as their delays, not run.
  Overlapping refreshes, lost updates to storage, and ticks that overlap
  in-flight requests are host concurrency and are left out.
- React state updates are applied at once. The functional `setStats`
  updater therefore sees the current stats.
- `HandleNewImport` uses one instant (`now`, `nowIso`) for the source's
  separate `Date.now()` and `new Date()` calls. The source's calls could
  differ by a millisecond.
- `DashboardData.Normalise`: every record of one refresh gets the same
  `nowIso`. The source calls `new Date().toISOString()` once per record
  that has neither `importTime` nor `createdAt`, so those times could
  differ by a millisecond.
- The refresh on mount (`useEffect` at app/page.tsx:185-187) is the host
  calling `FetchData` once after the constructor.
- Numbers are integers. Fractional counts and ids are not modelled.
- `JsValues.MathMax`: does not model a backend total that is a string,
  boolean or `null`. Backend counts are numbers or absent (JavaScript
  would coerce the others).
- `DashboardData.StatField`: backend counts are numbers or absent. A
  truthy non-number count, which the source would display as it is, is not
  representable.
- `DashboardData.Normalise`: raw records are objects. A `null` element in
  a log list, which makes the source throw a TypeError that ends in the
  error banner, is not representable. Neither is an `importLogs` value
  that is not an array.
- `DashboardData.PersistedLogs`: stored text that is not valid JSON, or a
  stored log list that is not an array, is not modelled. Only this code
  writes the key, and it always writes an array.
- `DashboardPage.SimpleDashboard.HandleNewImport`: the alert for a thrown
  error carries the host's message, which is not modelled. It is
  `RequestFailed`.
- `Polling.SimplePoller.Fire`: an `onError` callback that itself throws
  is not modelled. In the source that is an unhandled rejection with no
  effect on the poller.
- `Polling.SimplePoller.Fire`: the registered interval holds a copy of the
  configuration. In the source the tick holds a reference to the caller's
  object, so a caller that later changes `onSuccess` or `onError` changes
  later ticks. Nothing in the repository does that.
- `Polling.SimplePoller`: the timer handle is always truthy. Node's
  `Timeout` objects and browsers' positive interval ids both are.
