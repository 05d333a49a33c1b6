/**
 * The data logic of the import dashboard (app/page.tsx) as pure
 * functions: the mock fallback and the merge with persisted logs, the
 * normalisation of raw backend records, the stats defaults, the rule that
 * decides between stored optimistic stats and fresh ones, and the values a
 * submission persists. The stateful component that applies them is in
 * module DashboardPage.
 */
module DashboardData {
  import opened JsValues
  import opened NumberText

  /** Stored stats older than this (milliseconds) are never shown. */
  const StatsMaxAgeMillis: int := 30000
  /** At most this many submitted logs are kept in browser storage. */
  const PersistedLogsCap: nat := 10
  /** The message shown when a refresh fails. */
  const LoadErrorMessage: string := "Failed to load data"
  /** The delays (milliseconds) of the three refreshes scheduled after a submission. */
  const RecheckDelays: seq<nat> := [2000, 5000, 10000]

  /** The canonical import record shown in the table. Every field holds
      whatever value its fallback chain picked, as in JavaScript. */
  datatype ImportLog = ImportLog(
    id: Js, apiName: Js, apiUrl: Js, format: Js, status: Js, jobsFound: Js, createdAt: Js)

  datatype Stats = Stats(totalJobs: int, pendingJobs: int, completedJobs: int, failedJobs: int)

  /** `statistics.overview` of the stats endpoint: named counts. */
  type Overview = map<string, Number>

  /** The three browser-storage keys the dashboard uses. */
  datatype Key = ImportLogsKey | CurrentStatsKey | CurrentStatsTimestampKey

  /** Browser storage as seen through those three keys: the persisted log
      list, the persisted stats, and the text of the stats' capture time. */
  datatype Store = Store(
    importLogs: Option<seq<JsObject>>,
    currentStats: Option<Stats>,
    currentStatsTimestamp: Option<string>)
  {
    /** `localStorage.removeItem(key)`. */
    function Without(key: Key): (r: Store)
      ensures key == ImportLogsKey ==> r == this.(importLogs := None)
      ensures key == CurrentStatsKey ==> r == this.(currentStats := None)
      ensures key == CurrentStatsTimestampKey ==> r == this.(currentStatsTimestamp := None)
    {
      match key
      case ImportLogsKey => this.(importLogs := None)
      case CurrentStatsKey => this.(currentStats := None)
      case CurrentStatsTimestampKey => this.(currentStatsTimestamp := None)
    }
  }

  const EmptyStore: Store := Store(None, None, None)

  /** `JSON.parse(localStorage.getItem('importLogs') || '[]')`. */
  function PersistedLogs(store: Store): seq<JsObject> {
    store.importLogs.GetOr([])
  }

  /** The outcome of one `fetch`: it threw (Rejected), or it produced a
      response whose body `response.json()` parses (Some) or fails to parse (None). */
  datatype Reply<B> = Rejected | Reply(ok: bool, body: Option<B>)

  /** The part of the `/import-logs` body the dashboard reads:
      `data.importLogs`, None when it is absent. */
  datatype LogsBody = LogsBody(importLogs: Option<seq<JsObject>>)

  /** The part of the `/jobs/stats` body the dashboard reads:
      `data.statistics.overview`, None when it is absent. */
  datatype StatsBody = StatsBody(overview: Option<Overview>)

  /** The raw log list and overview once the fallback and merge are done. */
  datatype Fetched = Fetched(rawLogs: Option<seq<JsObject>>, overview: Option<Overview>)

  /** The result of a refresh: it failed (the error banner is shown and the
      visible state is kept), or it produced the logs and stats to show and
      the storage it leaves behind. */
  datatype Refresh = LoadFailed | Loaded(logs: seq<ImportLog>, stats: Stats, store: Store)

  // ---------------------------------------------------------------- counting

  predicate IsPendingRaw(r: JsObject) {
    Field(r, "status") == Str("pending")
  }

  predicate IsPending(log: ImportLog) {
    log.status == Str("pending")
  }

  /** `logs.filter(log => log.status === 'pending').length` on raw records. */
  function CountPendingRaw(logs: seq<JsObject>): (n: nat)
    ensures n <= |logs|
  {
    if |logs| == 0 then 0
    else (if IsPendingRaw(logs[0]) then 1 else 0) + CountPendingRaw(logs[1..])
  }

  /** The same count on normalised logs. */
  function CountPending(logs: seq<ImportLog>): (n: nat)
    ensures n <= |logs|
  {
    if |logs| == 0 then 0
    else (if IsPending(logs[0]) then 1 else 0) + CountPending(logs[1..])
  }

  lemma {:induction false} CountPendingRawAppend(a: seq<JsObject>, b: seq<JsObject>)
    ensures CountPendingRaw(a + b) == CountPendingRaw(a) + CountPendingRaw(b)
  {
    if |a| > 0 {
      assert (a + b)[1..] == a[1..] + b;
      CountPendingRawAppend(a[1..], b);
    } else {
      assert a + b == b;
    }
  }

  // ----------------------------------------------------------- normalisation

  function Source(r: JsObject): Js { Field(r, "source") }
  function RawStats(r: JsObject): Js { Field(r, "stats") }

  function IdCandidates(r: JsObject): seq<Js> { [Field(r, "_id")] }
  function NameCandidates(r: JsObject): seq<Js> {
    [Field(r, "fileName"), Field(r, "apiName"), Member(Source(r), "name")]
  }
  function UrlCandidates(r: JsObject): seq<Js> {
    [Member(Source(r), "url"), Field(r, "apiUrl"), Field(r, "endpoint")]
  }
  function FormatCandidates(r: JsObject): seq<Js> {
    [Member(Source(r), "type"), Field(r, "type")]
  }
  function StatusCandidates(r: JsObject): seq<Js> { [Field(r, "status")] }
  function JobsCandidates(r: JsObject): seq<Js> {
    [Member(RawStats(r), "newJobs"), Member(RawStats(r), "jobsProcessed"), Field(r, "jobsProcessed")]
  }
  function CreatedCandidates(r: JsObject): seq<Js> {
    [Field(r, "importTime"), Field(r, "createdAt")]
  }

  /** Maps one raw record to the canonical shape; `nowIso` stands for
      `new Date().toISOString()`. */
  function Normalise(r: JsObject, nowIso: string): ImportLog {
    ImportLog(
      id := FirstTruthy(IdCandidates(r), Field(r, "id")),
      apiName := FirstTruthy(NameCandidates(r), Str("Unknown API")),
      apiUrl := FirstTruthy(UrlCandidates(r), Str("")),
      format := FirstTruthy(FormatCandidates(r), Str("json")),
      status := FirstTruthy(StatusCandidates(r), Str("unknown")),
      jobsFound := FirstTruthy(JobsCandidates(r), Num(0)),
      createdAt := FirstTruthy(CreatedCandidates(r), Str(nowIso)))
  }

  /** The normalisation written as the source's `||` chains. */
  lemma NormaliseAsOrChains(r: JsObject, nowIso: string)
    ensures Normalise(r, nowIso) == ImportLog(
      id := Or(Field(r, "_id"), Field(r, "id")),
      apiName := Or(Field(r, "fileName"), Or(Field(r, "apiName"),
                    Or(Member(Source(r), "name"), Str("Unknown API")))),
      apiUrl := Or(Member(Source(r), "url"), Or(Field(r, "apiUrl"), Or(Field(r, "endpoint"), Str("")))),
      format := Or(Member(Source(r), "type"), Or(Field(r, "type"), Str("json"))),
      status := Or(Field(r, "status"), Str("unknown")),
      jobsFound := Or(Member(RawStats(r), "newJobs"), Or(Member(RawStats(r), "jobsProcessed"),
                      Or(Field(r, "jobsProcessed"), Num(0)))),
      createdAt := Or(Field(r, "importTime"), Or(Field(r, "createdAt"), Str(nowIso))))
  {
    FirstTruthyOfOne(Field(r, "_id"), Field(r, "id"));
    FirstTruthyOfThree(Field(r, "fileName"), Field(r, "apiName"), Member(Source(r), "name"), Str("Unknown API"));
    FirstTruthyOfThree(Member(Source(r), "url"), Field(r, "apiUrl"), Field(r, "endpoint"), Str(""));
    FirstTruthyOfTwo(Member(Source(r), "type"), Field(r, "type"), Str("json"));
    FirstTruthyOfOne(Field(r, "status"), Str("unknown"));
    FirstTruthyOfThree(Member(RawStats(r), "newJobs"), Member(RawStats(r), "jobsProcessed"),
                       Field(r, "jobsProcessed"), Num(0));
    FirstTruthyOfTwo(Field(r, "importTime"), Field(r, "createdAt"), Str(nowIso));
  }

  /** Every field of a normalised record is the first truthy candidate of
      its chain, in the listed order, or the chain's default. */
  lemma NormaliseTakesFirstTruthy(r: JsObject, nowIso: string)
    ensures var log := Normalise(r, nowIso);
      && IsFirstTruthy(IdCandidates(r), Field(r, "id"), log.id)
      && IsFirstTruthy(NameCandidates(r), Str("Unknown API"), log.apiName)
      && IsFirstTruthy(UrlCandidates(r), Str(""), log.apiUrl)
      && IsFirstTruthy(FormatCandidates(r), Str("json"), log.format)
      && IsFirstTruthy(StatusCandidates(r), Str("unknown"), log.status)
      && IsFirstTruthy(JobsCandidates(r), Num(0), log.jobsFound)
      && IsFirstTruthy(CreatedCandidates(r), Str(nowIso), log.createdAt)
  {
    FirstTruthyIsFirst(IdCandidates(r), Field(r, "id"));
    FirstTruthyIsFirst(NameCandidates(r), Str("Unknown API"));
    FirstTruthyIsFirst(UrlCandidates(r), Str(""));
    FirstTruthyIsFirst(FormatCandidates(r), Str("json"));
    FirstTruthyIsFirst(StatusCandidates(r), Str("unknown"));
    FirstTruthyIsFirst(JobsCandidates(r), Num(0));
    FirstTruthyIsFirst(CreatedCandidates(r), Str(nowIso));
  }

  /** The name, format and status of a normalised record are never empty. */
  lemma NormaliseNamesAreTruthy(r: JsObject, nowIso: string)
    ensures var log := Normalise(r, nowIso);
      Truthy(log.apiName) && Truthy(log.format) && Truthy(log.status)
  {
    FirstTruthyWithTruthyFallback(NameCandidates(r), Str("Unknown API"));
    FirstTruthyWithTruthyFallback(FormatCandidates(r), Str("json"));
    FirstTruthyWithTruthyFallback(StatusCandidates(r), Str("unknown"));
  }

  /** A record is pending after normalisation exactly when its raw status is. */
  lemma NormalisePending(r: JsObject, nowIso: string)
    ensures IsPending(Normalise(r, nowIso)) <==> IsPendingRaw(r)
  {
    NormaliseAsOrChains(r, nowIso);
  }

  /** `logs.map(normalise)`: same length, same order. */
  function NormaliseAll(raw: seq<JsObject>, nowIso: string): (logs: seq<ImportLog>)
    ensures |logs| == |raw|
    ensures forall i :: 0 <= i < |raw| ==> logs[i] == Normalise(raw[i], nowIso)
  {
    seq(|raw|, i requires 0 <= i < |raw| => Normalise(raw[i], nowIso))
  }

  /** Normalisation keeps the number of pending records. */
  lemma {:induction false} CountPendingNormalised(raw: seq<JsObject>, nowIso: string)
    ensures CountPending(NormaliseAll(raw, nowIso)) == CountPendingRaw(raw)
  {
    if |raw| > 0 {
      NormalisePending(raw[0], nowIso);
      assert NormaliseAll(raw, nowIso)[1..] == NormaliseAll(raw[1..], nowIso);
      CountPendingNormalised(raw[1..], nowIso);
    }
  }

  /** `logsData.data?.importLogs?.map(...) || []`. */
  function TransformLogs(raw: Option<seq<JsObject>>, nowIso: string): seq<ImportLog>
  {
    match raw
    case None => []
    case Some(l) => NormaliseAll(l, nowIso)
  }

  // ------------------------------------------------------------------- stats

  /** `overview?.k || 0`. */
  function StatField(overview: Option<Overview>, k: string): (n: int)
    ensures n != 0 <==> overview.Some? && k in overview.value && NumberTruthy(overview.value[k])
    ensures n != 0 ==> overview.value[k] == Finite(n)
  {
    if overview.Some? && k in overview.value && NumberTruthy(overview.value[k])
    then overview.value[k].value
    else 0
  }

  /** The fresh stats: each of the four counts read from the overview's
      field of the same name, 0 when it is absent or falsy. */
  function TransformStats(overview: Option<Overview>): (s: Stats)
    ensures overview.None? ==> s == Stats(0, 0, 0, 0)
  {
    Stats(
      StatField(overview, "totalJobs"),
      StatField(overview, "pendingJobs"),
      StatField(overview, "completedJobs"),
      StatField(overview, "failedJobs"))
  }

  // ---------------------------------------------------- fallback and merging

  /** The first built-in log entry used when the backend does not answer. */
  const MockIndeed: JsObject :=
    map["id" := Num(1), "apiName" := Str("Indeed Jobs API"),
        "apiUrl" := Str("https://api.indeed.com/jobs"), "type" := Str("json"),
        "status" := Str("completed"), "stats" := Obj(map["newJobs" := Num(150)]),
        "createdAt" := Str("2025-01-13T10:30:00Z")]

  /** The second built-in log entry used when the backend does not answer. */
  const MockLinkedIn: JsObject :=
    map["id" := Num(2), "apiName" := Str("LinkedIn Jobs API"),
        "apiUrl" := Str("https://api.linkedin.com/jobs"), "type" := Str("xml"),
        "status" := Str("pending"), "stats" := Obj(map["newJobs" := Num(0)]),
        "createdAt" := Str("2025-01-13T11:00:00Z")]

  /** The two built-in log entries, in their order. */
  const MockLogs: seq<JsObject> :=
    [MockIndeed, MockLinkedIn]

  /** The id and status chains alone, for records whose other fields do not matter. */
  lemma NormaliseIdAndStatus(r: JsObject, nowIso: string)
    ensures Normalise(r, nowIso).id == Or(Field(r, "_id"), Field(r, "id"))
    ensures Normalise(r, nowIso).status == Or(Field(r, "status"), Str("unknown"))
  {
    FirstTruthyOfOne(Field(r, "_id"), Field(r, "id"));
    FirstTruthyOfOne(Field(r, "status"), Str("unknown"));
  }

  /** What the built-in entries look like once normalised. */
  lemma MockLogsNormalised(nowIso: string)
    ensures Normalise(MockIndeed, nowIso).id == Num(1)
    ensures Normalise(MockIndeed, nowIso).status == Str("completed")
    ensures Normalise(MockLinkedIn, nowIso).id == Num(2)
    ensures Normalise(MockLinkedIn, nowIso).status == Str("pending")
    ensures CountPendingRaw(MockLogs) == 1
  {
    MockIndeedNormalised(nowIso);
    MockLinkedInNormalised(nowIso);
    MockLogsPending();
  }

  /** Exactly one built-in entry is pending. */
  lemma MockLogsPending()
    ensures CountPendingRaw(MockLogs) == 1
  {
    assert !IsPendingRaw(MockIndeed) by { assert Field(MockIndeed, "status") == Str("completed"); }
    assert IsPendingRaw(MockLinkedIn) by { assert Field(MockLinkedIn, "status") == Str("pending"); }
    assert MockLogs[1..] == [MockLinkedIn];
    assert MockLogs[1..][1..] == [];
  }

  lemma MockIndeedNormalised(nowIso: string)
    ensures Normalise(MockIndeed, nowIso).id == Num(1)
    ensures Normalise(MockIndeed, nowIso).status == Str("completed")
    ensures !IsPendingRaw(MockIndeed)
  {
    NormaliseIdAndStatus(MockIndeed, nowIso);
    assert Field(MockIndeed, "_id") == Undefined;
    assert Field(MockIndeed, "status") == Str("completed");
  }

  lemma MockLinkedInNormalised(nowIso: string)
    ensures Normalise(MockLinkedIn, nowIso).id == Num(2)
    ensures Normalise(MockLinkedIn, nowIso).status == Str("pending")
    ensures IsPendingRaw(MockLinkedIn)
  {
    NormaliseIdAndStatus(MockLinkedIn, nowIso);
    assert Field(MockLinkedIn, "_id") == Undefined;
    assert Field(MockLinkedIn, "status") == Str("pending");
  }

  /** The built-in overview used when the backend does not answer; the
      pending count of the persisted logs goes to `activeJobs`. */
  function MockOverview(persisted: seq<JsObject>): Overview {
    map["totalJobs" := Finite(1250), "activeJobs" := Finite(CountPendingRaw(persisted)),
        "completedJobs" := Finite(1180), "failedJobs" := Finite(25)]
  }

  /** The backend reported no logs while some are persisted. */
  predicate NeedsMerge(importLogs: Option<seq<JsObject>>, persisted: seq<JsObject>) {
    (importLogs.None? || |importLogs.value| == 0) && |persisted| > 0
  }

  /** The overview after the merge: `activeJobs` becomes the persisted
      pending count and `totalJobs` becomes `Math.max(totalJobs, |persisted|)`. */
  function RecountOverview(o: Overview, persisted: seq<JsObject>): (r: Overview)
    ensures r.Keys == o.Keys + {"activeJobs", "totalJobs"}
    ensures r["activeJobs"] == Finite(CountPendingRaw(persisted))
    ensures r["totalJobs"] == MathMax(if "totalJobs" in o then Some(o["totalJobs"]) else None, |persisted|)
    ensures forall k :: k in o && k != "activeJobs" && k != "totalJobs" ==> r[k] == o[k]
  {
    var withActive := o["activeJobs" := Finite(CountPendingRaw(persisted))];
    var total := if "totalJobs" in withActive then Some(withActive["totalJobs"]) else None;
    withActive["totalJobs" := MathMax(total, |persisted|)]
  }

  /** The raw data a refresh goes on with, or None when it throws. */
  function Gather(logsReply: Reply<LogsBody>, statsReply: Reply<StatsBody>, persisted: seq<JsObject>)
    : Option<Fetched>
  {
    if logsReply.Rejected? || statsReply.Rejected? then None
    else if !logsReply.ok || !statsReply.ok then
      Some(Fetched(Some(persisted + MockLogs), Some(MockOverview(persisted))))
    else if logsReply.body.None? || statsReply.body.None? then None
    else
      var logs := logsReply.body.value.importLogs;
      var overview := statsReply.body.value.overview;
      if NeedsMerge(logs, persisted) then
        Some(Fetched(Some(persisted),
                     if overview.Some? then Some(RecountOverview(overview.value, persisted)) else None))
      else Some(Fetched(logs, overview))
  }

  // --------------------------------------------------------- stats override

  /** Both stored keys are present (and the timestamp text is not empty). */
  predicate BothStored(store: Store) {
    store.currentStats.Some? && store.currentStatsTimestamp.Some?
    && store.currentStatsTimestamp.value != ""
  }

  /** `Date.now() - parseInt(stamp) < 30000`; NaN compares false. */
  predicate StoredIsRecent(stamp: string, now: nat) {
    var t := ParseInt(stamp);
    t.Some? && now - t.value < StatsMaxAgeMillis
  }

  /** The three conditions under which the stored stats win. */
  predicate PreferStored(stored: Stats, stamp: string, logs: seq<ImportLog>, backend: Stats, now: nat) {
    && StoredIsRecent(stamp, now)
    && stored.pendingJobs >= CountPending(logs)
    && stored.pendingJobs > backend.pendingJobs
  }

  /** One refresh (`fetchData`), from the storage it starts with, the two
      replies, the clock and the ISO text of the clock. */
  function Reconcile(store: Store, logsReply: Reply<LogsBody>, statsReply: Reply<StatsBody>,
                     now: nat, nowIso: string): (r: Refresh)
    ensures r.Loaded? ==> r.store.importLogs == store.importLogs
    ensures r.Loaded? ==>
      r.store == store || r.store == store.(currentStats := None, currentStatsTimestamp := None)
  {
    match Gather(logsReply, statsReply, PersistedLogs(store))
    case None => LoadFailed
    case Some(fetched) =>
      var logs := TransformLogs(fetched.rawLogs, nowIso);
      var backend := TransformStats(fetched.overview);
      if BothStored(store) then
        if PreferStored(store.currentStats.value, store.currentStatsTimestamp.value, logs, backend, now)
        then Loaded(logs, store.currentStats.value, store)
        else Loaded(logs, backend, store.Without(CurrentStatsKey).Without(CurrentStatsTimestampKey))
      else Loaded(logs, backend, store)
  }

  // ------------------------------------------------------- refresh lemmas

  /** A refresh fails exactly when a fetch throws or, with both responses
      ok, a body does not parse; a non-ok response is not a failure. */
  lemma ReconcileFailsOnlyOnThrow(store: Store, logsReply: Reply<LogsBody>, statsReply: Reply<StatsBody>,
                                  now: nat, nowIso: string)
    ensures Reconcile(store, logsReply, statsReply, now, nowIso).LoadFailed?
      <==> || logsReply.Rejected? || statsReply.Rejected?
           || (logsReply.ok && statsReply.ok && (logsReply.body.None? || statsReply.body.None?))
  {
  }

  /** With a non-ok response (and no fetch that threw) the refresh shows
      the normalised persisted logs followed by the two built-in entries, and
      the fresh stats are the built-in ones with a pending count of 0,
      because the recount of pending logs is written to `activeJobs`. */
  lemma BackendFailureFallback(store: Store, logsReply: Reply<LogsBody>, statsReply: Reply<StatsBody>,
                               now: nat, nowIso: string)
    requires logsReply.Reply? && statsReply.Reply?
    requires !logsReply.ok || !statsReply.ok
    ensures var persisted := PersistedLogs(store);
      var fetched := Gather(logsReply, statsReply, persisted);
      && fetched == Some(Fetched(Some(persisted + MockLogs), Some(MockOverview(persisted))))
      && TransformStats(fetched.value.overview) == Stats(1250, 0, 1180, 25)
      && Reconcile(store, logsReply, statsReply, now, nowIso).Loaded?
      && Reconcile(store, logsReply, statsReply, now, nowIso).logs
           == NormaliseAll(persisted + MockLogs, nowIso)
  {
  }

  /** The fallback list: the persisted logs in order, then the entry with
      id 1 (completed), then the entry with id 2 (pending); one more pending
      entry than the persisted logs hold. */
  lemma FallbackLogsLayout(persisted: seq<JsObject>, nowIso: string)
    ensures var logs := NormaliseAll(persisted + MockLogs, nowIso);
      var n := |persisted|;
      && |logs| == n + 2
      && (forall i :: 0 <= i < n ==> logs[i] == Normalise(persisted[i], nowIso))
      && logs[n].id == Num(1) && logs[n].status == Str("completed")
      && logs[n + 1].id == Num(2) && logs[n + 1].status == Str("pending")
      && CountPending(logs) == CountPendingRaw(persisted) + 1
  {
    FallbackEntries(persisted, nowIso);
    var n := |persisted|;
    var logs := NormaliseAll(persisted + MockLogs, nowIso);
    MockIndeedNormalised(nowIso);
    MockLinkedInNormalised(nowIso);
    FallbackPendingCount(persisted, nowIso);
  }

  /** The fallback list, entry by entry, before the built-in entries are read. */
  lemma FallbackEntries(persisted: seq<JsObject>, nowIso: string)
    ensures var logs := NormaliseAll(persisted + MockLogs, nowIso);
      var n := |persisted|;
      && |logs| == n + 2
      && (forall i :: 0 <= i < n ==> logs[i] == Normalise(persisted[i], nowIso))
      && logs[n] == Normalise(MockIndeed, nowIso)
      && logs[n + 1] == Normalise(MockLinkedIn, nowIso)
  {
    var n := |persisted|;
    var all := persisted + MockLogs;
    assert all[n] == MockIndeed && all[n + 1] == MockLinkedIn;
    assert forall i :: 0 <= i < n ==> all[i] == persisted[i];
  }

  /** The fallback list holds one more pending entry than the persisted logs. */
  lemma FallbackPendingCount(persisted: seq<JsObject>, nowIso: string)
    ensures CountPending(NormaliseAll(persisted + MockLogs, nowIso)) == CountPendingRaw(persisted) + 1
  {
    MockLogsNormalised(nowIso);
    CountPendingNormalised(persisted + MockLogs, nowIso);
    CountPendingRawAppend(persisted, MockLogs);
  }

  /** With ok responses, a missing or empty backend list and some persisted
      logs, the raw list is the persisted list; the fresh total is the
      larger of the backend total and the persisted count (0 when the
      backend total is absent, since `Math.max(undefined, n)` is NaN), and
      the fresh pending count is still the backend's own, because the
      recount is written to `activeJobs`. */
  lemma EmptyListMerge(store: Store, logsReply: Reply<LogsBody>, statsReply: Reply<StatsBody>,
                       now: nat, nowIso: string)
    requires logsReply.Reply? && statsReply.Reply? && logsReply.ok && statsReply.ok
    requires logsReply.body.Some? && statsReply.body.Some?
    requires NeedsMerge(logsReply.body.value.importLogs, PersistedLogs(store))
    ensures var fetched := Gather(logsReply, statsReply, PersistedLogs(store));
      var persisted := PersistedLogs(store);
      var o := statsReply.body.value.overview;
      var backend := TransformStats(fetched.value.overview);
      && fetched.Some? && fetched.value.rawLogs == Some(persisted)
      && Reconcile(store, logsReply, statsReply, now, nowIso).logs == NormaliseAll(persisted, nowIso)
      && (o.Some? && "totalJobs" in o.value && o.value["totalJobs"].Finite? ==>
            backend.totalJobs == (if o.value["totalJobs"].value >= |persisted|
                                then o.value["totalJobs"].value else |persisted|))
      && (o.Some? && "totalJobs" !in o.value ==> backend.totalJobs == 0)
      && backend.pendingJobs == StatField(o, "pendingJobs")
  {
  }

  /** A non-empty backend list is shown as it came, whatever is persisted. */
  lemma BackendListWins(store: Store, logsReply: Reply<LogsBody>, statsReply: Reply<StatsBody>,
                        now: nat, nowIso: string)
    requires logsReply.Reply? && statsReply.Reply? && logsReply.ok && statsReply.ok
    requires logsReply.body.Some? && statsReply.body.Some?
    requires logsReply.body.value.importLogs.Some? && |logsReply.body.value.importLogs.value| > 0
    ensures var r := Reconcile(store, logsReply, statsReply, now, nowIso);
      r.Loaded? && r.logs == NormaliseAll(logsReply.body.value.importLogs.value, nowIso)
  {
  }

  /** The stored stats are shown exactly when both keys are stored, the
      timestamp is under 30 s old, the stored pending count covers the
      visible pending logs and exceeds the fresh pending count; then the keys
      stay. When both keys are stored and the stats lose, both keys are
      removed. The persisted log list is never touched by a refresh. */
  lemma StoredStatsOverride(store: Store, logsReply: Reply<LogsBody>, statsReply: Reply<StatsBody>,
                            now: nat, nowIso: string)
    requires Gather(logsReply, statsReply, PersistedLogs(store)).Some?
    ensures var fetched := Gather(logsReply, statsReply, PersistedLogs(store)).value;
      var r := Reconcile(store, logsReply, statsReply, now, nowIso);
      var logs := TransformLogs(fetched.rawLogs, nowIso);
      var backend := TransformStats(fetched.overview);
      var shown := BothStored(store)
        && PreferStored(store.currentStats.value, store.currentStatsTimestamp.value, logs, backend, now);
      && r.Loaded? && r.logs == logs
      && r.store.importLogs == store.importLogs
      && (shown ==> r.stats == store.currentStats.value && r.store == store)
      && (!shown ==> r.stats == backend)
      && (BothStored(store) && !shown ==>
            r.store.currentStats.None? && r.store.currentStatsTimestamp.None?)
      && (!BothStored(store) ==> r.store == store)
      && (r.store.currentStats.Some? <==> store.currentStats.Some? && (shown || !BothStored(store)))
  {
  }

  /** Stats written at instant `t` (as `Date.now().toString()`) win over a
      fresh fetch within 30 s whenever they dominate the pending counts. */
  lemma RecentOptimisticStatsWin(store: Store, logs: seq<ImportLog>, backend: Stats, t: nat, now: nat)
    requires store.currentStats.Some? && store.currentStatsTimestamp == Some(DecimalText(t))
    requires now - t < StatsMaxAgeMillis
    requires store.currentStats.value.pendingJobs >= CountPending(logs)
    requires store.currentStats.value.pendingJobs > backend.pendingJobs
    ensures BothStored(store)
    ensures PreferStored(store.currentStats.value, store.currentStatsTimestamp.value, logs, backend, now)
  {
    ParseIntDecimalText(t);
  }

  /** Stats written at instant `t` lose once 30 s have passed, whatever
      their counts, so a refresh then deletes both keys. */
  lemma StaleStatsNeverWin(store: Store, logs: seq<ImportLog>, backend: Stats, t: nat, now: nat)
    requires store.currentStats.Some? && store.currentStatsTimestamp == Some(DecimalText(t))
    requires now - t >= StatsMaxAgeMillis
    ensures BothStored(store)
    ensures !PreferStored(store.currentStats.value, store.currentStatsTimestamp.value, logs, backend, now)
  {
    ParseIntDecimalText(t);
  }

  /** A refresh that starts from empty storage shows fresh data and leaves
      the storage empty. */
  lemma RefreshAfterClear(logsReply: Reply<LogsBody>, statsReply: Reply<StatsBody>, now: nat, nowIso: string)
    ensures var r := Reconcile(EmptyStore, logsReply, statsReply, now, nowIso);
      r.Loaded? ==> (r.store == EmptyStore
        && r.stats == TransformStats(Gather(logsReply, statsReply, []).value.overview))
  {
  }

  // ------------------------------------------------------------- submission

  /** The three fields of the new-import form. */
  datatype Form = Form(apiName: string, apiUrl: string, format: string)

  const EmptyForm: Form := Form("", "", "")

  /** What the browser lets through to the submit handler: every field is
      `required`, and the type is chosen among "json" and "xml". */
  predicate FormAccepted(form: Form) {
    form.apiName != "" && form.apiUrl != "" && (form.format == "json" || form.format == "xml")
  }

  /** `result.data?.jobId || result.jobId || result.id || 'Unknown'`. */
  function JobIdOf(result: JsObject): Js {
    FirstTruthy([Member(Field(result, "data"), "jobId"), Field(result, "jobId"), Field(result, "id")],
                Str("Unknown"))
  }

  /** `result.data?.importLogId || Date.now()`. */
  function NewLogId(result: JsObject, now: nat): Js {
    Or(Member(Field(result, "data"), "importLogId"), Num(now))
  }

  /** The job id in the alert is the first truthy of the three places the
      backend may put it, and `"Unknown"` only when all three are falsy; it
      is never empty. */
  lemma JobIdTakesFirstTruthy(result: JsObject)
    ensures IsFirstTruthy([Member(Field(result, "data"), "jobId"), Field(result, "jobId"), Field(result, "id")],
                          Str("Unknown"), JobIdOf(result))
    ensures Truthy(JobIdOf(result))
  {
    var candidates := [Member(Field(result, "data"), "jobId"), Field(result, "jobId"), Field(result, "id")];
    FirstTruthyIsFirst(candidates, Str("Unknown"));
    FirstTruthyWithTruthyFallback(candidates, Str("Unknown"));
  }

  /** Once the clock is past the epoch the new log's id is truthy, so the
      `_id || id` chain of a later refresh keeps it. */
  lemma NewLogIdTruthy(result: JsObject, now: nat)
    requires now > 0
    ensures Truthy(NewLogId(result, now))
    ensures NewLogId(result, now) == Num(now) || NewLogId(result, now) == Member(Field(result, "data"), "importLogId")
  {
  }

  /** The record a submission persists. */
  function PersistedEntry(id: Js, form: Form, nowIso: string): JsObject {
    map["id" := id, "apiName" := Str(form.apiName), "apiUrl" := Str(form.apiUrl),
        "type" := Str(form.format), "status" := Str("pending"),
        "stats" := Obj(map["newJobs" := Num(0)]), "createdAt" := Str(nowIso)]
  }

  /** The record a submission shows at once. */
  function VisibleEntry(id: Js, form: Form, nowIso: string): ImportLog {
    ImportLog(id, Str(form.apiName), Str(form.apiUrl), Str(form.format), Str("pending"), Num(0), Str(nowIso))
  }

  /** `existing.unshift(entry); existing.slice(0, 10)`: the new entry first,
      then the first nine or fewer earlier entries in their order. */
  function CappedPrepend(entry: JsObject, existing: seq<JsObject>): (r: seq<JsObject>)
    ensures |r| <= PersistedLogsCap
    ensures |r| == if |existing| < PersistedLogsCap then |existing| + 1 else PersistedLogsCap
    ensures r[0] == entry
    ensures r[1..] == existing[..|r| - 1]
  {
    var all := [entry] + existing;
    all[..if |all| < PersistedLogsCap then |all| else PersistedLogsCap]
  }

  /** The stats after a submission: pending and total up by one from the
      previous stats, or `{1, 1, 0, 0}` when there were none. */
  function BumpStats(prev: Option<Stats>): Stats
  {
    match prev
    case Some(s) => Stats(s.totalJobs + 1, s.pendingJobs + 1, s.completedJobs, s.failedJobs)
    case None => Stats(1, 1, 0, 0)
  }

  /** A persisted submission, read back by a later refresh, normalises to
      exactly the entry the submission showed. */
  lemma PersistedEntryNormalisesToVisible(id: Js, form: Form, nowIso: string, laterIso: string)
    requires FormAccepted(form) && nowIso != ""
    ensures Normalise(PersistedEntry(id, form, nowIso), laterIso) == VisibleEntry(id, form, nowIso)
  {
    var r := PersistedEntry(id, form, nowIso);
    var log := Normalise(r, laterIso);
    NormaliseAsOrChains(r, laterIso);
    assert Field(r, "_id") == Undefined && Field(r, "id") == id;
    assert log.id == id;
    assert Field(r, "fileName") == Undefined && Field(r, "apiName") == Str(form.apiName);
    assert log.apiName == Str(form.apiName);
    assert Member(Source(r), "url") == Undefined && Field(r, "apiUrl") == Str(form.apiUrl);
    assert log.apiUrl == Str(form.apiUrl);
    assert Member(Source(r), "type") == Undefined && Field(r, "type") == Str(form.format);
    assert log.format == Str(form.format);
    assert Field(r, "status") == Str("pending");
    assert log.status == Str("pending");
    assert Member(RawStats(r), "newJobs") == Num(0);
    assert Member(RawStats(r), "jobsProcessed") == Undefined && Field(r, "jobsProcessed") == Undefined;
    assert log.jobsFound == Num(0);
    assert Field(r, "importTime") == Undefined && Field(r, "createdAt") == Str(nowIso);
    assert log.createdAt == Str(nowIso);
  }

  /** After a submission, a refresh that finds the backend down, or
      reporting no logs, shows the submitted entry first, exactly as the
      submission showed it. */
  lemma SubmittedEntryShownFirst(store: Store, id: Js, form: Form, nowIso: string,
                                 logsReply: Reply<LogsBody>, statsReply: Reply<StatsBody>,
                                 now: nat, laterIso: string)
    requires FormAccepted(form) && nowIso != ""
    requires logsReply.Reply? && statsReply.Reply?
    requires logsReply.ok && statsReply.ok ==>
      && logsReply.body.Some? && statsReply.body.Some?
      && (logsReply.body.value.importLogs.None? || |logsReply.body.value.importLogs.value| == 0)
    ensures var after := store.(importLogs := Some(CappedPrepend(PersistedEntry(id, form, nowIso),
                                                               PersistedLogs(store))));
      var r := Reconcile(after, logsReply, statsReply, now, laterIso);
      r.Loaded? && |r.logs| > 0 && r.logs[0] == VisibleEntry(id, form, nowIso)
  {
    var after := store.(importLogs := Some(CappedPrepend(PersistedEntry(id, form, nowIso),
                                                       PersistedLogs(store))));
    var persisted := PersistedLogs(after);
    PersistedEntryNormalisesToVisible(id, form, nowIso, laterIso);
    if !logsReply.ok || !statsReply.ok {
      BackendFailureFallback(after, logsReply, statsReply, now, laterIso);
      assert (persisted + MockLogs)[0] == persisted[0];
    } else {
      EmptyListMerge(after, logsReply, statsReply, now, laterIso);
    }
  }

  /** The optimistic stats of a submission keep dominating the visible
      pending logs, which is one of the conditions for a later refresh to
      keep them: the new entry is pending and adds one to both sides. */
  lemma SubmissionKeepsDominance(prev: Option<Stats>, logs: seq<ImportLog>, id: Js, form: Form, nowIso: string)
    requires prev.Some? ==> prev.value.pendingJobs >= CountPending(logs)
    requires prev.None? ==> CountPending(logs) == 0
    ensures BumpStats(prev).pendingJobs >= CountPending([VisibleEntry(id, form, nowIso)] + logs)
  {
    assert ([VisibleEntry(id, form, nowIso)] + logs)[1..] == logs;
  }

  /** Any number of submissions keep the persisted list within the cap,
      newest first; the list grows by one per submission until it reaches
      the cap, and then stays there. */
  lemma {:induction false} RepeatedSubmissionsStayCapped(entries: seq<JsObject>, existing: seq<JsObject>)
    requires |existing| <= PersistedLogsCap
    ensures |SubmitAll(entries, existing)| <= PersistedLogsCap
    ensures |SubmitAll(entries, existing)| ==
      if |entries| + |existing| < PersistedLogsCap then |entries| + |existing| else PersistedLogsCap
    ensures |entries| > 0 ==> SubmitAll(entries, existing)[0] == entries[|entries| - 1]
  {
    if |entries| > 0 {
      RepeatedSubmissionsStayCapped(entries[..|entries| - 1], existing);
    }
  }

  /** The persisted list after submitting `entries` in order. */
  function SubmitAll(entries: seq<JsObject>, existing: seq<JsObject>): seq<JsObject> {
    if |entries| == 0 then existing
    else CappedPrepend(entries[|entries| - 1], SubmitAll(entries[..|entries| - 1], existing))
  }
}
