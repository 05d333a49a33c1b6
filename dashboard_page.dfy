/**
 * The dashboard component of app/page.tsx as an object: its React state
 * (visible logs, stats, loading flag, error banner, form fields) are fields,
 * and `fetchData`, `handleNewImport` and `clearLocalData` are methods that
 * update them and the injected browser storage step by step. Each method's
 * postcondition ties the new state to the functions of DashboardData, where
 * the properties are proved.
 */
module DashboardPage {
  import opened JsValues
  import opened NumberText
  import opened DashboardData

  /** Browser storage, injected into the dashboard. Only the three keys the
      dashboard uses are represented. */
  class LocalStorage {
    var items: Store

    constructor(items: Store)
      ensures this.items == items
    {
      this.items := items;
    }

    method RemoveItem(key: Key)
      modifies this
      ensures items == old(items).Without(key)
    {
      items := items.Without(key);
    }

    method SetImportLogs(logs: seq<JsObject>)
      modifies this
      ensures items == old(items).(importLogs := Some(logs))
    {
      items := items.(importLogs := Some(logs));
    }

    method SetCurrentStats(stats: Stats)
      modifies this
      ensures items == old(items).(currentStats := Some(stats))
    {
      items := items.(currentStats := Some(stats));
    }

    method SetCurrentStatsTimestamp(text: string)
      modifies this
      ensures items == old(items).(currentStatsTimestamp := Some(text))
    {
      items := items.(currentStatsTimestamp := Some(text));
    }
  }

  /** The notification shown after a submission: the job id (or "Unknown"),
      the fixed failure text for a non-ok response, or the host's error
      text for a fetch or parse error. */
  datatype Alert = ImportStarted(jobId: Js) | TriggerFailed | RequestFailed

  /** The part of `fetchData` that reads the two responses, step by step as
      the component does it, updating the parsed overview in place: the
      fallback list and overview when either response is not ok, otherwise
      the parsed bodies, with the persisted logs merged in when the backend
      list is missing or empty. None when a fetch threw or a body did not
      parse. Its postcondition equates it with `Gather`, the same step as a
      value, which the refresh lemmas of DashboardData are about. */
  method ReadReplies(logsReply: Reply<LogsBody>, statsReply: Reply<StatsBody>, existing: seq<JsObject>)
    returns (fetched: Option<Fetched>)
    ensures fetched == Gather(logsReply, statsReply, existing)
  {
    if logsReply.Rejected? || statsReply.Rejected? {
      return None;
    }
    var rawLogs: Option<seq<JsObject>>;
    var overview: Option<Overview>;
    if !logsReply.ok || !statsReply.ok {
      rawLogs := Some(existing + MockLogs);
      overview := Some(MockOverview(existing));
    } else {
      if logsReply.body.None? || statsReply.body.None? {
        return None;
      }
      rawLogs := logsReply.body.value.importLogs;
      overview := statsReply.body.value.overview;
      if (rawLogs.None? || |rawLogs.value| == 0) && |existing| > 0 {
        rawLogs := Some(existing);
        if overview.Some? {
          var pendingCount := CountPendingRaw(existing);
          var o := overview.value["activeJobs" := Finite(pendingCount)];
          var total := if "totalJobs" in o then Some(o["totalJobs"]) else None;
          overview := Some(o["totalJobs" := MathMax(total, |existing|)]);
        }
      }
    }
    fetched := Some(Fetched(rawLogs, overview));
  }

  class SimpleDashboard {
    const storage: LocalStorage
    var importLogs: seq<ImportLog>
    var stats: Option<Stats>
    var isLoading: bool
    var error: Option<string>
    var form: Form
    /** How many refreshes have run, for stating that an action triggers one. */
    ghost var refreshes: nat

    /** The persisted list is within its cap. */
    predicate CacheBounded()
      reads this, storage
    {
      |PersistedLogs(storage.items)| <= PersistedLogsCap
    }

    /** The component as first rendered. The host then runs one refresh
        on mount (`useEffect(() => fetchData(), [])`), that is, it calls
        `FetchData` once after construction. */
    constructor(storage: LocalStorage)
      ensures this.storage == storage
      ensures importLogs == [] && stats == None && !isLoading && error == None
      ensures form == EmptyForm && refreshes == 0
    {
      this.storage := storage;
      importLogs := [];
      stats := None;
      isLoading := false;
      error := None;
      form := EmptyForm;
      refreshes := 0;
    }

    /** `fetchData`: one refresh of logs and stats. */
    method FetchData(logsReply: Reply<LogsBody>, statsReply: Reply<StatsBody>, now: nat, nowIso: string)
      modifies this, storage
      ensures refreshes == old(refreshes) + 1 && !isLoading && form == old(form)
      ensures match Reconcile(old(storage.items), logsReply, statsReply, now, nowIso)
        case LoadFailed =>
          && error == Some(LoadErrorMessage)
          && importLogs == old(importLogs) && stats == old(stats)
          && storage.items == old(storage.items)
        case Loaded(logs, shown, store) =>
          && error == None
          && importLogs == logs && stats == Some(shown)
          && storage.items == store
      ensures old(CacheBounded()) ==> CacheBounded()
    {
      isLoading := true;
      error := None;
      refreshes := refreshes + 1;

      var fetched := ReadReplies(logsReply, statsReply, PersistedLogs(storage.items));
      if fetched.None? {
        error := Some(LoadErrorMessage);
        isLoading := false;
        return;
      }

      var logs := TransformLogs(fetched.value.rawLogs, nowIso);
      var backendStats := TransformStats(fetched.value.overview);
      ShowRefresh(logs, backendStats, now);
    }

    /** The end of `fetchData`: choose between the stored stats and the
        backend's, clearing the stored ones when they lose, and show the result. */
    method ShowRefresh(logs: seq<ImportLog>, backendStats: Stats, now: nat)
      modifies this, storage
      ensures refreshes == old(refreshes) && !isLoading && form == old(form) && error == old(error)
      ensures importLogs == logs
      ensures var store := old(storage.items);
        if BothStored(store) then
          (if PreferStored(store.currentStats.value, store.currentStatsTimestamp.value, logs, backendStats, now)
           then stats == store.currentStats && storage.items == store
           else (stats == Some(backendStats)
                 && storage.items == store.Without(CurrentStatsKey).Without(CurrentStatsTimestampKey)))
        else stats == Some(backendStats) && storage.items == store
    {
      var storedStats := storage.items.currentStats;
      var storedStamp := storage.items.currentStatsTimestamp;
      if storedStats.Some? && storedStamp.Some? && storedStamp.value != "" {
        var parsed := ParseInt(storedStamp.value);
        var recent := parsed.Some? && now - parsed.value < StatsMaxAgeMillis;
        var currentPendingLogs := CountPending(logs);
        if recent && storedStats.value.pendingJobs >= currentPendingLogs
           && storedStats.value.pendingJobs > backendStats.pendingJobs {
          importLogs := logs;
          stats := storedStats;
          isLoading := false;
          return;
        } else {
          storage.RemoveItem(CurrentStatsKey);
          storage.RemoveItem(CurrentStatsTimestampKey);
        }
      }

      importLogs := logs;
      stats := Some(backendStats);
      isLoading := false;
    }

    /** `handleNewImport`: submit the form. On success the new entry is
        persisted (capped) and shown, the stats are bumped and persisted with
        the current time, the form is reset, and three refreshes are
        scheduled after the returned delays. */
    method HandleNewImport(reply: Reply<JsObject>, now: nat, nowIso: string)
      returns (alert: Alert, scheduled: seq<nat>)
      modifies this, storage
      ensures !isLoading && error == old(error) && refreshes == old(refreshes)
      ensures reply.Rejected? || (reply.ok && reply.body.None?) ==> alert == RequestFailed
      ensures reply.Reply? && !reply.ok ==> alert == TriggerFailed
      ensures !(reply.Reply? && reply.ok && reply.body.Some?) ==>
        && scheduled == []
        && importLogs == old(importLogs) && stats == old(stats) && form == old(form)
        && storage.items == old(storage.items)
      ensures reply.Reply? && reply.ok && reply.body.Some? ==>
        var result := reply.body.value;
        var id := NewLogId(result, now);
        && alert == ImportStarted(JobIdOf(result))
        && scheduled == RecheckDelays
        && form == EmptyForm
        && importLogs == [VisibleEntry(id, old(form), nowIso)] + old(importLogs)
        && stats == Some(BumpStats(old(stats)))
        && storage.items == old(storage.items).(
             importLogs := Some(CappedPrepend(PersistedEntry(id, old(form), nowIso),
                                              PersistedLogs(old(storage.items)))),
             currentStats := Some(BumpStats(old(stats))),
             currentStatsTimestamp := Some(DecimalText(now)))
      ensures old(CacheBounded()) ==> CacheBounded()
    {
      isLoading := true;
      scheduled := [];
      if reply.Rejected? {
        alert := RequestFailed;
        isLoading := false;
        return;
      }
      if !reply.ok {
        alert := TriggerFailed;
        isLoading := false;
        return;
      }
      if reply.body.None? {
        alert := RequestFailed;
        isLoading := false;
        return;
      }
      var result := reply.body.value;
      var jobId := JobIdOf(result);

      var submitted := form;
      var id := NewLogId(result, now);
      var newImportLog := PersistedEntry(id, submitted, nowIso);
      var existing := PersistedLogs(storage.items);
      storage.SetImportLogs(CappedPrepend(newImportLog, existing));

      alert := ImportStarted(jobId);
      form := EmptyForm;

      importLogs := [VisibleEntry(id, submitted, nowIso)] + importLogs;

      var updatedStats := BumpStats(stats);
      storage.SetCurrentStats(updatedStats);
      storage.SetCurrentStatsTimestamp(DecimalText(now));
      stats := Some(updatedStats);

      scheduled := RecheckDelays;
      isLoading := false;
    }

    /** `clearLocalData`: delete the three keys, then refresh once. */
    method ClearLocalData(logsReply: Reply<LogsBody>, statsReply: Reply<StatsBody>, now: nat, nowIso: string)
      modifies this, storage
      ensures storage.items == EmptyStore
      ensures refreshes == old(refreshes) + 1 && !isLoading && form == old(form)
      ensures match Reconcile(EmptyStore, logsReply, statsReply, now, nowIso)
        case LoadFailed =>
          error == Some(LoadErrorMessage) && importLogs == old(importLogs) && stats == old(stats)
        case Loaded(logs, shown, _) =>
          error == None && importLogs == logs && stats == Some(shown)
    {
      storage.RemoveItem(ImportLogsKey);
      storage.RemoveItem(CurrentStatsKey);
      storage.RemoveItem(CurrentStatsTimestampKey);
      assert storage.items == EmptyStore;
      RefreshAfterClear(logsReply, statsReply, now, nowIso);
      FetchData(logsReply, statsReply, now, nowIso);
    }
  }
}
