/** Monthly usage accounting (src/usage/usage-tracker.ts). The record the tracker keeps in a
    file is a field here; the current month, the current time stamp and the next reset date,
    which the source reads from the clock, are parameters. */
module UsageTracker {
  import opened Wrappers
  import opened Types

  datatype Plan = Free | Pro | Team | Enterprise

  datatype ValidationEvent = ValidationEvent(
    timestamp: string,
    filesCount: int,
    aiDetected: bool,
    issuesFound: int,
    timeMs: real)

  /** The persisted record. */
  datatype UsageData = UsageData(
    plan: Plan,
    currentMonth: string,
    validationsThisMonth: int,
    lastReset: string,
    events: seq<ValidationEvent>,
    licenseKey: Option<string>)

  datatype UsageInfo = UsageInfo(current: int, limit: int, resetDate: string, plan: Plan)

  datatype Stats = Stats(totalValidations: nat, aiDetections: nat, averageFiles: int, averageTime: int)

  /** The most events the record keeps. */
  const MaxEvents: nat := 100

  /** `defaultLimits`: ten validations a month on the free plan, -1 (no limit) otherwise. */
  function Limit(plan: Plan): int
  {
    if plan == Free then 10 else -1
  }

  /** The record a new user starts with. */
  function DefaultData(month: string, now: string): UsageData
  {
    UsageData(Free, month, 0, now, [], None)
  }

  /** The record once brought to `month`: a new month clears the count and the events. */
  function InMonth(data: UsageData, month: string, now: string): (r: UsageData)
    ensures r.currentMonth == month && r.plan == data.plan && r.licenseKey == data.licenseKey
    ensures data.currentMonth == month ==> r == data
    ensures data.currentMonth != month ==> r.validationsThisMonth == 0 && r.events == []
  {
    if data.currentMonth != month then data.(currentMonth := month, validationsThisMonth := 0, lastReset := now, events := [])
    else data
  }

  /** The last `MaxEvents` events (`events.slice(-100)` once there are more). */
  function Recent(events: seq<ValidationEvent>): (r: seq<ValidationEvent>)
    ensures |r| <= MaxEvents
    ensures |events| <= MaxEvents ==> r == events
    ensures |events| > MaxEvents ==> |r| == MaxEvents
    ensures r == events[|events| - |r|..]
  {
    if |events| > MaxEvents then events[|events| - MaxEvents..] else events
  }

  /** The record after `trackValidation`. */
  function Tracked(data: UsageData, month: string, event: ValidationEvent): UsageData
  {
    var current := InMonth(data, month, event.timestamp);
    current.(validationsThisMonth := current.validationsThisMonth + 1, events := Recent(current.events + [event]))
  }

  /** What `getUsage` reports for a record already in the current month: 999999 stands for no
      limit. */
  function UsageOf(data: UsageData, resetDate: string): UsageInfo
  {
    var limit := Limit(data.plan);
    UsageInfo(data.validationsThisMonth, if limit == -1 then 999999 else limit, resetDate, data.plan)
  }

  /** `canValidate` on a usage report. */
  predicate MayValidate(usage: UsageInfo)
  {
    usage.plan != Free || usage.current < usage.limit
  }

  /** The record after `updatePlan`: an empty key is ignored, like a missing one. */
  function WithPlan(data: UsageData, plan: Plan, licenseKey: Option<string>): UsageData
  {
    if licenseKey.Some? && licenseKey.value != "" then data.(plan := plan, licenseKey := licenseKey)
    else data.(plan := plan)
  }

  /** A record the tracker can reach: at most `MaxEvents` events, and no more events than
      validations this month. */
  predicate Consistent(data: UsageData)
  {
    |data.events| <= MaxEvents && |data.events| <= data.validationsThisMonth
  }

  /** In the same month a validation adds exactly one to the count; in a new month the count
      becomes 1 and the new event is the only one. Either way the new event is the last, at
      most `MaxEvents` of the most recent events are kept, and the plan and key stay. */
  lemma TrackedSpec(data: UsageData, month: string, event: ValidationEvent)
    ensures var r := Tracked(data, month, event);
      r.currentMonth == month && r.plan == data.plan && r.licenseKey == data.licenseKey &&
      |r.events| <= MaxEvents && r.events != [] && r.events[|r.events| - 1] == event &&
      (data.currentMonth == month ==>
         r.validationsThisMonth == data.validationsThisMonth + 1 && r.events == Recent(data.events + [event])) &&
      (data.currentMonth != month ==> r.validationsThisMonth == 1 && r.events == [event])
  {
    var current := InMonth(data, month, event.timestamp);
    var all := current.events + [event];
    assert Recent(all)[|Recent(all)| - 1] == all[|all| - 1];
  }

  /** Tracking keeps a record consistent. */
  lemma TrackedConsistent(data: UsageData, month: string, event: ValidationEvent)
    requires Consistent(data)
    ensures Consistent(Tracked(data, month, event))
  {
    TrackedSpec(data, month, event);
  }

  /** Tracking a run of validations, one after another. */
  function TrackedAll(data: UsageData, month: string, events: seq<ValidationEvent>): UsageData
  {
    if events == [] then data else Tracked(TrackedAll(data, month, events[..|events| - 1]), month, events[|events| - 1])
  }

  /** `n` validations in the month of the record add `n` to its count; a free plan can then
      validate only while fewer than ten validations are counted. */
  lemma {:induction false} TrackedAllCount(data: UsageData, month: string, events: seq<ValidationEvent>, resetDate: string)
    requires data.currentMonth == month
    ensures TrackedAll(data, month, events).validationsThisMonth == data.validationsThisMonth + |events|
    ensures TrackedAll(data, month, events).currentMonth == month
    ensures TrackedAll(data, month, events).plan == data.plan
    ensures data.plan == Free ==>
      (MayValidate(UsageOf(TrackedAll(data, month, events), resetDate)) <==> data.validationsThisMonth + |events| < 10)
  {
    if events != [] {
      TrackedAllCount(data, month, events[..|events| - 1], resetDate);
      TrackedSpec(TrackedAll(data, month, events[..|events| - 1]), month, events[|events| - 1]);
    }
  }

  /** Only the free plan has a limit, ten a month; every other plan may always validate. */
  lemma UsageOfSpec(data: UsageData, resetDate: string)
    ensures UsageOf(data, resetDate).limit == (if data.plan == Free then 10 else 999999)
    ensures UsageOf(data, resetDate).current == data.validationsThisMonth
    ensures MayValidate(UsageOf(data, resetDate)) <==> data.plan != Free || data.validationsThisMonth < 10
  {
  }

  /** `updatePlan` changes the plan, and the key only when a non-empty one is given. */
  lemma WithPlanSpec(data: UsageData, plan: Plan, licenseKey: Option<string>)
    ensures var r := WithPlan(data, plan, licenseKey);
      r.plan == plan && r.currentMonth == data.currentMonth && r.validationsThisMonth == data.validationsThisMonth &&
      r.lastReset == data.lastReset && r.events == data.events &&
      r.licenseKey == (if licenseKey.Some? && licenseKey.value != "" then licenseKey else data.licenseKey)
  {
  }

  function CountAIDetected(events: seq<ValidationEvent>): (r: nat)
    ensures r <= |events|
  {
    if events == [] then 0
    else CountAIDetected(events[..|events| - 1]) + (if events[|events| - 1].aiDetected then 1 else 0)
  }

  function TotalFiles(events: seq<ValidationEvent>): int
  {
    if events == [] then 0 else TotalFiles(events[..|events| - 1]) + events[|events| - 1].filesCount
  }

  function TotalTime(events: seq<ValidationEvent>): real
  {
    if events == [] then 0.0 else TotalTime(events[..|events| - 1]) + events[|events| - 1].timeMs
  }

  /** `getStats`: zeros without events; otherwise one validation per event, the AI detections
      among them, and the rounded averages. */
  function StatsOf(events: seq<ValidationEvent>): (r: Stats)
    ensures r.aiDetections <= r.totalValidations == |events|
    ensures events == [] ==> r == Stats(0, 0, 0, 0)
  {
    if events == [] then Stats(0, 0, 0, 0)
    else
      var n := |events| as real;
      Stats(|events|, CountAIDetected(events), Round(TotalFiles(events) as real / n), Round(TotalTime(events) / n))
  }

  /** The AI detections count every event exactly when all of them flagged AI, and none
      exactly when none did. */
  lemma {:induction false} CountAIDetectedAll(events: seq<ValidationEvent>)
    ensures CountAIDetected(events) == |events| <==> forall k :: 0 <= k < |events| ==> events[k].aiDetected
    ensures CountAIDetected(events) == 0 <==> forall k :: 0 <= k < |events| ==> !events[k].aiDetected
  {
    if events != [] {
      var init := events[..|events| - 1];
      CountAIDetectedAll(init);
      assert forall k :: 0 <= k < |init| ==> init[k] == events[k];
    }
  }

  /** `UsageTracker`, holding the record it would otherwise read from and write to its file. */
  class Tracker {
    var data: UsageData

    /** A tracker without a saved record starts from the default one. */
    constructor(month: string, now: string)
      ensures data == DefaultData(month, now)
    {
      data := DefaultData(month, now);
    }

    /** `getUsage` in `month`, with the next reset date. */
    method GetUsage(month: string, now: string, resetDate: string) returns (usage: UsageInfo)
      modifies this
      ensures data == InMonth(old(data), month, now)
      ensures usage == UsageOf(data, resetDate)
    {
      if data.currentMonth != month {
        data := data.(currentMonth := month, validationsThisMonth := 0, lastReset := now, events := []);
      }
      var limit := Limit(data.plan);
      usage := UsageInfo(data.validationsThisMonth, if limit == -1 then 999999 else limit, resetDate, data.plan);
    }

    /** `canValidate` in `month`. */
    method CanValidate(month: string, now: string, resetDate: string) returns (r: bool)
      modifies this
      ensures data == InMonth(old(data), month, now)
      ensures r <==> data.plan != Free || data.validationsThisMonth < 10
    {
      var usage := GetUsage(month, now, resetDate);
      UsageOfSpec(data, resetDate);
      if usage.plan != Free {
        return true;
      }
      return usage.current < usage.limit;
    }

    /** `trackValidation` in `month` at time `now`. */
    method TrackValidation(month: string, now: string, filesCount: int, aiDetected: bool, timeMs: real)
      modifies this
      ensures data == Tracked(old(data), month, ValidationEvent(now, filesCount, aiDetected, 0, timeMs))
    {
      if data.currentMonth != month {
        data := data.(currentMonth := month, validationsThisMonth := 0, lastReset := now, events := []);
      }
      ghost var current := data;
      data := data.(validationsThisMonth := data.validationsThisMonth + 1);
      var event := ValidationEvent(now, filesCount, aiDetected, 0, timeMs);
      var events := data.events + [event];
      if |events| > MaxEvents {
        events := events[|events| - MaxEvents..];
      }
      assert events == Recent(current.events + [event]);
      data := data.(events := events);
    }

    /** `updatePlan`. */
    method UpdatePlan(plan: Plan, licenseKey: Option<string>)
      modifies this
      ensures data == WithPlan(old(data), plan, licenseKey)
    {
      data := data.(plan := plan);
      if licenseKey.Some? && licenseKey.value != "" {
        data := data.(licenseKey := licenseKey);
      }
    }

    /** `getStats`. */
    method GetStats() returns (stats: Stats)
      ensures stats == StatsOf(data.events)
    {
      var events := data.events;
      if |events| == 0 {
        return Stats(0, 0, 0, 0);
      }
      var totalValidations := |events|;
      var aiDetections := CountAIDetected(events);
      var totalFiles := TotalFiles(events);
      var totalTime := TotalTime(events);
      stats := Stats(totalValidations, aiDetections, Round(totalFiles as real / totalValidations as real),
                     Round(totalTime / totalValidations as real));
    }
  }
}
