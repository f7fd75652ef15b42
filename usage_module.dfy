/** The native module `Usage` (`UsageModule`): the usage-access permission check, the
    usage-statistics query with its time window, interval and filter, and the icon
    lookup's result. The system services it calls are parameters: the app-op mode, the
    usage query (as a function of its interval and window), the labels the package
    manager knows and the encoded icon. */
module UsageQuery {
  import opened Wrappers
  import opened Platform
  import opened Bridge
  import opened Text
  import opened UsageStats

  const MS_PER_DAY := 1000 * 60 * 60 * 24
  /** `AppOpsManager.MODE_ALLOWED`. */
  const MODE_ALLOWED := 0
  const ICON_URI_PREFIX := "data:image/png;base64,"

  datatype Interval = IntervalDaily | IntervalWeekly | IntervalMonthly

  /** `hasUsagePermission`: the app op "android:get_usage_stats" is allowed; never below
      API 19. */
  function HasUsagePermission(sdk: int, mode: int): (granted: bool)
    ensures granted ==> sdk >= SDK_KITKAT
    ensures sdk >= SDK_KITKAT ==> (granted <==> mode == MODE_ALLOWED)
  {
    if sdk >= SDK_KITKAT then mode == MODE_ALLOWED else false
  }

  /** `requestUsagePermission`: opens the usage-access settings from API 21 on. */
  function RequestUsagePermission(sdk: int): (e: Option<Effect>)
    ensures e.Some? <==> sdk >= SDK_LOLLIPOP
    ensures e.Some? ==> e.value == OpenUsageAccessSettings
  {
    if sdk >= SDK_LOLLIPOP then Some(OpenUsageAccessSettings) else None
  }

  /** The `when` choosing the query's bucket size from the number of days. */
  function IntervalFor(days: int): Interval {
    if days <= 1 then IntervalDaily else if days <= 7 then IntervalWeekly else IntervalMonthly
  }

  function Rank(i: Interval): nat {
    match i
    case IntervalDaily => 0
    case IntervalWeekly => 1
    case IntervalMonthly => 2
  }

  /** A longer report never asks for a finer bucket, and the three day counts of the home
      screen each get their own bucket. */
  lemma IntervalGrowsWithDays(d1: int, d2: int)
    requires d1 <= d2
    ensures Rank(IntervalFor(d1)) <= Rank(IntervalFor(d2))
    ensures IntervalFor(1) == IntervalDaily && IntervalFor(7) == IntervalWeekly && IntervalFor(30) == IntervalMonthly
  {
  }

  datatype Window = Window(startTime: int, endTime: int)

  /** `[endTime - 1000L * 60 * 60 * 24 * durationDays, endTime]` with `endTime` the
      current time. Kotlin computes it on `Long`s; for any `Int` day count and a clock
      in the 64-bit range it does not overflow. */
  function QueryWindow(now: int, days: int): (w: Window)
    ensures w.endTime == now
    ensures w.endTime - w.startTime == days * MS_PER_DAY
    ensures days >= 0 ==> w.startTime <= w.endTime
  {
    Window(now - MS_PER_DAY * days, now)
  }

  /** One `UsageStats` record: times in milliseconds. */
  datatype SystemStat = SystemStat(packageName: string, totalTimeInForeground: int, lastTimeUsed: int)

  /** The entry `getUsageStats` pushes for a record: the label when the package manager
      has one and the package name when the lookup throws, the time in seconds. */
  function Entry(u: SystemStat, labels: map<string, string>): (e: Stat)
    ensures e.packageName == u.packageName
    ensures e.time == u.totalTimeInForeground as real / 1000.0
    ensures e.appName == if u.packageName in labels then labels[u.packageName] else u.packageName
  {
    Stat(if u.packageName in labels then labels[u.packageName] else u.packageName,
         u.packageName, u.totalTimeInForeground as real / 1000.0, u.lastTimeUsed as real)
  }

  /** The records with a positive foreground time, as entries, in query order. */
  function Emitted(list: seq<SystemStat>, labels: map<string, string>): (r: seq<Stat>)
    ensures |r| <= |list|
  {
    if list == [] then []
    else
      var rest := Emitted(list[1..], labels);
      if list[0].totalTimeInForeground > 0 then [Entry(list[0], labels)] + rest else rest
  }

  /** Exactly the records with a positive foreground time are emitted: each of them
      has its entry in the result, and every entry comes from one of them (so its time
      is positive). */
  lemma {:induction false} EmittedExactlyPositive(list: seq<SystemStat>, labels: map<string, string>)
    ensures var r := Emitted(list, labels);
      forall u :: u in list && u.totalTimeInForeground > 0 ==> Entry(u, labels) in r
    ensures var r := Emitted(list, labels);
      forall e :: e in r ==> exists u :: u in list && u.totalTimeInForeground > 0 && e == Entry(u, labels)
    ensures forall e :: e in Emitted(list, labels) ==> e.time > 0.0
  {
    if list != [] {
      var rest := Emitted(list[1..], labels);
      EmittedExactlyPositive(list[1..], labels);
      assert forall u :: u in list[1..] ==> u in list;
      assert forall u :: u in list ==> u == list[0] || u in list[1..];
    }
  }

  /** `getUsageStats(durationDays)` on API level `sdk` at time `now`. `query` stands for
      `queryUsageStats(interval, startTime, endTime)`, asked with the bucket and window
      the day count selects. Rejects with UNSUPPORTED below API 21 and with NO_DATA on a
      null or empty list. */
  method GetUsageStats(sdk: int, now: int, days: int, query: (Interval, int, int) -> Option<seq<SystemStat>>,
                       labels: map<string, string>) returns (r: Result<seq<Stat>, string>)
    ensures sdk < SDK_LOLLIPOP ==> r == Failure("UNSUPPORTED")
    ensures var w := QueryWindow(now, days); var queried := query(IntervalFor(days), w.startTime, w.endTime);
      sdk >= SDK_LOLLIPOP && (queried.None? || queried.value == []) ==> r == Failure("NO_DATA")
    ensures var w := QueryWindow(now, days); var queried := query(IntervalFor(days), w.startTime, w.endTime);
      sdk >= SDK_LOLLIPOP && queried.Some? && queried.value != [] ==> r == Success(Emitted(queried.value, labels))
  {
    if sdk < SDK_LOLLIPOP {
      return Failure("UNSUPPORTED");
    }
    var window := QueryWindow(now, days);
    var queried := query(IntervalFor(days), window.startTime, window.endTime);
    if queried.None? || queried.value == [] {
      return Failure("NO_DATA");
    }
    var list := queried.value;
    var resultArray: seq<Stat> := [];
    for i := 0 to |list|
      invariant resultArray + Emitted(list[i..], labels) == Emitted(list, labels)
    {
      ghost var before := resultArray;
      if list[i].totalTimeInForeground > 0 {
        resultArray := resultArray + [Entry(list[i], labels)];
      }
      EmittedStep(list, i, labels, before, resultArray);
    }
    assert list[|list|..] == [];
    assert resultArray == Emitted(list, labels);
    return Success(resultArray);
  }

  /** Emitting from position `i` is the entry for record `i` (if it counts) followed by
      what is emitted from `i + 1`, so appending that entry to what was emitted before
      `i` keeps the sum. */
  lemma EmittedStep(list: seq<SystemStat>, i: nat, labels: map<string, string>, before: seq<Stat>, after: seq<Stat>)
    requires i < |list|
    requires before + Emitted(list[i..], labels) == Emitted(list, labels)
    requires after == before + if list[i].totalTimeInForeground > 0 then [Entry(list[i], labels)] else []
    ensures after + Emitted(list[i + 1..], labels) == Emitted(list, labels)
  {
    var rest := Emitted(list[i + 1..], labels);
    assert list[i..][1..] == list[i + 1..];
    if list[i].totalTimeInForeground > 0 {
      var e := Entry(list[i], labels);
      assert Emitted(list[i..], labels) == [e] + rest;
      assert after + rest == before + ([e] + rest);
    } else {
      assert Emitted(list[i..], labels) == rest;
      assert after == before;
    }
  }

  /** `getAppIcon`: a PNG data URI when the icon could be loaded and encoded (`encoded`
      holds the Base64 text), null otherwise; the promise is never rejected. */
  function AppIcon(encoded: Option<string>): (uri: Option<string>)
    ensures uri.Some? <==> encoded.Some?
    ensures uri.Some? ==> StartsWith(uri.value, ICON_URI_PREFIX) &&
                          uri.value[|ICON_URI_PREFIX|..] == encoded.value
  {
    if encoded.Some? then Some(ICON_URI_PREFIX + encoded.value) else None
  }

  /** An entry as JavaScript receives it: its time is always a number. */
  function AsReceived(e: Stat): RawStat {
    RawStat(e.appName, e.packageName, Some(e.time), e.lastTimeUsed)
  }

  /** The screens' `typeof … === 'number'` filter keeps every entry the module emits. */
  lemma {:induction false} ReceivedEntriesAreNumeric(stats: seq<Stat>)
    ensures NumericOnly(AllReceived(stats)) == stats
  {
    if stats != [] {
      ReceivedEntriesAreNumeric(stats[1..]);
      assert AllReceived(stats)[1..] == AllReceived(stats[1..]);
    }
  }

  function AllReceived(stats: seq<Stat>): (r: seq<RawStat>)
    ensures |r| == |stats|
    ensures forall i :: 0 <= i < |stats| ==> r[i] == AsReceived(stats[i])
  {
    if stats == [] then [] else [AsReceived(stats[0])] + AllReceived(stats[1..])
  }
}
