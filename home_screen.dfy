/** The home screen (`HomeScreen`): the usage report for a chosen period, without the
    system packages, sorted and one entry per package, with icons for the first ten
    entries, and the names and times it shows for them. */
module Home {
  import opened Wrappers
  import opened Text
  import opened UsageStats

  /** The package-name prefixes the report treats as system software. */
  const SYSTEM_PREFIXES: seq<string> := [
    "android", "com.android.",
    "com.google.android.gms", "com.google.android.gsf", "com.google.android.inputmethod",
    "com.google.android.providers", "com.google.android.ext.", "com.google.android.onetimeinitializer",
    "com.google.android.packageinstaller", "com.google.android.partnersetup",
    "com.google.android.setupwizard", "com.google.android.permissioncontroller",
    "com.google.android.cellbroadcastreceiver", "com.google.android.webview",
    "com.google.android.trichromelibrary", "com.google.android.overlay",
    "com.google.android.configupdater", "com.google.android.printservice",
    "com.google.android.syncadapters", "com.google.android.backuptransport",
    "com.google.android.feedback", "com.google.android.marvin", "com.google.android.tag",
    "com.google.android.as",
    "com.samsung.android.", "com.samsung.", "com.sec.android.", "com.sec.",
    "com.huawei.android.", "com.huawei.",
    "com.miui.", "com.xiaomi.",
    "com.oppo.", "com.coloros.", "com.oplus.",
    "com.vivo.", "com.bbk.",
    "com.oneplus.", "com.realme.",
    "com.asus.", "com.motorola.", "com.lenovo.", "com.lge.", "com.sony.", "com.htc.",
    "com.zte.", "com.meizu.",
    "com.qualcomm.", "com.qti.", "com.mediatek.",
    "com.caf.", "org.codeaurora."]

  /** `packageName === prefix || packageName.startsWith(prefix + (prefix.endsWith('.') ? '' : '.'))`. */
  predicate MatchesPrefix(p: string, prefix: string) {
    p == prefix || StartsWith(p, prefix + (if EndsWith(prefix, ".") then "" else "."))
  }

  /** A package matches a prefix when it is the prefix itself or lies below it: right
      after the prefix comes a dot, which a prefix ending in a dot supplies itself. So
      "android.ext" matches "android", while "androidx.work" does not. */
  lemma MatchesPrefixMeaning(p: string, prefix: string)
    ensures EndsWith(prefix, ".") ==> (MatchesPrefix(p, prefix) <==> StartsWith(p, prefix))
    ensures !EndsWith(prefix, ".") ==>
      (MatchesPrefix(p, prefix) <==>
         p == prefix || (StartsWith(p, prefix) && |p| > |prefix| && p[|prefix|] == '.'))
  {
    if !EndsWith(prefix, ".") && StartsWith(p, prefix) && |p| > |prefix| && p[|prefix|] == '.' {
      assert p[..|prefix| + 1] == p[..|prefix|] + [p[|prefix|]];
    }
  }

  /** `systemPrefixes.some(…)` over a list of prefixes. */
  function AnyMatches(p: string, prefixes: seq<string>): (r: bool)
    ensures r <==> exists i :: 0 <= i < |prefixes| && MatchesPrefix(p, prefixes[i])
  {
    if prefixes == [] then false
    else
      assert forall i :: 0 < i < |prefixes| ==> prefixes[i] == prefixes[1..][i - 1];
      MatchesPrefix(p, prefixes[0]) || AnyMatches(p, prefixes[1..])
  }

  /** `isSystemApp(packageName)`. */
  predicate IsSystemApp(p: string) {
    AnyMatches(p, SYSTEM_PREFIXES)
  }

  /** `.filter(a => !isSystemApp(a.packageName))`. */
  function NotSystem(s: seq<Stat>): (r: seq<Stat>)
    ensures |r| <= |s|
    ensures forall x :: x in r <==> x in s && !IsSystemApp(x.packageName)
  {
    if s == [] then []
    else
      assert forall y :: y in s <==> y == s[0] || y in s[1..];
      (if IsSystemApp(s[0].packageName) then [] else [s[0]]) + NotSystem(s[1..])
  }

  /** The filter keeps the list's order: it works entry by entry. */
  lemma {:induction false} NotSystemAppend(a: seq<Stat>, b: seq<Stat>)
    ensures NotSystem(a + b) == NotSystem(a) + NotSystem(b)
  {
    if a == [] {
      assert a + b == b;
    } else {
      assert (a + b)[0] == a[0];
      assert (a + b)[1..] == a[1..] + b;
      NotSystemAppend(a[1..], b);
    }
  }

  /** The list `loadUsageStats` stores: numeric, non-system entries, longest first, the
      first entry of each package. */
  function Report(raw: seq<RawStat>): seq<Stat> {
    Unique(SortByTime(NotSystem(NumericOnly(raw))), {})
  }

  /** The report is sorted longest first, names each package once, holds no system
      package, and every entry came from the module with a numeric time. */
  lemma ReportProperties(raw: seq<RawStat>)
    ensures var r := Report(raw);
      SortedByTime(r) &&
      (forall i, j :: 0 <= i < j < |r| ==> r[i].packageName != r[j].packageName) &&
      (forall i :: 0 <= i < |r| ==> !IsSystemApp(r[i].packageName)) &&
      (forall i :: 0 <= i < |r| ==>
         RawStat(r[i].appName, r[i].packageName, Some(r[i].time), r[i].lastTimeUsed) in raw)
  {
    var sorted := SortByTime(NotSystem(NumericOnly(raw)));
    forall i | 0 <= i < |Report(raw)|
      ensures Report(raw)[i] in NotSystem(NumericOnly(raw))
    {
      assert Report(raw)[i] in multiset(sorted);
    }
  }

  /** Every non-system package with a numeric entry is reported, by the first of its
      entries in sorted order. */
  lemma ReportCoversPackages(raw: seq<RawStat>, sorted: seq<Stat>, i: nat)
    requires sorted == SortByTime(NotSystem(NumericOnly(raw))) && i < |sorted|
    ensures exists j :: 0 <= j < |Report(raw)| && Report(raw)[j] == sorted[FirstIndex(sorted, sorted[i].packageName)]
  {
    assert Report(raw) == Unique(sorted, {});
    UniqueKeepsFirst(sorted, {}, i);
  }

  // ----- the period and the icons -----

  datatype DurationOption = Today | Week | Month

  /** `DURATION_OPTIONS[option].days`. */
  function Days(d: DurationOption): (days: nat)
    ensures d == Today <==> days == 1
    ensures d == Week <==> days == 7
    ensures d == Month <==> days == 30
  {
    match d
    case Today => 1
    case Week => 7
    case Month => 30
  }

  const ICON_LIMIT := 10

  /** The packages whose icons are requested: those of the first ten entries. */
  function IconRequests(stats: seq<Stat>): (pkgs: seq<string>)
    ensures |pkgs| == if |stats| < ICON_LIMIT then |stats| else ICON_LIMIT
    ensures forall i :: 0 <= i < |pkgs| ==> pkgs[i] == stats[i].packageName
  {
    var top := if |stats| < ICON_LIMIT then stats else stats[..ICON_LIMIT];
    seq(|top|, i requires 0 <= i < |top| => top[i].packageName)
  }

  /** The icon map the `forEach` builds: an entry for each requested package whose icon
      came back (`fetched` holds the URIs `getAppIcon` resolved with; a package missing
      from it resolved to null or failed). */
  function IconsFor(pkgs: seq<string>, fetched: map<string, string>): (icons: map<string, string>)
    ensures forall p :: p in icons <==> p in pkgs && p in fetched
    ensures forall p :: p in icons ==> icons[p] == fetched[p]
  {
    if pkgs == [] then map[]
    else
      var rest := IconsFor(pkgs[..|pkgs| - 1], fetched);
      var p := pkgs[|pkgs| - 1];
      assert forall q :: q in pkgs <==> q in pkgs[..|pkgs| - 1] || q == p;
      if p in fetched then rest[p := fetched[p]] else rest
  }

  /** The `forEach` over the icon results, in request order. */
  method BuildIcons(pkgs: seq<string>, fetched: map<string, string>) returns (icons: map<string, string>)
    ensures icons == IconsFor(pkgs, fetched)
  {
    icons := map[];
    for i := 0 to |pkgs|
      invariant icons == IconsFor(pkgs[..i], fetched)
    {
      assert pkgs[..i + 1][..i] == pkgs[..i];
      if pkgs[i] in fetched {
        icons := icons[pkgs[i] := fetched[pkgs[i]]];
      }
    }
    assert pkgs[..|pkgs|] == pkgs;
  }

  /** Icons are only ever shown for entries among the first ten of the report. */
  lemma IconsOnlyForTopTen(stats: seq<Stat>, fetched: map<string, string>, p: string)
    requires p in IconsFor(IconRequests(stats), fetched)
    ensures exists i :: 0 <= i < |stats| && i < ICON_LIMIT && stats[i].packageName == p
  {
    var pkgs := IconRequests(stats);
    var i :| 0 <= i < |pkgs| && pkgs[i] == p;
    assert stats[i].packageName == p;
  }

  // ----- names -----

  /** `.replace(/([A-Z])/g, ' $1')`: a space before every capital letter. */
  function SpaceBeforeCapitals(s: string): (r: string)
    ensures forall i :: 0 <= i < |r| && IsAsciiUpper(r[i]) ==> i > 0 && r[i - 1] == ' '
    ensures WithoutSpaces(r) == WithoutSpaces(s)
  {
    if s == [] then []
    else
      var rest := SpaceBeforeCapitals(s[1..]);
      var head := if IsAsciiUpper(s[0]) then [' ', s[0]] else [s[0]];
      WithoutSpacesAppend(head, rest);
      assert s == [s[0]] + s[1..];
      WithoutSpacesAppend([s[0]], s[1..]);
      head + rest
  }

  /** Undoes `SpaceBeforeCapitals`: drops the space in front of each capital letter. */
  function DropSpaceBeforeCapitals(s: string): string {
    if s == [] then []
    else if |s| >= 2 && s[0] == ' ' && IsAsciiUpper(s[1]) then [s[1]] + DropSpaceBeforeCapitals(s[2..])
    else [s[0]] + DropSpaceBeforeCapitals(s[1..])
  }

  /** The only change is the spaces put in front of the capitals: taking them out again
      gives back the input. */
  lemma {:induction false} SpaceBeforeCapitalsRoundTrip(s: string)
    ensures DropSpaceBeforeCapitals(SpaceBeforeCapitals(s)) == s
  {
    if s != [] {
      var rest := SpaceBeforeCapitals(s[1..]);
      SpaceBeforeCapitalsRoundTrip(s[1..]);
      if IsAsciiUpper(s[0]) {
        var r := [' ', s[0]] + rest;
        assert r[2..] == rest;
      } else {
        var r := [s[0]] + rest;
        assert r[1..] == rest;
        assert |r| >= 2 ==> r[1] == rest[0] && !IsAsciiUpper(r[1]);
      }
    }
  }

  /** The characters of `s` other than the plain space. */
  function WithoutSpaces(s: string): string {
    if s == [] then [] else (if s[0] == ' ' then [] else [s[0]]) + WithoutSpaces(s[1..])
  }

  lemma {:induction false} WithoutSpacesAppend(a: string, b: string)
    ensures WithoutSpaces(a + b) == WithoutSpaces(a) + WithoutSpaces(b)
  {
    if a == [] {
      assert a + b == b;
    } else {
      var head := if a[0] == ' ' then [] else [a[0]];
      assert (a + b)[0] == a[0];
      assert (a + b)[1..] == a[1..] + b;
      WithoutSpacesAppend(a[1..], b);
      calc {
        WithoutSpaces(a + b);
        head + WithoutSpaces(a[1..] + b);
        head + (WithoutSpaces(a[1..]) + WithoutSpaces(b));
        (head + WithoutSpaces(a[1..])) + WithoutSpaces(b);
        WithoutSpaces(a) + WithoutSpaces(b);
      }
    }
  }

  /** `.replace(/^./, str => str.toUpperCase())`: the first character in capitals, unless
      it is a line terminator, which `.` does not match. */
  function CapitalizeFirst(s: string): (r: string)
    ensures |r| == |s| && (|s| > 0 ==> r[1..] == s[1..])
    ensures |s| > 0 && !IsLineTerminator(s[0]) ==> r[0] == UpperChar(s[0])
    ensures |s| > 0 && IsLineTerminator(s[0]) ==> r == s
  {
    if s == [] || IsLineTerminator(s[0]) then s else [UpperChar(s[0])] + s[1..]
  }

  /** `getAppDisplayName(appName, packageName)`. */
  function DisplayName(appName: Option<string>, packageName: string): (r: string)
    ensures appName.Some? && appName.value != "" && Trim(appName.value) != "" && appName.value != packageName
            ==> r == appName.value
  {
    if appName.Some? && appName.value != "" && Trim(appName.value) != "" && appName.value != packageName then
      appName.value
    else
      Trim(CapitalizeFirst(SpaceBeforeCapitals(SimpleName(packageName))))
  }

  /** Without a usable label the name is built from the package name and carries no
      white space at either end. */
  lemma DisplayNameFallback(appName: Option<string>, packageName: string)
    requires appName.None? || appName.value == packageName || Trim(appName.value) == ""
    ensures var r := DisplayName(appName, packageName);
      r == Trim(CapitalizeFirst(SpaceBeforeCapitals(SimpleName(packageName)))) &&
      (r != [] ==> !IsJsWhitespace(r[0]) && !IsJsWhitespace(r[|r| - 1]))
  {
    var built := CapitalizeFirst(SpaceBeforeCapitals(SimpleName(packageName)));
    assert DisplayName(appName, packageName) == Trim(built);
    TrimEnds(built);
  }

  // ----- the screen -----

  /** The component's state: the report, the icons, the chosen period and the loading
      flag. */
  class HomeScreen {
    var appStats: seq<Stat>
    var appIcons: map<string, string>
    var selectedDuration: DurationOption
    var isLoading: bool

    constructor ()
      ensures appStats == [] && appIcons == map[] && selectedDuration == Week && isLoading
    {
      appStats, appIcons := [], map[];
      selectedDuration, isLoading := Week, true;
    }

    /** `loadUsageStats`: `supported` and `hasPermission` are what the `Usage` wrapper
        answered, `stats` what it returned for `Days(selectedDuration)` days, `fetched`
        the icons it resolved. */
    method LoadUsageStats(supported: bool, hasPermission: bool, stats: seq<RawStat>, fetched: map<string, string>)
      modifies this
      ensures !isLoading && selectedDuration == old(selectedDuration)
      ensures !supported ==> appStats == [] && appIcons == old(appIcons)
      ensures supported && !hasPermission ==> appStats == old(appStats) && appIcons == old(appIcons)
      ensures supported && hasPermission ==>
        appStats == Report(stats) && appIcons == IconsFor(IconRequests(appStats), fetched)
    {
      isLoading := true;
      if !supported {
        appStats := [];
        isLoading := false;
        return;
      }
      if hasPermission {
        var filtered := SortByTime(NotSystem(NumericOnly(stats)));
        var unique := DedupeByPackage(filtered);
        appStats := unique;
        var icons := BuildIcons(IconRequests(unique), fetched);
        appIcons := icons;
      }
      isLoading := false;
    }

    /** `handleDurationChange`: a new period clears the report and the icons (the
        effect on `selectedDuration` then reloads); the current one changes nothing. */
    method HandleDurationChange(d: DurationOption)
      modifies this
      ensures d == old(selectedDuration) ==> appStats == old(appStats) && appIcons == old(appIcons)
      ensures d != old(selectedDuration) ==> appStats == [] && appIcons == map[]
      ensures selectedDuration == d && isLoading == old(isLoading)
    {
      if d != selectedDuration {
        appStats := [];
        appIcons := map[];
        selectedDuration := d;
      }
    }
  }
}
