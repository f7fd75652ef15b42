/** The usage screen (`UsageScreen`): the permission check, the list of entries sorted
    and one per package, and the search box that narrows it down. */
module UsageList {
  import opened Wrappers
  import opened Text
  import opened UsageStats

  /** The list `loadUsageStats` stores: numeric entries, longest first, the first entry
      of each package. Unlike the home screen it keeps system packages. */
  function Listing(raw: seq<RawStat>): (r: seq<Stat>)
    ensures SortedByTime(r)
    ensures forall i, j :: 0 <= i < j < |r| ==> r[i].packageName != r[j].packageName
    ensures forall x :: x in r ==> RawStat(x.appName, x.packageName, Some(x.time), x.lastTimeUsed) in raw
  {
    var numeric := NumericOnly(raw);
    var sorted := SortByTime(numeric);
    var r := Unique(sorted, {});
    assert forall x :: x in r ==> x in sorted by {
      forall x | x in r ensures x in sorted {
        var i :| 0 <= i < |r| && r[i] == x;
      }
    }
    assert forall x :: x in sorted ==> x in numeric by {
      forall x | x in sorted ensures x in numeric {
        assert x in multiset(sorted);
      }
    }
    r
  }

  /** Every package with an entry of numeric time is listed, by an entry at least as
      long as any of its own (that every listed entry is such an entry is part of
      `Listing`'s contract). */
  lemma ListingCoversPackages(raw: seq<RawStat>, x: Stat)
    requires RawStat(x.appName, x.packageName, Some(x.time), x.lastTimeUsed) in raw
    ensures exists j :: 0 <= j < |Listing(raw)| && Listing(raw)[j].packageName == x.packageName &&
                        Listing(raw)[j].time >= x.time
  {
    var numeric := NumericOnly(raw);
    var sorted := SortByTime(numeric);
    assert x in numeric;
    assert x in multiset(numeric);
    assert x in sorted;
    var i :| 0 <= i < |sorted| && sorted[i] == x;
    UniqueKeepsLongest(sorted, {}, i);
    assert Listing(raw) == Unique(sorted, {});
  }

  /** The search test: the package name or its last segment contains the search text,
      both lower-cased. */
  predicate MatchesSearch(x: Stat, search: string) {
    Contains(Lower(x.packageName), Lower(search)) || Contains(Lower(SimpleName(x.packageName)), Lower(search))
  }

  /** `appStats.filter(…)` in the search effect. */
  function SearchFilter(stats: seq<Stat>, search: string): (r: seq<Stat>)
    ensures |r| <= |stats|
    ensures forall x :: x in r <==> x in stats && MatchesSearch(x, search)
  {
    if stats == [] then []
    else
      assert forall y :: y in stats <==> y == stats[0] || y in stats[1..];
      (if MatchesSearch(stats[0], search) then [stats[0]] else []) + SearchFilter(stats[1..], search)
  }

  /** The filter keeps the list's order: filtering a list made of two parts gives the
      filtered first part followed by the filtered second part. */
  lemma {:induction false} SearchFilterKeepsOrder(a: seq<Stat>, b: seq<Stat>, search: string)
    ensures SearchFilter(a + b, search) == SearchFilter(a, search) + SearchFilter(b, search)
  {
    if a == [] {
      assert a + b == b;
    } else {
      assert (a + b)[0] == a[0];
      assert (a + b)[1..] == a[1..] + b;
      SearchFilterKeepsOrder(a[1..], b, search);
    }
  }

  /** An empty search keeps every entry, in order. */
  lemma {:induction false} EmptySearchKeepsAll(stats: seq<Stat>)
    ensures SearchFilter(stats, "") == stats
  {
    if stats != [] {
      ContainsEmpty(Lower(stats[0].packageName));
      EmptySearchKeepsAll(stats[1..]);
    }
  }

  /** The search ignores ASCII case. */
  lemma SearchIgnoresCase(x: Stat, search: string)
    ensures MatchesSearch(x, Lower(search)) == MatchesSearch(x, search)
  {
    LowerIdempotent(search);
  }

  /** `renderGraph`: nothing when no entry among the first five has a positive time. */
  function Graph(filtered: seq<Stat>): (g: Option<seq<Stat>>)
    ensures g.Some? ==> 0 < |g.value| <= 5 && forall i :: 0 <= i < |g.value| ==> g.value[i].time > 0.0
    ensures g.Some? ==> g.value == ChartEntries(filtered)
    ensures g.Some? ==> forall x :: x in g.value <==>
      x in filtered[..if |filtered| < 5 then |filtered| else 5] && x.time > 0.0
    ensures g.None? <==> forall i :: 0 <= i < |filtered| && i < 5 ==> filtered[i].time <= 0.0
  {
    var top := ChartEntries(filtered);
    if top == [] then
      assert forall i :: 0 <= i < |filtered| && i < 5 ==> filtered[i] in filtered[..if |filtered| < 5 then |filtered| else 5];
      None
    else
      var x := top[0];
      assert x in filtered[..if |filtered| < 5 then |filtered| else 5];
      Some(top)
  }

  /** The component's state. `permissionGranted` is `None` until the check answers. */
  class UsageScreen {
    var appStats: seq<Stat>
    var filteredStats: seq<Stat>
    var permissionGranted: Option<bool>
    var search: string

    /** The filtered list is always the search effect applied to the current list. */
    ghost predicate Valid()
      reads this
    {
      filteredStats == SearchFilter(appStats, search)
    }

    constructor ()
      ensures appStats == [] && filteredStats == [] && permissionGranted == None && search == ""
      ensures Valid()
    {
      appStats, filteredStats := [], [];
      permissionGranted, search := None, "";
    }

    /** `checkPermission`: `granted` is what `hasUsagePermission` resolved with (a
        failure is a rejection), `stats` what `getUsageStats` then gave. Stats load only
        with the permission. */
    method CheckPermission(granted: Result<bool, string>, stats: Result<seq<RawStat>, string>)
      requires Valid()
      modifies this
      ensures Valid() && search == old(search)
      ensures permissionGranted == Some(granted.Success? && granted.value)
      ensures granted.Success? && granted.value ==>
        appStats == (if stats.Success? then Listing(stats.value) else [])
      ensures !(granted.Success? && granted.value) ==> appStats == old(appStats)
    {
      if granted.Failure? {
        permissionGranted := Some(false);
        return;
      }
      permissionGranted := Some(granted.value);
      if granted.value {
        LoadUsageStats(stats);
      }
    }

    /** `loadUsageStats`, followed by the search effect its new list triggers; any
        failure leaves an empty list. */
    method LoadUsageStats(stats: Result<seq<RawStat>, string>)
      modifies this
      ensures Valid() && search == old(search) && permissionGranted == old(permissionGranted)
      ensures appStats == if stats.Success? then Listing(stats.value) else []
    {
      if stats.Failure? {
        appStats := [];
      } else {
        var filtered := SortByTime(NumericOnly(stats.value));
        appStats := DedupeByPackage(filtered);
      }
      filteredStats := SearchFilter(appStats, search);
    }

    /** Typing in the search box, followed by the search effect. */
    method SetSearch(text: string)
      modifies this
      ensures Valid() && search == text && appStats == old(appStats)
      ensures permissionGranted == old(permissionGranted)
    {
      search := text;
      filteredStats := SearchFilter(appStats, search);
    }
  }
}
