/** The usage-statistics list both screens build from what the `Usage` module returns:
    entries whose foreground time is a number, sorted by that time (longest first) and
    reduced to the first entry of each package; plus the chart's top entries, the last
    segment of a package name and the "1h 2m 3s" time format. */
module UsageStats {
  import opened Wrappers
  import opened Text
  import opened Platform

  /** One entry as the screens use it: `totalTimeInForeground` is in seconds. */
  datatype Stat = Stat(appName: string, packageName: string, time: real, lastTimeUsed: real)

  /** One entry as it reaches JavaScript; `time` is `None` when `totalTimeInForeground`
      is not a number. */
  datatype RawStat = RawStat(appName: string, packageName: string, time: Option<real>, lastTimeUsed: real)

  /** `.filter(a => typeof a.totalTimeInForeground === 'number')`. */
  function NumericOnly(raw: seq<RawStat>): (r: seq<Stat>)
    ensures |r| <= |raw|
    ensures forall x :: x in r <==>
      RawStat(x.appName, x.packageName, Some(x.time), x.lastTimeUsed) in raw
  {
    if raw == [] then []
    else
      var rest := NumericOnly(raw[1..]);
      assert forall y :: y in raw <==> y == raw[0] || y in raw[1..];
      if raw[0].time.Some? then
        [Stat(raw[0].appName, raw[0].packageName, raw[0].time.value, raw[0].lastTimeUsed)] + rest
      else rest
  }

  /** The filter keeps the input's order: it works entry by entry. */
  lemma {:induction false} NumericOnlyAppend(a: seq<RawStat>, b: seq<RawStat>)
    ensures NumericOnly(a + b) == NumericOnly(a) + NumericOnly(b)
  {
    if a == [] {
      assert a + b == b;
    } else {
      assert (a + b)[0] == a[0];
      assert (a + b)[1..] == a[1..] + b;
      NumericOnlyAppend(a[1..], b);
    }
  }

  // ----- sorting by foreground time, longest first -----

  ghost predicate SortedByTime(s: seq<Stat>) {
    forall i, j :: 0 <= i < j < |s| ==> s[i].time >= s[j].time
  }

  /** Puts `x` in front of the first entry whose time is not longer than its own. */
  function Insert(x: Stat, t: seq<Stat>): (r: seq<Stat>)
    ensures multiset(r) == multiset(t) + multiset{x}
  {
    if t == [] || x.time >= t[0].time then [x] + t
    else
      assert t == [t[0]] + t[1..];
      [t[0]] + Insert(x, t[1..])
  }

  lemma {:induction false} InsertKeepsSorted(x: Stat, t: seq<Stat>)
    requires SortedByTime(t)
    ensures SortedByTime(Insert(x, t))
  {
    if t != [] && x.time < t[0].time {
      var rest := Insert(x, t[1..]);
      InsertKeepsSorted(x, t[1..]);
      forall y | y in rest ensures t[0].time >= y.time {
        assert y in multiset(rest);
        assert y == x || y in multiset(t[1..]);
      }
    }
  }

  /** The entries of `s` whose time is `v`, in their order in `s`. */
  ghost function OfTime(s: seq<Stat>, v: real): seq<Stat> {
    if s == [] then [] else (if s[0].time == v then [s[0]] else []) + OfTime(s[1..], v)
  }

  /** `Insert` puts `x` before every entry of its own time and leaves the order of the
      other entries of each time as it was. */
  lemma {:induction false} InsertKeepsTies(x: Stat, t: seq<Stat>)
    ensures forall v :: OfTime(Insert(x, t), v) == (if x.time == v then [x] else []) + OfTime(t, v)
  {
    if t == [] || x.time >= t[0].time {
      assert ([x] + t)[1..] == t;
    } else {
      var rest := Insert(x, t[1..]);
      InsertKeepsTies(x, t[1..]);
      assert ([t[0]] + rest)[1..] == rest;
    }
  }

  /** `.sort((a, b) => b.totalTimeInForeground - a.totalTimeInForeground)`: an insertion
      sort that keeps entries of equal time in their input order, as JavaScript's stable
      `sort` does. */
  function SortByTime(s: seq<Stat>): (r: seq<Stat>)
    ensures SortedByTime(r)
    ensures multiset(r) == multiset(s)
    ensures forall v :: OfTime(r, v) == OfTime(s, v)
  {
    if s == [] then []
    else
      assert s == [s[0]] + s[1..];
      InsertKeepsSorted(s[0], SortByTime(s[1..]));
      InsertKeepsTies(s[0], SortByTime(s[1..]));
      Insert(s[0], SortByTime(s[1..]))
  }

  // ----- keeping the first entry of each package -----

  /** `r` is `s` with some entries left out and the others in their order in `s`. */
  ghost predicate SubsequenceOf(r: seq<Stat>, s: seq<Stat>)
    decreases |s|
  {
    r == [] ||
    (s != [] && ((r[0] == s[0] && SubsequenceOf(r[1..], s[1..])) || SubsequenceOf(r, s[1..])))
  }

  /** The entries of `s` whose package is neither in `seen` nor met earlier in `s`: what
      the `seen`/`uniqueStats` loop pushes, in the order it pushes them. */
  function Unique(s: seq<Stat>, seen: set<string>): (r: seq<Stat>)
    ensures forall i :: 0 <= i < |r| ==> r[i] in s && r[i].packageName !in seen
    ensures forall i, j :: 0 <= i < j < |r| ==> r[i].packageName != r[j].packageName
    ensures SortedByTime(s) ==> SortedByTime(r)
  {
    if s == [] then []
    else if s[0].packageName in seen then
      Unique(s[1..], seen)
    else
      [s[0]] + Unique(s[1..], seen + {s[0].packageName})
  }

  /** The dedupe keeps the order of the entries it keeps. */
  lemma {:induction false} UniqueKeepsOrder(s: seq<Stat>, seen: set<string>)
    ensures SubsequenceOf(Unique(s, seen), s)
  {
    if s != [] {
      if s[0].packageName in seen {
        UniqueKeepsOrder(s[1..], seen);
      } else {
        var rest := Unique(s[1..], seen + {s[0].packageName});
        UniqueKeepsOrder(s[1..], seen + {s[0].packageName});
        assert ([s[0]] + rest)[1..] == rest;
      }
    }
  }

  /** The index of the first entry of `pkg` in `s`. */
  function FirstIndex(s: seq<Stat>, pkg: string): (k: nat)
    requires exists i :: 0 <= i < |s| && s[i].packageName == pkg
    ensures k < |s| && s[k].packageName == pkg
    ensures forall i :: 0 <= i < k ==> s[i].packageName != pkg
  {
    if s[0].packageName == pkg then 0
    else
      assert exists i :: 0 <= i < |s[1..]| && s[1..][i].packageName == pkg by {
        var i :| 0 <= i < |s| && s[i].packageName == pkg;
        assert s[1..][i - 1].packageName == pkg;
      }
      FirstIndex(s[1..], pkg) + 1
  }

  /** Every package of `s` that was not seen before keeps an entry, and that entry is
      the package's first one in `s`. */
  lemma UniqueKeepsFirst(s: seq<Stat>, seen: set<string>, i: nat)
    requires i < |s| && s[i].packageName !in seen
    ensures exists j :: 0 <= j < |Unique(s, seen)| && Unique(s, seen)[j] == s[FirstIndex(s, s[i].packageName)]
  {
    UniqueHasFirst(s, seen, i);
    var r := Unique(s, seen);
    var j :| 0 <= j < |r| && r[j] == s[FirstIndex(s, s[i].packageName)];
  }

  /** On a list sorted longest first, the entry kept for a package is at least as long
      as any other entry of that package. */
  lemma UniqueKeepsLongest(s: seq<Stat>, seen: set<string>, i: nat)
    requires SortedByTime(s)
    requires i < |s| && s[i].packageName !in seen
    ensures exists j :: 0 <= j < |Unique(s, seen)| && Unique(s, seen)[j].packageName == s[i].packageName &&
                        Unique(s, seen)[j].time >= s[i].time
  {
    var k := FirstIndex(s, s[i].packageName);
    assert k <= i;
    UniqueKeepsFirst(s, seen, i);
    var r := Unique(s, seen);
    var j :| 0 <= j < |r| && r[j] == s[k];
  }

  lemma {:induction false} UniqueHasFirst(s: seq<Stat>, seen: set<string>, i: nat)
    requires i < |s| && s[i].packageName !in seen
    ensures s[FirstIndex(s, s[i].packageName)] in Unique(s, seen)
    decreases |s|
  {
    var pkg := s[i].packageName;
    if s[0].packageName != pkg {
      FirstIndexOfTail(s, i);
      if s[0].packageName in seen {
        UniqueHasFirst(s[1..], seen, i - 1);
      } else {
        UniqueHasFirst(s[1..], seen + {s[0].packageName}, i - 1);
      }
    }
  }

  /** When `s` does not start with the package of entry `i`, the package's first entry
      is the first one in the rest of `s`. */
  lemma FirstIndexOfTail(s: seq<Stat>, i: nat)
    requires 0 < i < |s| && s[0].packageName != s[i].packageName
    ensures s[1..][i - 1].packageName == s[i].packageName
    ensures s[FirstIndex(s, s[i].packageName)] == s[1..][FirstIndex(s[1..], s[i].packageName)]
  {
    assert s[1..][i - 1] == s[i];
  }

  /** One turn of the dedupe loop: entry `i` is pushed iff its package is not seen yet,
      and what is left to push is the rest of the list with the updated set. */
  lemma UniqueStep(s: seq<Stat>, i: nat, seen: set<string>, pushed: seq<Stat>)
    requires i < |s|
    requires pushed + Unique(s[i..], seen) == Unique(s, {})
    ensures s[i].packageName in seen ==> pushed + Unique(s[i + 1..], seen) == Unique(s, {})
    ensures s[i].packageName !in seen ==>
      (pushed + [s[i]]) + Unique(s[i + 1..], seen + {s[i].packageName}) == Unique(s, {})
  {
    assert s[i..][1..] == s[i + 1..];
    if s[i].packageName !in seen {
      var rest := Unique(s[i + 1..], seen + {s[i].packageName});
      assert Unique(s[i..], seen) == [s[i]] + rest;
      assert (pushed + [s[i]]) + rest == pushed + ([s[i]] + rest);
    }
  }

  /** The `for … of` loop with its `seen` set and `uniqueStats` array. */
  method DedupeByPackage(stats: seq<Stat>) returns (unique: seq<Stat>)
    ensures unique == Unique(stats, {})
  {
    unique := [];
    var seen: set<string> := {};
    for i := 0 to |stats|
      invariant unique + Unique(stats[i..], seen) == Unique(stats, {})
    {
      UniqueStep(stats, i, seen, unique);
      if stats[i].packageName !in seen {
        seen := seen + {stats[i].packageName};
        unique := unique + [stats[i]];
      }
    }
  }

  // ----- chart, names and times -----

  /** `stats.slice(0, 5).filter(a => a.totalTimeInForeground > 0)`: what the chart plots. */
  function ChartEntries(stats: seq<Stat>): (top: seq<Stat>)
    ensures |top| <= 5
    ensures forall i :: 0 <= i < |top| ==> top[i].time > 0.0
    ensures forall x :: x in top <==> x in stats[..if |stats| < 5 then |stats| else 5] && x.time > 0.0
  {
    PositiveTime(stats[..if |stats| < 5 then |stats| else 5])
  }

  function PositiveTime(s: seq<Stat>): (r: seq<Stat>)
    ensures |r| <= |s|
    ensures forall x :: x in r <==> x in s && x.time > 0.0
  {
    if s == [] then []
    else
      assert forall y :: y in s <==> y == s[0] || y in s[1..];
      (if s[0].time > 0.0 then [s[0]] else []) + PositiveTime(s[1..])
  }

  lemma {:induction false} PositiveTimeAppend(a: seq<Stat>, b: seq<Stat>)
    ensures PositiveTime(a + b) == PositiveTime(a) + PositiveTime(b)
  {
    if a == [] {
      assert a + b == b;
    } else {
      assert (a + b)[0] == a[0];
      assert (a + b)[1..] == a[1..] + b;
      PositiveTimeAppend(a[1..], b);
    }
  }

  /** Within the first five entries the chart keeps the list's order. */
  lemma ChartEntriesAppend(a: seq<Stat>, b: seq<Stat>)
    requires |a| + |b| <= 5
    ensures ChartEntries(a + b) == ChartEntries(a) + ChartEntries(b)
  {
    assert (a + b)[..|a + b|] == a + b;
    assert a[..|a|] == a && b[..|b|] == b;
    PositiveTimeAppend(a, b);
  }

  /** Entries after the fifth never reach the chart. */
  lemma ChartEntriesIgnoresRest(a: seq<Stat>, b: seq<Stat>)
    requires |a| >= 5
    ensures ChartEntries(a + b) == ChartEntries(a)
  {
    assert (a + b)[..5] == a[..5];
  }

  /** `parts[parts.length - 1] || pkg` with `parts = pkg.split('.')`: the text after the
      last dot, or the whole name when that text is empty. */
  function SimpleName(pkg: string): (r: string)
    ensures EndsWith(pkg, r)
    ensures r != [] || pkg == []
    ensures AfterLastDot(pkg) != [] ==> r == AfterLastDot(pkg)
    ensures AfterLastDot(pkg) == [] ==> r == pkg
  {
    var last := AfterLastDot(pkg);
    if last == [] then pkg else last
  }

  /** The last segment is the whole name when the name has no dot. */
  lemma SimpleNameWithoutDot(pkg: string)
    requires forall i :: 0 <= i < |pkg| ==> pkg[i] != '.'
    ensures SimpleName(pkg) == pkg
  {
    AfterLastDotWithoutDot(pkg);
  }

  /** JavaScript's `%` on numbers: the remainder of truncating division, with the
      dividend's sign. */
  function JsRem(a: real, b: real): real
    requires b > 0.0
  {
    a - b * (Truncate(a / b) as real)
  }

  datatype Clock = Clock(h: int, m: int, s: int)

  /** The hours, minutes and seconds `formatTime` computes. */
  function ClockOf(secs: real): Clock {
    Clock((secs / 3600.0).Floor, (JsRem(secs, 3600.0) / 60.0).Floor, JsRem(secs, 60.0).Floor)
  }

  /** `formatTime(secs)`: "Hh Mm Ss", without the hours when there are none. */
  function FormatTime(secs: real): string {
    var c := ClockOf(secs);
    (if c.h > 0 then IntToString(c.h) + "h " else "") + IntToString(c.m) + "m " + IntToString(c.s) + "s"
  }

  /** Flooring a quotient by a whole number is integer division of the floor. */
  lemma FloorOfQuotient(x: real, d: int)
    requires d > 0
    ensures (x / d as real).Floor == x.Floor / d
  {
    var t := x.Floor;
    var q := t / d;
    assert q * d <= t < q * d + d;
    assert (q * d) as real <= x < (q * d + d) as real;
    assert q as real <= x / d as real < (q + 1) as real;
  }

  /** For a non-negative count of seconds the parts are whole hours, minutes below 60
      and seconds below 60 that add up to the whole seconds. */
  lemma {:induction false} ClockOfDecomposes(secs: real)
    requires secs >= 0.0
    ensures var c := ClockOf(secs);
      c.h >= 0 && 0 <= c.m < 60 && 0 <= c.s < 60 && 3600 * c.h + 60 * c.m + c.s == secs.Floor
  {
    var t := secs.Floor;
    FloorOfQuotient(secs, 3600);
    FloorOfQuotient(secs, 60);
    var q := t / 3600;
    var q2 := t / 60;
    assert Truncate(secs / 3600.0) == q;
    assert Truncate(secs / 60.0) == q2;
    var r := JsRem(secs, 3600.0);
    assert r == secs - (3600 * q) as real;
    assert r.Floor == t - 3600 * q by {
      assert (t - 3600 * q) as real <= r < (t - 3600 * q + 1) as real;
    }
    FloorOfQuotient(r, 60);
    var r2 := JsRem(secs, 60.0);
    assert r2 == secs - (60 * q2) as real;
    assert r2.Floor == t - 60 * q2 by {
      assert (t - 60 * q2) as real <= r2 < (t - 60 * q2 + 1) as real;
    }
    var c := ClockOf(secs);
    assert c.h == q && c.m == (t - 3600 * q) / 60 && c.s == t - 60 * q2;
    assert t - 60 * q2 == t % 60;
    assert t - 3600 * q == t % 3600;
    assert (t % 3600) % 60 == t % 60 by {
      assert t % 3600 == t - 3600 * q;
      assert t - 3600 * q == 60 * (q2 - 60 * q) + t % 60;
    }
  }

  /** The printed time carries an hours part ("…h ") exactly when there is at least one
      whole hour. */
  lemma FormatTimeShowsHours(secs: real)
    ensures 'h' in FormatTime(secs) <==> ClockOf(secs).h > 0
  {
    var c := ClockOf(secs);
    NoLetterInNumber(c.m);
    NoLetterInNumber(c.s);
    var tail := IntToString(c.m) + "m " + IntToString(c.s) + "s";
    assert 'h' !in tail by {
      assert tail == IntToString(c.m) + ("m " + IntToString(c.s) + "s");
      assert "m " + IntToString(c.s) + "s" == ['m', ' '] + IntToString(c.s) + ['s'];
    }
    if c.h > 0 {
      var head := IntToString(c.h) + "h ";
      assert FormatTime(secs)[|IntToString(c.h)|] == 'h';
    } else {
      assert FormatTime(secs) == tail;
    }
  }

  lemma NoLetterInNumber(i: int)
    ensures 'h' !in IntToString(i)
  {
    var n: nat := if i < 0 then -i else i;
    var digits := NatToString(n);
    assert forall k :: 0 <= k < |digits| ==> IsDigit(digits[k]);
    if i < 0 {
      assert IntToString(i) == ['-'] + digits;
    }
  }
}
