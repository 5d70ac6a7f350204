/**
 * The traffic-statistics aggregator of the admin dashboard: it reduces the
 * page-view rows of a date range into totals, a top-10 of paths, a
 * zero-filled per-day series, device and referrer breakdowns, and falls
 * back to synthetic figures when the page-view table cannot be reached.
 *
 * Dates are day numbers: `day` is the calendar day of a row's `created_at`,
 * `start` the first day of the range and `diffDays` the number of days
 * from the start to the end (the source's `Math.ceil` of the time
 * difference), so the range is `start .. start + diffDays`.
 */
module Analytics {
  import opened Wrappers
  import opened JsBuiltins
  import opened Tally

  /** One row of `analytics_page_views`; a falsy referrer (null or "") is "". */
  datatype PageView = PageView(
    path: string,
    day: int,
    sessionId: string,
    userAgent: string,
    referrer: string)

  datatype DayStat = DayStat(day: int, views: nat, visitors: nat)

  /** One row of the recent-activity list; `timestamp` in milliseconds. */
  datatype Activity = Activity(path: string, timestamp: int, studentNis: Option<string>, userAgent: string)

  datatype AnalyticsStats = AnalyticsStats(
    totalPageViews: nat,
    uniqueVisitors: nat,
    topPages: seq<Entry<string>>,
    dailyStats: seq<DayStat>,
    recentActivity: seq<Activity>,
    deviceStats: seq<Entry<string>>,
    referrerStats: seq<Entry<string>>)

  /** What the catch clause returns: zero totals and empty lists. */
  const EmptyStats := AnalyticsStats(0, 0, [], [], [], [], [])

  /** How many entries a ranked list keeps (`slice(0, 10)`). */
  const TopCount: nat := 10

  // ---------------------------------------------------------------------
  // Unique visitors: `new Set(rows.map(v => v.session_id)).size`

  function SessionSet(rows: seq<PageView>): set<string>
  {
    if rows == [] then {} else SessionSet(rows[..|rows| - 1]) + {rows[|rows| - 1].sessionId}
  }

  function UniqueVisitors(rows: seq<PageView>): nat
  {
    |SessionSet(rows)|
  }

  /** The set holds exactly the session ids of the rows. */
  lemma {:induction false} SessionSetMembers(rows: seq<PageView>, id: string)
    ensures id in SessionSet(rows) <==> exists i :: 0 <= i < |rows| && rows[i].sessionId == id
  {
    if rows != [] {
      var p := rows[..|rows| - 1];
      SessionSetMembers(p, id);
      if id in SessionSet(p) {
        var i :| 0 <= i < |p| && p[i].sessionId == id;
        assert rows[i].sessionId == id;
      }
      if exists i :: 0 <= i < |rows| && rows[i].sessionId == id {
        var i :| 0 <= i < |rows| && rows[i].sessionId == id;
        if i < |p| {
          assert p[i].sessionId == id;
        }
      }
    }
  }

  /** There are never more unique visitors than rows. */
  lemma {:induction false} UniqueVisitorsAtMostRows(rows: seq<PageView>)
    ensures UniqueVisitors(rows) <= |rows|
  {
    if rows != [] {
      UniqueVisitorsAtMostRows(rows[..|rows| - 1]);
    }
  }

  // ---------------------------------------------------------------------
  // Top pages: pathCounts, sorted on descending count, first ten

  function Paths(rows: seq<PageView>): seq<string>
  {
    seq(|rows|, i requires 0 <= i < |rows| => rows[i].path)
  }

  function TopPages(rows: seq<PageView>): seq<Entry<string>>
  {
    TopN(Tallied(Paths(rows)), TopCount)
  }

  /**
   * At most ten entries with distinct paths, counts non-increasing, each
   * count the number of rows with that path, no unlisted path more viewed
   * than a listed one, and ties in the order the paths were first seen.
   */
  lemma TopPagesFacts(rows: seq<PageView>)
    ensures var r := TopPages(rows);
      |r| <= TopCount && NonIncreasing(r) &&
      (forall i, j :: 0 <= i < j < |r| ==> r[i].key != r[j].key) &&
      (forall e :: e in r ==> e.key in Paths(rows) && e.count == Count(Paths(rows), e.key)) &&
      (forall i, j :: 0 <= i < j < |r| && r[i].count == r[j].count ==>
         FirstIndex(Paths(rows), r[i].key) < FirstIndex(Paths(rows), r[j].key)) &&
      (forall p, e :: p in Paths(rows) && (forall f :: f in r ==> f.key != p) && e in r ==>
         Count(Paths(rows), p) <= e.count)
  {
    TopTallyExact(Paths(rows), TopCount);
    TopTallyTies(Paths(rows), TopCount);
    forall p | p in Paths(rows) && (forall f :: f in TopPages(rows) ==> f.key != p)
      ensures forall e :: e in TopPages(rows) ==> Count(Paths(rows), p) <= e.count
    {
      TopTallyExcluded(Paths(rows), TopCount, p);
    }
  }

  // ---------------------------------------------------------------------
  // Daily series

  /** Rows on day `d`. */
  function ViewsOn(rows: seq<PageView>, d: int): nat
  {
    if rows == [] then 0
    else ViewsOn(rows[..|rows| - 1], d) + (if rows[|rows| - 1].day == d then 1 else 0)
  }

  /** Distinct session ids of the rows on day `d`. */
  function SessionsOn(rows: seq<PageView>, d: int): set<string>
  {
    if rows == [] then {}
    else SessionsOn(rows[..|rows| - 1], d) + (if rows[|rows| - 1].day == d then {rows[|rows| - 1].sessionId} else {})
  }

  /** The per-day series the dashboard receives: one entry for every day of the range. */
  function DailySeries(start: int, diffDays: int, rows: seq<PageView>): seq<DayStat>
  {
    seq(Max(diffDays + 1, 0), i =>
      DayStat(start + i, ViewsOn(rows, start + i), |SessionsOn(rows, start + i)|))
  }

  /** A day never has more visitors than views. */
  lemma {:induction false} VisitorsAtMostViews(rows: seq<PageView>, d: int)
    ensures |SessionsOn(rows, d)| <= ViewsOn(rows, d)
  {
    if rows != [] {
      VisitorsAtMostViews(rows[..|rows| - 1], d);
    }
  }

  /** A day without rows has zero views and zero visitors. */
  lemma {:induction false} QuietDay(rows: seq<PageView>, d: int)
    requires forall i :: 0 <= i < |rows| ==> rows[i].day != d
    ensures ViewsOn(rows, d) == 0 && SessionsOn(rows, d) == {}
  {
    if rows != [] {
      QuietDay(rows[..|rows| - 1], d);
    }
  }

  predicate InRange(r: PageView, start: int, diffDays: int)
  {
    start <= r.day <= start + diffDays
  }

  /** The rows whose day lies in the range. */
  function RowsInRange(rows: seq<PageView>, start: int, diffDays: int): seq<PageView>
  {
    if rows == [] then []
    else
      var p := RowsInRange(rows[..|rows| - 1], start, diffDays);
      if InRange(rows[|rows| - 1], start, diffDays) then p + [rows[|rows| - 1]] else p
  }

  /** ViewsOn and SessionsOn of a prefix one row longer. */
  lemma DayCountsStep(rows: seq<PageView>, k: nat, d: int)
    requires k < |rows|
    ensures ViewsOn(rows[..k + 1], d) == ViewsOn(rows[..k], d) + (if rows[k].day == d then 1 else 0)
    ensures SessionsOn(rows[..k + 1], d) ==
      SessionsOn(rows[..k], d) + (if rows[k].day == d then {rows[k].sessionId} else {})
  {
    assert rows[..k + 1][..k] == rows[..k];
  }

  lemma {:induction false} InRangeViews(rows: seq<PageView>, start: int, diffDays: int, d: int)
    requires start <= d <= start + diffDays
    ensures ViewsOn(RowsInRange(rows, start, diffDays), d) == ViewsOn(rows, d)
  {
    if rows != [] {
      var p := rows[..|rows| - 1];
      var x := rows[|rows| - 1];
      InRangeViews(p, start, diffDays, d);
      var q := RowsInRange(p, start, diffDays);
      if InRange(x, start, diffDays) {
        assert RowsInRange(rows, start, diffDays) == q + [x];
        assert (q + [x])[..|q|] == q;
      } else {
        assert RowsInRange(rows, start, diffDays) == q;
        assert x.day != d;
      }
    }
  }

  lemma {:induction false} InRangeSessions(rows: seq<PageView>, start: int, diffDays: int, d: int)
    requires start <= d <= start + diffDays
    ensures SessionsOn(RowsInRange(rows, start, diffDays), d) == SessionsOn(rows, d)
  {
    if rows != [] {
      var p := rows[..|rows| - 1];
      var x := rows[|rows| - 1];
      InRangeSessions(p, start, diffDays, d);
      var q := RowsInRange(p, start, diffDays);
      if InRange(x, start, diffDays) {
        assert RowsInRange(rows, start, diffDays) == q + [x];
        assert (q + [x])[..|q|] == q;
      } else {
        assert RowsInRange(rows, start, diffDays) == q;
        assert x.day != d;
      }
    }
  }

  /** The series has Max(diffDays + 1, 0) entries, one per consecutive day from the start. */
  lemma DailySeriesShape(start: int, diffDays: int, rows: seq<PageView>)
    ensures var s := DailySeries(start, diffDays, rows);
      |s| == Max(diffDays + 1, 0) &&
      (|s| > 0 ==> s[0].day == start && s[|s| - 1].day == start + diffDays) &&
      (forall i :: 0 <= i < |s| - 1 ==> s[i + 1].day == s[i].day + 1)
  {
  }

  /** Every day of the series has at most as many visitors as views, and a day without rows is zero. */
  lemma DailySeriesCounts(start: int, diffDays: int, rows: seq<PageView>)
    ensures var s := DailySeries(start, diffDays, rows);
      (forall i :: 0 <= i < |s| ==> s[i].visitors <= s[i].views) &&
      (forall i :: 0 <= i < |s| && (forall k :: 0 <= k < |rows| ==> rows[k].day != s[i].day) ==>
         s[i].views == 0 && s[i].visitors == 0)
  {
    var s := DailySeries(start, diffDays, rows);
    forall i | 0 <= i < |s| ensures s[i].visitors <= s[i].views {
      VisitorsAtMostViews(rows, start + i);
    }
    forall i | 0 <= i < |s| && (forall k :: 0 <= k < |rows| ==> rows[k].day != s[i].day)
      ensures s[i].views == 0 && s[i].visitors == 0
    {
      QuietDay(rows, start + i);
    }
  }

  /** Rows outside the range do not change the series. */
  lemma DailySeriesIgnoresOutOfRange(start: int, diffDays: int, rows: seq<PageView>)
    ensures DailySeries(start, diffDays, RowsInRange(rows, start, diffDays)) == DailySeries(start, diffDays, rows)
  {
    var a := DailySeries(start, diffDays, RowsInRange(rows, start, diffDays));
    var b := DailySeries(start, diffDays, rows);
    forall i | 0 <= i < |a| ensures a[i] == b[i] {
      InRangeViews(rows, start, diffDays, start + i);
      InRangeSessions(rows, start, diffDays, start + i);
    }
  }

  datatype Bucket = Bucket(views: nat, visitors: set<string>)

  /** The buckets hold one entry per day of [start, start + n), each counting `rows` on that day. */
  ghost predicate Tracks(buckets: map<int, Bucket>, start: int, n: nat, rows: seq<PageView>)
  {
    && (forall d :: d in buckets <==> start <= d < start + n)
    && (forall d :: d in buckets ==> buckets[d] == Bucket(ViewsOn(rows, d), SessionsOn(rows, d)))
  }

  /** `allDates`: the consecutive days from the start, `diffDays + 1` of them. */
  method AllDates(start: int, diffDays: int) returns (dates: seq<int>)
    ensures |dates| == Max(diffDays + 1, 0)
    ensures forall k :: 0 <= k < |dates| ==> dates[k] == start + k
  {
    dates := [];
    var i := 0;
    while i <= diffDays
      invariant 0 <= i <= Max(diffDays + 1, 0)
      invariant |dates| == i
      invariant forall k :: 0 <= k < i ==> dates[k] == start + k
    {
      dates := dates + [start + i];
      i := i + 1;
    }
  }

  /** A zero bucket for every date. */
  method ZeroBuckets(start: int, dates: seq<int>) returns (buckets: map<int, Bucket>)
    requires forall k :: 0 <= k < |dates| ==> dates[k] == start + k
    ensures Tracks(buckets, start, |dates|, [])
  {
    buckets := map[];
    for k := 0 to |dates|
      invariant forall d :: d in buckets <==> start <= d < start + k
      invariant forall d :: d in buckets ==> buckets[d] == Bucket(0, {})
    {
      buckets := buckets[dates[k] := Bucket(0, {})];
    }
  }

  /** Counting row `k` into the bucket of its day, if it has one. */
  function CountRow(buckets: map<int, Bucket>, item: PageView): map<int, Bucket>
  {
    if item.day in buckets then
      buckets[item.day := Bucket(buckets[item.day].views + 1, buckets[item.day].visitors + {item.sessionId})]
    else buckets
  }

  lemma FillStep(buckets: map<int, Bucket>, start: int, n: nat, rows: seq<PageView>, k: nat)
    requires k < |rows|
    requires Tracks(buckets, start, n, rows[..k])
    ensures Tracks(CountRow(buckets, rows[k]), start, n, rows[..k + 1])
  {
    var r := CountRow(buckets, rows[k]);
    forall d | d in r
      ensures r[d] == Bucket(ViewsOn(rows[..k + 1], d), SessionsOn(rows[..k + 1], d))
    {
      DayCountsStep(rows, k, d);
    }
  }

  /** The fill loop: every row lands in the bucket of its day; rows outside the range are skipped. */
  method FillBuckets(start: int, n: nat, zero: map<int, Bucket>, rows: seq<PageView>) returns (buckets: map<int, Bucket>)
    requires Tracks(zero, start, n, [])
    ensures Tracks(buckets, start, n, rows)
  {
    buckets := zero;
    assert rows[..0] == [];
    for k := 0 to |rows|
      invariant Tracks(buckets, start, n, rows[..k])
    {
      FillStep(buckets, start, n, rows, k);
      buckets := CountRow(buckets, rows[k]);
    }
    assert rows[..|rows|] == rows;
  }

  /**
   * Builds `allDates`, zero-initialises a bucket per date, counts each row
   * into the bucket of its day when there is one, and lists the buckets in
   * date order.
   */
  method BuildDailySeries(start: int, diffDays: int, rows: seq<PageView>) returns (series: seq<DayStat>)
    ensures series == DailySeries(start, diffDays, rows)
  {
    var allDates := AllDates(start, diffDays);
    var zero := ZeroBuckets(start, allDates);
    var buckets := FillBuckets(start, |allDates|, zero, rows);
    series := [];
    for k := 0 to |allDates|
      invariant |series| == k
      invariant forall m :: 0 <= m < k ==> series[m] == DailySeries(start, diffDays, rows)[m]
    {
      var b := buckets[allDates[k]];
      series := series + [DayStat(allDates[k], b.views, |b.visitors|)];
    }
  }

  // ---------------------------------------------------------------------
  // Device types

  datatype Device = Mobile | Tablet | Desktop

  function DeviceName(d: Device): string
  {
    match d
    case Mobile => "Mobile"
    case Tablet => "Tablet"
    case Desktop => "Desktop"
  }

  /** Coarse user-agent classification on the lower-cased user agent. */
  function Classify(userAgent: string): Device
  {
    var ua := ToLower(userAgent);
    if Includes(ua, "mobile") || Includes(ua, "android") || Includes(ua, "iphone") then Mobile
    else if Includes(ua, "tablet") || Includes(ua, "ipad") then Tablet
    else Desktop
  }

  /** A marker occurs in the lower-cased user agent. */
  ghost predicate Mentions(userAgent: string, marker: string)
  {
    exists i :: OccursAt(ToLower(userAgent), marker, i)
  }

  /**
   * Mobile exactly when "mobile", "android" or "iphone" occurs; Tablet
   * exactly when none of those but "tablet" or "ipad" does; Desktop
   * otherwise. The Mobile markers are checked first, so an iPad user agent
   * that also says "mobile" is Mobile.
   */
  lemma ClassifyByMarkers(userAgent: string)
    ensures Classify(userAgent) == Mobile <==>
      Mentions(userAgent, "mobile") || Mentions(userAgent, "android") || Mentions(userAgent, "iphone")
    ensures Classify(userAgent) == Tablet <==>
      !(Mentions(userAgent, "mobile") || Mentions(userAgent, "android") || Mentions(userAgent, "iphone")) &&
      (Mentions(userAgent, "tablet") || Mentions(userAgent, "ipad"))
    ensures Classify(userAgent) == Desktop <==>
      !(Mentions(userAgent, "mobile") || Mentions(userAgent, "android") || Mentions(userAgent, "iphone") ||
        Mentions(userAgent, "tablet") || Mentions(userAgent, "ipad"))
  {
  }

  function DeviceKeys(rows: seq<PageView>): seq<string>
  {
    seq(|rows|, i requires 0 <= i < |rows| => DeviceName(Classify(rows[i].userAgent)))
  }

  /** `Object.entries(deviceCounts)`: not sorted, not truncated. */
  function DeviceStats(rows: seq<PageView>): seq<Entry<string>>
  {
    Tallied(DeviceKeys(rows))
  }

  /** Every device key is one of the three device names. */
  lemma DeviceKeysNamed(rows: seq<PageView>)
    ensures forall k :: k in DeviceKeys(rows) ==> k in ["Mobile", "Tablet", "Desktop"]
  {
    forall k | k in DeviceKeys(rows) ensures k in ["Mobile", "Tablet", "Desktop"] {
      var i :| 0 <= i < |rows| && DeviceKeys(rows)[i] == k;
      match Classify(rows[i].userAgent)
      case Mobile =>
      case Tablet =>
      case Desktop =>
    }
  }

  /**
   * The device counts add up to the number of rows; only device types that
   * occur are listed, each once, with the number of rows classified so.
   */
  lemma DeviceStatsFacts(rows: seq<PageView>)
    ensures var r := DeviceStats(rows);
      SumCounts(r) == |rows| &&
      Distinct(r) &&
      (forall e :: e in r ==> e.count > 0 && e.count == Count(DeviceKeys(rows), e.key)) &&
      (forall e :: e in r ==> e.key in ["Mobile", "Tablet", "Desktop"])
  {
    var keys := DeviceKeys(rows);
    TalliedSum(keys);
    TalliedEntries(keys);
    DeviceKeysNamed(rows);
  }

  // ---------------------------------------------------------------------
  // Referrers

  /**
   * `item.referrer || "Direct"`, then the hostname of `new URL(referrer)`
   * unless the value is "Direct". `host` is the URL parser's hostname; None
   * is a referrer the parser rejects, where `new URL` throws.
   */
  function ReferrerKey(referrer: string, host: string -> Option<string>): Option<string>
  {
    if referrer == "" || referrer == "Direct" then Some("Direct") else host(referrer)
  }

  /**
   * The rows of the referrer query, which filters on `referrer <> ''`: a row
   * whose referrer is empty or null (both "" here) is not returned.
   */
  function ReferrerRows(rows: seq<PageView>): (r: seq<PageView>)
    ensures forall i :: 0 <= i < |r| ==> r[i].referrer != "" && r[i] in rows
    ensures forall i :: 0 <= i < |rows| && rows[i].referrer != "" ==> rows[i] in r
    ensures |r| <= |rows|
    ensures rows != [] ==>
              r == ReferrerRows(rows[..|rows| - 1]) +
                   (if rows[|rows| - 1].referrer != "" then [rows[|rows| - 1]] else [])
  {
    if rows == [] then []
    else
      var p := ReferrerRows(rows[..|rows| - 1]);
      var last := rows[|rows| - 1];
      assert forall i :: 0 <= i < |rows| - 1 ==> rows[i] == rows[..|rows| - 1][i];
      if last.referrer != "" then p + [last] else p
  }

  /** The referrer keys of all rows, or None if one of them throws. */
  function ReferrerKeys(rows: seq<PageView>, host: string -> Option<string>): (r: Option<seq<string>>)
    ensures r.Some? ==> |r.value| == |rows|
  {
    if rows == [] then Some([])
    else
      match ReferrerKeys(rows[..|rows| - 1], host)
      case None => None
      case Some(ks) =>
        match ReferrerKey(rows[|rows| - 1].referrer, host)
        case None => None
        case Some(k) => Some(ks + [k])
  }

  /** The keys are computed row by row, and fail exactly when some row's referrer does not parse. */
  lemma {:induction false} ReferrerKeysSpec(rows: seq<PageView>, host: string -> Option<string>)
    ensures ReferrerKeys(rows, host).None? <==>
      exists i :: 0 <= i < |rows| && ReferrerKey(rows[i].referrer, host).None?
    ensures ReferrerKeys(rows, host).Some? ==>
      forall i :: 0 <= i < |rows| ==> ReferrerKeys(rows, host).value[i] == ReferrerKey(rows[i].referrer, host).value
  {
    if rows != [] {
      var p := rows[..|rows| - 1];
      ReferrerKeysSpec(p, host);
      if ReferrerKey(rows[|rows| - 1].referrer, host).None? {
        assert ReferrerKey(rows[|rows| - 1].referrer, host).None?;
      }
      if exists i :: 0 <= i < |p| && ReferrerKey(p[i].referrer, host).None? {
        var i :| 0 <= i < |p| && ReferrerKey(p[i].referrer, host).None?;
        assert rows[i] == p[i];
      }
      if exists i :: 0 <= i < |rows| && ReferrerKey(rows[i].referrer, host).None? {
        var i :| 0 <= i < |rows| && ReferrerKey(rows[i].referrer, host).None?;
        if i < |p| {
          assert p[i] == rows[i];
        }
      }
    }
  }

  function ReferrerStats(keys: seq<string>): seq<Entry<string>>
  {
    TopN(Tallied(keys), TopCount)
  }

  /**
   * A row with a falsy referrer is counted under "Direct": its key is
   * "Direct", so the "Direct" entry, when listed, counts every such row.
   */
  lemma FalsyReferrerIsDirect(rows: seq<PageView>, host: string -> Option<string>, i: nat)
    requires i < |rows| && rows[i].referrer == "" && ReferrerKeys(rows, host).Some?
    ensures ReferrerKeys(rows, host).value[i] == "Direct"
    ensures forall e :: e in ReferrerStats(ReferrerKeys(rows, host).value) && e.key == "Direct" ==> e.count > 0
  {
    ReferrerKeysSpec(rows, host);
    TopTallyExact(ReferrerKeys(rows, host).value, TopCount);
  }

  /** The referrer ranking keeps the guarantees of a top-ten tally. */
  lemma ReferrerStatsFacts(keys: seq<string>)
    ensures var r := ReferrerStats(keys);
      |r| <= TopCount && NonIncreasing(r) &&
      (forall i, j :: 0 <= i < j < |r| ==> r[i].key != r[j].key) &&
      (forall e :: e in r ==> e.key in keys && e.count == Count(keys, e.key))
  {
    TopTallyExact(keys, TopCount);
  }

  // ---------------------------------------------------------------------
  // Synthetic fallback

  function SumViews(days: seq<DayStat>): nat
  {
    if days == [] then 0 else SumViews(days[..|days| - 1]) + days[|days| - 1].views
  }

  const SamplePaths: seq<string> := ["/", "/panduan", "/panduan/evakuasi", "/panduan/luka", "/panduan/fraktur"]
  const SampleDevices: seq<string> := ["Desktop", "Mobile", "Tablet"]
  const SampleReferrers: seq<string> := ["Direct", "google.com", "facebook.com"]

  /** What the fallback generator promises about any statistics it produces. */
  ghost predicate IsSample(s: AnalyticsStats, start: int, diffDays: int)
  {
    && |s.dailyStats| == Max(diffDays + 1, 0)
    && (forall i :: 0 <= i < |s.dailyStats| ==> s.dailyStats[i].day == start + i)
    && (forall i :: 0 <= i < |s.dailyStats| ==>
          1 <= s.dailyStats[i].visitors <= s.dailyStats[i].views <= 24)
    && s.totalPageViews == SumViews(s.dailyStats)
    && s.uniqueVisitors <= s.totalPageViews
    && Keys(s.topPages) == SamplePaths && SumCounts(s.topPages) <= s.totalPageViews
    && Keys(s.deviceStats) == SampleDevices && SumCounts(s.deviceStats) <= s.totalPageViews
    && Keys(s.referrerStats) == SampleReferrers && SumCounts(s.referrerStats) <= s.totalPageViews
    && |s.recentActivity| == 3
  }

  /** No entry counts more than the whole list together. */
  lemma {:induction false} EntryAtMostSum<K>(es: seq<Entry<K>>, e: Entry<K>)
    requires e in es
    ensures e.count <= SumCounts(es)
  {
    if es[0] != e {
      EntryAtMostSum(es[1..], e);
    }
  }

  /** Every count of a sample is at most its total page views. */
  lemma SampleCountsBounded(s: AnalyticsStats, start: int, diffDays: int)
    requires IsSample(s, start, diffDays)
    ensures forall e :: e in s.topPages + s.deviceStats + s.referrerStats ==> e.count <= s.totalPageViews
  {
    forall e | e in s.topPages + s.deviceStats + s.referrerStats ensures e.count <= s.totalPageViews {
      if e in s.topPages {
        EntryAtMostSum(s.topPages, e);
      } else if e in s.deviceStats {
        EntryAtMostSum(s.deviceStats, e);
      } else {
        EntryAtMostSum(s.referrerStats, e);
      }
    }
  }

  /** Keys and sum of a three-entry list, spelled out. */
  lemma Listed3<K>(a: Entry<K>, b: Entry<K>, c: Entry<K>)
    ensures Keys([a, b, c]) == [a.key, b.key, c.key]
    ensures SumCounts([a, b, c]) == a.count + b.count + c.count
  {
    assert [a, b, c][1..] == [b, c];
    assert [b, c][1..] == [c];
    assert [c][1..] == [];
    assert Keys([c]) == [c.key] && SumCounts([c]) == c.count;
    assert Keys([b, c]) == [b.key, c.key] && SumCounts([b, c]) == b.count + c.count;
  }

  /** Keys and sum of a five-entry list, spelled out. */
  lemma Listed5<K>(a: Entry<K>, b: Entry<K>, c: Entry<K>, d: Entry<K>, e: Entry<K>)
    ensures Keys([a, b, c, d, e]) == [a.key, b.key, c.key, d.key, e.key]
    ensures SumCounts([a, b, c, d, e]) == a.count + b.count + c.count + d.count + e.count
  {
    assert [a, b, c, d, e][1..] == [b, c, d, e];
    assert [b, c, d, e][1..] == [c, d, e];
    Listed3(c, d, e);
  }

  /** `Math.floor(total * p / 100)` for the fixed shares of the generator. */
  function Share(total: nat, percent: nat): nat
  {
    total * percent / 100
  }

  lemma ShareSum(t: nat)
    ensures Share(t, 40) + Share(t, 25) + Share(t, 15) + Share(t, 10) + Share(t, 10) <= t
    ensures Share(t, 60) + Share(t, 35) + Share(t, 5) <= t
    ensures Share(t, 60) + Share(t, 30) + Share(t, 10) <= t
  {
  }

  /**
   * The fallback generator. Each of the source's `Math.random()` draws is a
   * nondeterministic choice in the range the source maps it to: the base
   * views in 1..15 and an occasional spike in 0..9. Fractions of a total
   * are taken as integer percentages, rounded down.
   */
  method GenerateSample(start: int, diffDays: int, now: int) returns (stats: AnalyticsStats)
    ensures IsSample(stats, start, diffDays)
  {
    var daily: seq<DayStat> := [];
    var total: nat := 0;
    var i := 0;
    while i <= diffDays
      invariant 0 <= i <= Max(diffDays + 1, 0)
      invariant |daily| == i
      invariant forall k :: 0 <= k < i ==> daily[k].day == start + k
      invariant forall k :: 0 <= k < i ==> 1 <= daily[k].visitors <= daily[k].views <= 24
      invariant total == SumViews(daily)
    {
      var baseViews: nat :| 1 <= baseViews <= 15;
      var extraViews: nat :| extraViews <= 9;
      var views := baseViews + extraViews;
      var visitors := Max(1, views * 6 / 10);
      assert (daily + [DayStat(start + i, views, visitors)])[..|daily|] == daily;
      daily := daily + [DayStat(start + i, views, visitors)];
      total := total + views;
      i := i + 1;
    }
    ShareSum(total);
    Listed5(Entry("/", Share(total, 40)), Entry("/panduan", Share(total, 25)),
            Entry("/panduan/evakuasi", Share(total, 15)), Entry("/panduan/luka", Share(total, 10)),
            Entry("/panduan/fraktur", Share(total, 10)));
    Listed3(Entry("Desktop", Share(total, 60)), Entry("Mobile", Share(total, 35)), Entry("Tablet", Share(total, 5)));
    Listed3(Entry("Direct", Share(total, 60)), Entry("google.com", Share(total, 30)),
            Entry("facebook.com", Share(total, 10)));
    var topPages := [Entry("/", Share(total, 40)), Entry("/panduan", Share(total, 25)),
                     Entry("/panduan/evakuasi", Share(total, 15)), Entry("/panduan/luka", Share(total, 10)),
                     Entry("/panduan/fraktur", Share(total, 10))];
    var deviceStats := [Entry("Desktop", Share(total, 60)), Entry("Mobile", Share(total, 35)),
                        Entry("Tablet", Share(total, 5))];
    var referrerStats := [Entry("Direct", Share(total, 60)), Entry("google.com", Share(total, 30)),
                          Entry("facebook.com", Share(total, 10))];
    stats := AnalyticsStats(
      total,
      total * 7 / 10,
      topPages,
      daily,
      [Activity("/", now, None, "Mozilla/5.0..."),
       Activity("/panduan", now - 300000, None, "Mozilla/5.0..."),
       Activity("/panduan/evakuasi", now - 600000, Some("12345"), "Mozilla/5.0...")],
      deviceStats,
      referrerStats);
  }

  // ---------------------------------------------------------------------
  // The whole aggregation

  /** The statistics the real-data path returns when nothing throws. */
  function RealStats(totalCount: Option<nat>, rows: seq<PageView>, recent: seq<Activity>,
                     referrerKeys: seq<string>, start: int, diffDays: int): AnalyticsStats
  {
    AnalyticsStats(
      totalCount.GetOr(0),
      UniqueVisitors(rows),
      TopPages(rows),
      DailySeries(start, diffDays, rows),
      recent,
      DeviceStats(rows),
      ReferrerStats(referrerKeys))
  }

  /**
   * `getAnalyticsStats`. The queries are inputs: `tableReachable` is the
   * outcome of the probe query, `totalCount` the exact-count query (null is
   * None), `rows` the page-view rows of the range, `recent` the five most
   * recent rows joined with student names, and `queryThrew` a failure
   * thrown by any query. A referrer the URL parser rejects throws as well.
   * Every throw inside the outer try ends in the empty result.
   */
  method GetAnalyticsStats(tableReachable: bool, start: int, diffDays: int, now: int,
                           totalCount: Option<nat>, rows: seq<PageView>, recent: seq<Activity>,
                           queryThrew: bool, host: string -> Option<string>)
    returns (stats: AnalyticsStats)
    ensures !tableReachable ==> IsSample(stats, start, diffDays)
    ensures tableReachable && (queryThrew || ReferrerKeys(ReferrerRows(rows), host).None?) ==> stats == EmptyStats
    ensures tableReachable && !queryThrew && ReferrerKeys(ReferrerRows(rows), host).Some? ==>
      stats == RealStats(totalCount, rows, recent, ReferrerKeys(ReferrerRows(rows), host).value, start, diffDays)
  {
    if !tableReachable {
      stats := GenerateSample(start, diffDays, now);
      return;
    }
    if queryThrew {
      return EmptyStats;
    }
    var referrerKeys := ReferrerKeys(ReferrerRows(rows), host);
    if referrerKeys.None? {
      return EmptyStats;
    }

    var pathKeys, pathCounts := CountByKey(Paths(rows));
    CountByKeyEntries(Paths(rows), pathKeys, pathCounts);
    var topPages := TopN(EntriesOf(pathKeys, pathCounts), TopCount);

    var dailyStats := BuildDailySeries(start, diffDays, rows);

    var deviceKeys, deviceCounts := CountByKey(DeviceKeys(rows));
    CountByKeyEntries(DeviceKeys(rows), deviceKeys, deviceCounts);
    var deviceStats := EntriesOf(deviceKeys, deviceCounts);

    var refKeys, refCounts := CountByKey(referrerKeys.value);
    CountByKeyEntries(referrerKeys.value, refKeys, refCounts);
    var referrerStats := TopN(EntriesOf(refKeys, refCounts), TopCount);

    stats := AnalyticsStats(totalCount.GetOr(0), UniqueVisitors(rows), topPages, dailyStats,
                            recent, deviceStats, referrerStats);
  }

  /**
   * When the total count is the number of rows read, unique visitors never
   * exceed the total page views.
   */
  lemma UniqueVisitorsBound(totalCount: Option<nat>, rows: seq<PageView>, recent: seq<Activity>,
                            referrerKeys: seq<string>, start: int, diffDays: int)
    requires totalCount == Some(|rows|)
    ensures var s := RealStats(totalCount, rows, recent, referrerKeys, start, diffDays);
      s.uniqueVisitors <= s.totalPageViews
  {
    UniqueVisitorsAtMostRows(rows);
  }
}
