/**
 * The dashboard's traffic panel: the stats it shows, the period selector
 * with its refetch rule, and the line chart's window and scale.
 */
module Dashboard {
  import opened Wrappers
  import opened JsBuiltins
  import opened Analytics

  // ---------------------------------------------------------------------
  // The line chart

  const MaxDays: nat := 90

  /** `data.slice(-Math.min(timespan, 90))`; a timespan of 0 keeps every day. */
  function DisplayData(data: seq<DayStat>, timespan: nat): (w: seq<DayStat>)
    ensures |w| == if timespan == 0 then |data| else Min(Min(timespan, MaxDays), |data|)
    ensures w == data[|data| - |w|..]
    ensures data != [] ==> w != []
  {
    SliceFrom(data, -Min(timespan, MaxDays))
  }

  /** `Math.max(...window.map(d => d.views), 1)`. */
  function MaxViews(window: seq<DayStat>): (m: nat)
    ensures m >= 1
    ensures forall i :: 0 <= i < |window| ==> window[i].views <= m
    ensures m == 1 || exists i :: 0 <= i < |window| && window[i].views == m
  {
    if window == [] then 1
    else
      var rest := MaxViews(window[1..]);
      if window[0].views >= rest then window[0].views
      else
        assert rest != 1 ==> exists i :: 1 <= i < |window| && window[i].views == rest by {
          if rest != 1 {
            var j :| 0 <= j < |window[1..]| && window[1..][j].views == rest;
            assert window[j + 1] == window[1..][j];
          }
        }
        rest
  }

  /** `Math.min(...window.map(d => d.views))` on a non-empty window. */
  function MinViews(window: seq<DayStat>): (m: nat)
    requires window != []
    ensures forall i :: 0 <= i < |window| ==> m <= window[i].views
    ensures exists i :: 0 <= i < |window| && window[i].views == m
  {
    if |window| == 1 then window[0].views
    else
      var rest := MinViews(window[1..]);
      if window[0].views <= rest then window[0].views
      else
        assert exists i :: 1 <= i < |window| && window[i].views == rest by {
          var j :| 0 <= j < |window[1..]| && window[1..][j].views == rest;
          assert window[j + 1] == window[1..][j];
        }
        rest
  }

  /** The bottom of the scale never lies above its top. */
  lemma MinAtMostMax(window: seq<DayStat>)
    requires window != []
    ensures MinViews(window) <= MaxViews(window)
  {
    var i :| 0 <= i < |window| && window[i].views == MinViews(window);
    assert window[i].views <= MaxViews(window);
  }

  /** The period selector's options, as `<option value>` strings. */
  const PeriodOptions: seq<string> := ["7", "14", "30", "90"]

  /** `parseInt` of an option is its number of days, and the window shows that many days or all there are. */
  lemma {:induction false} OptionWindow(data: seq<DayStat>, option: string)
    requires option in PeriodOptions
    ensures var days := LeadingNumber(option);
      (option == "7" ==> days == 7) && (option == "14" ==> days == 14) &&
      (option == "30" ==> days == 30) && (option == "90" ==> days == 90) &&
      |DisplayData(data, days)| == Min(days, |data|)
  {
    assert option == "7" || option == "14" || option == "30" || option == "90";
    assert LeadingDigits(option) == |option|;
    assert option[..|option|] == option;
  }

  /** What the traffic panel shows. */
  datatype TrendView = Skeleton | NoTraffic | Trend(window: seq<DayStat>, maxViews: nat, minViews: nat)

  /** The stats in the panel: the route's stats, or the `{ error }` body it sends with status 500. */
  datatype Shown = Stats(stats: AnalyticsStats) | ErrorBody(message: string)

  /** `stats.dailyStats`; an error body has none. */
  function DailyStatsOf(shown: Shown): Option<seq<DayStat>>
  {
    if shown.Stats? then Some(shown.stats.dailyStats) else None
  }

  /** The panel for the loading flag, the shown stats and the selected period string. */
  function TrendPanel(loading: bool, shown: Shown, timespan: string): (v: TrendView)
    ensures loading ==> v == Skeleton
    ensures !loading && (shown.ErrorBody? || shown.stats.dailyStats == []) ==> v == NoTraffic
    ensures v.Trend? ==>
      v.window == DisplayData(shown.stats.dailyStats, LeadingNumber(timespan)) &&
      v.window != [] &&
      v.minViews <= v.maxViews &&
      (forall i :: 0 <= i < |v.window| ==> v.minViews <= v.window[i].views <= v.maxViews)
    ensures !loading && shown.Stats? && shown.stats.dailyStats != [] ==> v.Trend?
  {
    if loading then Skeleton
    else
      match DailyStatsOf(shown)
      case None => NoTraffic
      case Some(daily) =>
        if daily == [] then NoTraffic
        else
          var window := DisplayData(daily, LeadingNumber(timespan));
          MinAtMostMax(window);
          Trend(window, MaxViews(window), MinViews(window))
  }

  // ---------------------------------------------------------------------
  // Fetching and the period selector

  /** `fetch` then `response.json()`: a body, or a rejection (network failure, unparsable body). */
  datatype FetchResponse = Body(shown: Shown) | FetchFailed

  const DefaultTimespan: string := "30"

  class DashboardPanel {
    var stats: Shown
    var timespan: string
    var loading: bool
    /** The `days` of every request sent, in order. */
    var requests: seq<string>

    /** Mounting: the effect sees "30" and does not fetch. */
    constructor (initial: AnalyticsStats)
      ensures stats == Stats(initial) && timespan == DefaultTimespan && !loading && requests == []
    {
      stats := Stats(initial);
      timespan := DefaultTimespan;
      loading := false;
      requests := [];
    }

    /** `fetchAnalytics(days)`: any body replaces the stats; a rejection keeps them. */
    method FetchAnalytics(days: string, response: FetchResponse)
      modifies this
      ensures requests == old(requests) + [days]
      ensures response.Body? ==> stats == response.shown
      ensures response.FetchFailed? ==> stats == old(stats)
      ensures timespan == old(timespan) && !loading
    {
      loading := true;
      requests := requests + [days];
      if response.Body? {
        stats := response.shown;
      }
      loading := false;
    }

    /**
     * `setTimespan(value)` followed by the effect on `[timespan]`: a fetch
     * for the new period when it changed and is not "30".
     */
    method SelectTimespan(value: string, response: FetchResponse)
      modifies this
      ensures timespan == value
      ensures value != old(timespan) && value != DefaultTimespan ==>
        requests == old(requests) + [value] && !loading &&
        stats == (if response.Body? then response.shown else old(stats))
      ensures value == old(timespan) || value == DefaultTimespan ==>
        requests == old(requests) && stats == old(stats) && loading == old(loading)
    {
      var changed := value != timespan;
      timespan := value;
      if changed && timespan != DefaultTimespan {
        FetchAnalytics(timespan, response);
      }
    }
  }
}
