/** The AlphaVantage quote source (friartuck/alphavantage/alphavantage.py):
    the daily and the intraday time series. The query endpoint is the
    parameter `respond`, which maps the request to the series it returns
    (`None` when the response has no series key); each series entry is keyed
    by its timestamp. */
module AlphaVantage {
  import opened Common
  import opened Clock
  import opened Bars

  /** The `outputsize` request parameter. */
  datatype OutputSize = Compact | Full

  /** One series entry: its timestamp and its `1. open` to `5. volume`
      figures. */
  datatype Entry = Entry(time: int, open: real, high: real, low: real, close: real, volume: int)

  /** The bar of an entry, stamped `t`, with price = close. */
  function EntryBar(e: Entry, t: int): Bar {
    Bar(t, Some(e.close), Some(e.open), Some(e.high), Some(e.low), Some(e.close), e.volume)
  }

  // ---------------------------------------------------------------- daily

  /** The daily request asks for the full history only for more than 100
      bars. */
  function DailyOutputSize(bars: int): (size: OutputSize)
    ensures size == Full <==> bars > 100
  {
    if bars > 100 then Full else Compact
  }

  /** The daily bars as the loop leaves them: each entry's bar in front of
      those of the entries before it. */
  function Prepended(entries: seq<Entry>): (r: seq<Bar>)
    ensures |r| == |entries|
    ensures forall i :: 0 <= i < |r| ==>
      r[i] == EntryBar(entries[|entries| - 1 - i], entries[|entries| - 1 - i].time)
  {
    if entries == [] then []
    else
      var e := entries[|entries| - 1];
      var rest := Prepended(entries[..|entries| - 1]);
      [EntryBar(e, e.time)] + rest
  }

  /** What `get_quote_daily` returns: the last `bars` of the series bars in
      time order. A response without the daily series, or with an empty one,
      raises: the placeholder frame is bound to `bars`, and `sort_index` is
      then called on `None`. */
  function DailySpec(series: Option<seq<Entry>>, bars: int): Result<seq<Bar>> {
    if series.None? || series.value == [] then Err("AttributeError: 'NoneType' object has no attribute 'sort_index'")
    else Ok(Tail(SortByTime(Prepended(series.value)), bars))
  }

  /** `AlphaVantage.get_quote_daily`. */
  method GetQuoteDaily(bars: int, respond: OutputSize -> Option<seq<Entry>>)
    returns (r: Result<seq<Bar>>, size: OutputSize)
    ensures size == DailyOutputSize(bars)
    ensures r == DailySpec(respond(size), bars)
  {
    size := DailyOutputSize(bars);
    var quoteBars: Option<seq<Bar>> := None;
    var series := respond(size);
    if series.Some? {
      var quotes := series.value;
      var i := 0;
      while i < |quotes|
        invariant 0 <= i <= |quotes|
        invariant quoteBars.None? <==> i == 0
        invariant quoteBars.Some? ==> quoteBars.value == Prepended(quotes[..i])
      {
        var e := quotes[i];
        var bar := EntryBar(e, e.time);
        assert quotes[..i + 1][..i] == quotes[..i];
        if quoteBars.None? {
          quoteBars := Some([bar]);
        } else {
          quoteBars := Some([bar] + quoteBars.value);
        }
        i := i + 1;
      }
      assert quotes[..|quotes|] == quotes;
    }
    if quoteBars.None? {
      return Err("AttributeError: 'NoneType' object has no attribute 'sort_index'"), size;
    }
    r := Ok(Tail(SortByTime(quoteBars.value), bars));
  }

  /** The daily result fails exactly when there is no series or it is
      empty. */
  lemma DailyFails(series: Option<seq<Entry>>, bars: int)
    ensures DailySpec(series, bars).Err? <==> series.None? || series.value == []
  {
  }

  /** Otherwise it is in time order and is the latest `bars` of all the
      series bars. */
  lemma DailyResult(series: Option<seq<Entry>>, bars: int)
    requires bars >= 0 && series.Some? && series.value != []
    ensures var r, all := DailySpec(series, bars).value, SortByTime(Prepended(series.value));
      SortedByTime(r) && |r| == Min(bars, |series.value|) && r == all[|all| - |r|..]
  {
    var all := SortByTime(Prepended(series.value));
    SortedSuffix(all, |all| - |Tail(all, bars)|);
  }

  /** Every series bar the daily result leaves out is no later than every
      bar it keeps. */
  lemma DailyKeepsLatest(series: Option<seq<Entry>>, bars: int)
    requires bars >= 0 && series.Some? && series.value != []
    ensures var r, all := DailySpec(series, bars).value, SortByTime(Prepended(series.value));
      forall i, j :: 0 <= i < |all| - |r| <= j < |all| ==> all[i].time <= all[j].time
  {
    var all := SortByTime(Prepended(series.value));
    SortedSplit(all, |all| - |Tail(all, bars)|);
  }

  // ------------------------------------------------------------- intraday

  /** A missing start defaults to 08:25 today. */
  function DefaultSince(now: int): (t: int)
    ensures DayOf(t) == DayOf(now) && SecondOfDay(t) == 8 * HourSecs + 25 * MinuteSecs
  {
    DayStart(now) + 8 * HourSecs + 25 * MinuteSecs
  }

  function SinceOrDefault(since: Option<int>, now: int): int {
    if since.Some? then since.value else DefaultSince(now)
  }

  /** The intraday request asks for the full history only for the
      one-minute interval, and only when the span from the start to the
      earlier of 15:00 on the start's day and the current minute exceeds
      100 minutes. The span is taken as `timedelta.seconds`: whole days are
      dropped and a negative span wraps around to the next day. */
  function IntradayOutputSize(interval: nat, since: int, now: int): (size: OutputSize)
    ensures size == Full <==>
      interval == 1 && (Min(DayStart(since) + 15 * HourSecs, FloorMinute(now)) - since) % DaySecs > 100 * MinuteSecs
  {
    if interval == 1 then
      var endTime := DayStart(since) + 15 * HourSecs;
      var nowTime := FloorMinute(now);
      var endTime' := if nowTime < endTime then nowTime else endTime;
      var seconds := (endTime' - since) % DaySecs;
      var diff := seconds as real / 60.0;
      if diff > 100.0 then Full else Compact
    else Compact
  }

  /** The minutes subtracted besides the hour: the interval length, or 0
      for the one-minute interval. */
  function MinuteAdjust(interval: nat): nat {
    if interval != 1 then interval else 0
  }

  /** A series timestamp moved back one hour and one interval. */
  function ShiftedTime(t: int, interval: nat): (s: int)
    ensures interval == 1 ==> s == t - HourSecs
    ensures interval != 1 ==> s == t - HourSecs - interval * MinuteSecs
  {
    t - HourSecs - MinuteAdjust(interval) * MinuteSecs
  }

  /** The bars the loop keeps, as it leaves them: an entry at or before the
      start is passed over, every other is put in front. */
  function KeptBars(entries: seq<Entry>, interval: nat, since: int): seq<Bar> {
    if entries == [] then []
    else
      var e := entries[|entries| - 1];
      var rest := KeptBars(entries[..|entries| - 1], interval, since);
      var t := ShiftedTime(e.time, interval);
      if since >= t then rest else [EntryBar(e, t)] + rest
  }

  /** The intraday result: the bars in time order, and the `connected`
      column shared by all rows. */
  datatype IntradayQuotes = IntradayQuotes(bars: seq<Bar>, connected: bool)

  function IntradaySpec(series: Option<seq<Entry>>, interval: nat, since: int, now: int): (r: IntradayQuotes)
    ensures r.connected <==> series.Some? && series.value != []
    ensures SortedByTime(r.bars) && |r.bars| >= 1
  {
    var kept := if series.Some? then KeptBars(series.value, interval, since) else [];
    IntradayQuotes(SortByTime(if kept == [] then [Placeholder(now)] else kept),
                   series.Some? && |series.value| > 0)
  }

  /** `AlphaVantage.get_quote_intraday`; `interval` is the number of
      minutes of the `<n>min` interval string. */
  method GetQuoteIntraday(since: Option<int>, interval: nat, now: int,
                          respond: (OutputSize, nat) -> Option<seq<Entry>>)
    returns (r: IntradayQuotes, size: OutputSize)
    ensures size == IntradayOutputSize(interval, SinceOrDefault(since, now), now)
    ensures r == IntradaySpec(respond(size, interval), interval, SinceOrDefault(since, now), now)
  {
    var start := if since.Some? then since.value else DefaultSince(now);
    size := IntradayOutputSize(interval, start, now);
    var quoteBars: Option<seq<Bar>> := None;
    var connected := false;
    var series := respond(size, interval);
    if series.Some? {
      var quotes := series.value;
      if |quotes| > 0 {
        connected := true;
      }
      var i := 0;
      while i < |quotes|
        invariant 0 <= i <= |quotes|
        invariant quoteBars.None? <==> KeptBars(quotes[..i], interval, start) == []
        invariant quoteBars.Some? ==> quoteBars.value == KeptBars(quotes[..i], interval, start)
      {
        var e := quotes[i];
        var minuteAdjust := 0;
        if interval != 1 {
          minuteAdjust := interval;
        }
        var quoteDate := e.time - HourSecs - minuteAdjust * MinuteSecs;
        assert quoteDate == ShiftedTime(e.time, interval);
        assert quotes[..i + 1][..i] == quotes[..i];
        i := i + 1;
        if start >= quoteDate {
          continue;
        }
        var bar := EntryBar(e, quoteDate);
        if quoteBars.None? {
          quoteBars := Some([bar]);
        } else {
          quoteBars := Some([bar] + quoteBars.value);
        }
      }
      assert quotes[..|quotes|] == quotes;
    }
    if quoteBars.None? {
      quoteBars := Some([Placeholder(now)]);
    }
    r := IntradayQuotes(SortByTime(quoteBars.value), connected);
  }

  /** The kept bars are exactly the shifted bars of the entries whose
      shifted time is after the start. */
  lemma {:induction false} KeptBarsExactly(entries: seq<Entry>, interval: nat, since: int)
    ensures forall i :: 0 <= i < |entries| && ShiftedTime(entries[i].time, interval) > since ==>
      EntryBar(entries[i], ShiftedTime(entries[i].time, interval)) in KeptBars(entries, interval, since)
    ensures forall b :: b in KeptBars(entries, interval, since) ==>
      b.time > since && exists i :: 0 <= i < |entries| && b == EntryBar(entries[i], ShiftedTime(entries[i].time, interval))
    decreases |entries|
  {
    if entries != [] {
      var n := |entries| - 1;
      var init := entries[..n];
      KeptBarsExactly(init, interval, since);
      var kept := KeptBars(entries, interval, since);
      forall i | 0 <= i < |entries| && ShiftedTime(entries[i].time, interval) > since
        ensures EntryBar(entries[i], ShiftedTime(entries[i].time, interval)) in kept
      {
        if i < n { assert entries[i] == init[i]; }
      }
      forall b | b in kept
        ensures b.time > since && exists i :: 0 <= i < |entries| && b == EntryBar(entries[i], ShiftedTime(entries[i].time, interval))
      {
        if b in KeptBars(init, interval, since) {
          var i :| 0 <= i < |init| && b == EntryBar(init[i], ShiftedTime(init[i].time, interval));
          assert entries[i] == init[i];
        } else {
          assert b == EntryBar(entries[n], ShiftedTime(entries[n].time, interval));
        }
      }
    }
  }

  /** Every intraday bar, unless it is the lone placeholder, is an entry's
      bar with its timestamp moved back by the hour and the interval, and
      lies after the start; every entry that lies after the start once
      moved is there. With nothing kept the result is the one placeholder,
      carrying whether the series had entries. */
  lemma IntradayResult(series: Option<seq<Entry>>, interval: nat, since: int, now: int)
    ensures var r := IntradaySpec(series, interval, since, now);
      var kept := if series.Some? then KeptBars(series.value, interval, since) else [];
      && (kept == [] ==> r.bars == [Placeholder(now)])
      && (kept != [] ==>
            (forall b :: b in r.bars ==>
               b.time > since &&
               exists i :: 0 <= i < |series.value| &&
                 b == EntryBar(series.value[i], ShiftedTime(series.value[i].time, interval))) &&
            (forall i :: 0 <= i < |series.value| && ShiftedTime(series.value[i].time, interval) > since ==>
               EntryBar(series.value[i], ShiftedTime(series.value[i].time, interval)) in r.bars))
  {
    var r := IntradaySpec(series, interval, since, now);
    var kept := if series.Some? then KeptBars(series.value, interval, since) else [];
    if kept == [] {
      var p := [Placeholder(now)];
      assert multiset(r.bars) == multiset(p);
      assert |r.bars| == 1;
      assert r.bars[0] in multiset(p);
    } else {
      KeptBarsExactly(series.value, interval, since);
      assert multiset(r.bars) == multiset(kept);
      forall b | b in r.bars ensures b in kept {
        assert b in multiset(r.bars);
      }
      forall b | b in kept ensures b in r.bars {
        assert b in multiset(kept);
      }
    }
  }
}
