/** The IEX quote source (friartuck/iextrading/iextrading.py): the daily
    chart with its range selection and `before_date` cut-off, the aggregation
    of minute records into N-minute bars (`summarize_quote`), and the walk
    back over trading days that gathers enough intraday bars. The chart
    endpoint is the parameter `chart`; the per-day fetch, cache included, is
    the parameter `fetchDay`. */
module IexTrading {
  import opened Common
  import opened Clock
  import opened Bars

  // ---------------------------------------------------------------- daily

  /** The chart ranges `1m`, `3m`, `6m`, `1y`, `2y`, `5y`. */
  datatype Range = OneMonth | ThreeMonths | SixMonths | OneYear | TwoYears | FiveYears

  function RangeRank(r: Range): nat {
    match r
    case OneMonth => 0
    case ThreeMonths => 1
    case SixMonths => 2
    case OneYear => 3
    case TwoYears => 4
    case FiveYears => 5
  }

  /** The bar counts a range is chosen for: up to 20, 60, 120, 240, 480
      bars, and any count for five years. */
  predicate Holds(r: Range, bars: int) {
    match r
    case OneMonth => bars <= 20
    case ThreeMonths => bars <= 60
    case SixMonths => bars <= 120
    case OneYear => bars <= 240
    case TwoYears => bars <= 480
    case FiveYears => true
  }

  /** `query_length`: the shortest range that holds the bar count. */
  function QueryLength(bars: int): (r: Range)
    ensures Holds(r, bars)
    ensures forall s :: RangeRank(s) < RangeRank(r) ==> !Holds(s, bars)
  {
    if bars <= 20 then OneMonth
    else if bars <= 60 then ThreeMonths
    else if bars <= 120 then SixMonths
    else if bars <= 240 then OneYear
    else if bars <= 480 then TwoYears
    else FiveYears
  }

  /** More bars never select a shorter range. */
  lemma QueryLengthMonotone(a: int, b: int)
    requires a <= b
    ensures RangeRank(QueryLength(a)) <= RangeRank(QueryLength(b))
  {
  }

  /** One record of the daily chart: its day number and prices. */
  datatype DailyRecord = DailyRecord(day: int, open: real, high: real, low: real, close: real, volume: int)

  /** The bar of one daily record, stamped at midnight, price = close. */
  function DailyBar(q: DailyRecord): Bar {
    Bar(q.day * DaySecs, Some(q.close), Some(q.open), Some(q.high), Some(q.low), Some(q.close), q.volume)
  }

  function DailyBars(qs: seq<DailyRecord>): (r: seq<Bar>)
    ensures |r| == |qs|
  {
    if qs == [] then [] else DailyBars(qs[..|qs| - 1]) + [DailyBar(qs[|qs| - 1])]
  }

  /** The bars of the records, one each, in order. */
  lemma {:induction false} DailyBarsAt(qs: seq<DailyRecord>)
    ensures forall j :: 0 <= j < |qs| ==> DailyBars(qs)[j] == DailyBar(qs[j])
    decreases |qs|
  {
    if qs != [] {
      DailyBarsAt(qs[..|qs| - 1]);
    }
  }

  /** The bar count grown by the days between `before` and today. */
  function DailyBarCount(bars: int, today: int, before: Option<int>): int {
    if before.Some? && today - before.value > 0 then bars + (today - before.value) else bars
  }

  /** Where the quote loop breaks: at the first record dated on or after
      `before`. */
  function CutOff(quotes: seq<DailyRecord>, before: Option<int>): (k: nat)
    ensures k <= |quotes|
    ensures forall i :: 0 <= i < k ==> before.None? || quotes[i].day < before.value
    ensures k < |quotes| ==> before.Some? && quotes[k].day >= before.value
  {
    if quotes == [] || (before.Some? && quotes[0].day >= before.value) then 0
    else 1 + CutOff(quotes[1..], before)
  }

  /** What `get_quote_daily` returns for the chart records. With no record
      ahead of the cut-off it raises: the placeholder frame is bound to
      `bars`, and `None.tail` is then called. */
  function DailySpec(quotes: seq<DailyRecord>, bars: int, today: int, before: Option<int>): Result<seq<Bar>> {
    var k := CutOff(quotes, before);
    if k == 0 then Err("AttributeError: 'NoneType' object has no attribute 'tail'")
    else Ok(Tail(DailyBars(quotes[..k]), DailyBarCount(bars, today, before)))
  }

  /** `IEXTrading.get_quote_daily`; `today` is the day number of `now`. */
  method GetQuoteDaily(bars: int, today: int, before: Option<int>, chart: Range -> seq<DailyRecord>)
    returns (r: Result<seq<Bar>>, range: Range)
    ensures range == QueryLength(DailyBarCount(bars, today, before))
    ensures r == DailySpec(chart(range), bars, today, before)
  {
    var n := bars;
    if before.Some? {
      var dayDiff := today - before.value;
      if dayDiff > 0 {
        n := n + dayDiff;
      }
    }
    range := QueryLength(n);
    var quotes := chart(range);
    var barsDf := CollectDaily(quotes, before);
    if barsDf.None? {
      return Err("AttributeError: 'NoneType' object has no attribute 'tail'"), range;
    }
    r := Ok(Tail(barsDf.value, n));
  }

  /** The record loop of `get_quote_daily`: one bar per record, appended in
      chart order, up to the first record on or after `before`; the frame
      stays unset when that is the first record. */
  method CollectDaily(quotes: seq<DailyRecord>, before: Option<int>) returns (barsDf: Option<seq<Bar>>)
    ensures var k := CutOff(quotes, before);
      barsDf == if k == 0 then None else Some(DailyBars(quotes[..k]))
  {
    barsDf := None;
    var i := 0;
    while i < |quotes|
      invariant 0 <= i <= CutOff(quotes, before)
      invariant barsDf.None? <==> i == 0
      invariant barsDf.Some? ==> barsDf.value == DailyBars(quotes[..i])
    {
      if before.Some? && quotes[i].day >= before.value {
        break;
      }
      var bar := DailyBar(quotes[i]);
      assert quotes[..i + 1][..i] == quotes[..i];
      if barsDf.None? {
        barsDf := Some([bar]);
      } else {
        barsDf := Some(barsDf.value + [bar]);
      }
      assert DailyBars(quotes[..i + 1]) == DailyBars(quotes[..i]) + [bar];
      i := i + 1;
    }
  }

  /** The daily result is the last bars of the records before the cut-off,
      in chart order: none is dated on or after `before`, and there are as
      many as the grown bar count, or all of them when there are fewer. It fails exactly when no record
      precedes the cut-off. */
  lemma DailyResult(quotes: seq<DailyRecord>, bars: int, today: int, before: Option<int>)
    ensures DailySpec(quotes, bars, today, before).Err? <==>
      quotes == [] || (before.Some? && quotes[0].day >= before.value)
    ensures var r := DailySpec(quotes, bars, today, before);
      r.Ok? ==>
        (DailyBarCount(bars, today, before) >= 0 ==>
          |r.value| == Min(DailyBarCount(bars, today, before), CutOff(quotes, before))) &&
        (before.Some? ==> forall j :: 0 <= j < |r.value| ==> r.value[j].time < before.value * DaySecs) &&
        exists s :: 0 <= s <= CutOff(quotes, before) && r.value == DailyBars(quotes[s..CutOff(quotes, before)])
  {
    var k := CutOff(quotes, before);
    var r := DailySpec(quotes, bars, today, before);
    if r.Ok? {
      var all := DailyBars(quotes[..k]);
      var s := |all| - |r.value|;
      DailyBarsAt(quotes[..k]);
      DailyBarsAt(quotes[s..k]);
      assert r.value == all[s..];
      assert r.value == DailyBars(quotes[s..k]);
      if before.Some? {
        forall j | 0 <= j < |r.value| ensures r.value[j].time < before.value * DaySecs {
          assert quotes[s + j].day < before.value;
          assert quotes[s + j].day * DaySecs <= (before.value - 1) * DaySecs;
        }
      }
    }
  }

  // ------------------------------------------------------- minute records

  /** A JSON field of a minute record: missing, `null`, or a number. */
  datatype JVal = Absent | Null | Num(x: real)

  /** `get_field_value`: the field's value when it is present and truthy (not
      null, not 0), otherwise the default. */
  function GetFieldValue(v: JVal, default: real): (r: real)
    ensures v.Num? && v.x != 0.0 ==> r == v.x
    ensures !(v.Num? && v.x != 0.0) ==> r == default
  {
    if v.Num? && v.x != 0.0 then v.x else default
  }

  /** `float(record[field])` on a field that must be there: a missing key
      raises `KeyError`, a null value `TypeError`. */
  function Required(v: JVal): (r: Result<real>)
    ensures r.Ok? <==> v.Num?
    ensures v.Num? ==> r.value == v.x
  {
    match v
    case Absent => Err("KeyError")
    case Null => Err("TypeError")
    case Num(x) => Ok(x)
  }

  /** One minute record; `date` is the day number of its `YYYYMMDD` field
      (absent when the key is missing) and `minute` the minutes since
      midnight of its `HH:MM` field. */
  datatype MinuteRecord = MinuteRecord(
    date: Option<int>, minute: int,
    close: JVal, marketClose: JVal,
    open: JVal, marketOpen: JVal,
    high: JVal, marketHigh: JVal,
    low: JVal, marketLow: JVal,
    volume: JVal, marketVolume: JVal)

  /** The `active_quote` dict: the bucket being built. -1 marks a figure not
      seen yet. */
  datatype Bucket = Bucket(price: real, open: real, high: real, low: real, close: real, volume: int, date: int)

  /** The record's timestamp, shifted back one hour. */
  function RecordTime(q: MinuteRecord): int
    requires q.date.Some?
  {
    q.date.value * DaySecs + q.minute * MinuteSecs - HourSecs
  }

  /** Records passed over: no date, neither close field, or a shifted time of
      day after 15:00. */
  predicate Skipped(q: MinuteRecord) {
    q.date.None? || (q.close.Absent? && q.marketClose.Absent?) || SecondOfDay(RecordTime(q)) > 15 * HourSecs
  }

  predicate SupportedSeries(series: int) {
    series == 1 || series == 5 || series == 15 || series == 30 || series == 60
  }

  /** A record at time `t` opens a new bucket: there is none yet, or its
      minute is a multiple of the series (1, 5, 15, 30), or its hour differs
      from the bucket's (60). */
  predicate StartsBucket(active: Option<Bucket>, t: int, series: int) {
    active.None?
    || ((series == 1 || series == 5 || series == 15 || series == 30) && MinuteOf(t) % series == 0)
    || (series == 60 && HourOf(t) != HourOf(active.value.date))
  }

  /** The high a record offers: `marketHigh` when usable, else `high`. */
  function HighOf(q: MinuteRecord, high: real): real {
    IsValidValue(GetFieldValue(q.marketHigh, MissingReal), high, MissingReal)
  }

  function LowOf(q: MinuteRecord, low: real): real {
    IsValidValue(GetFieldValue(q.marketLow, MissingReal), low, MissingReal)
  }

  /** The close a record offers inside a bucket: `marketClose`, else
      `close`, else -1. */
  function CloseOf(q: MinuteRecord): real {
    IsValidValue(GetFieldValue(q.marketClose, MissingReal), GetFieldValue(q.close, MissingReal), MissingReal)
  }

  /** A new `active_quote` from the record that opens a bucket. */
  function OpenBucket(q: MinuteRecord, t: int): Result<Bucket> {
    var marketClose :=
      if q.marketClose.Num? && q.marketClose.x != 0.0
      then IsValidValue(q.marketClose.x, GetFieldValue(q.close, MissingReal), MissingReal)
      else MissingReal;
    var marketOpen :=
      if q.marketOpen.Num? && q.marketOpen.x != 0.0
      then IsValidValue(q.marketOpen.x, GetFieldValue(q.open, MissingReal), MissingReal)
      else MissingReal;
    match Required(q.high)
    case Err(e) => Err(e)
    case Ok(high) =>
      match Required(q.low)
      case Err(e) => Err(e)
      case Ok(low) =>
        match Required(q.volume)
        case Err(e) => Err(e)
        case Ok(volume) =>
          Ok(Bucket(marketClose, marketOpen, HighOf(q, high), LowOf(q, low), marketClose,
                    IsValidValue(Trunc(GetFieldValue(q.marketVolume, MissingReal)), Trunc(volume), MissingInt), t))
  }

  /** A record folded into the open bucket; only records carrying a
      `marketClose` key change it. */
  function FoldInto(a: Bucket, q: MinuteRecord): Result<Bucket> {
    if q.marketClose.Absent? then Ok(a)
    else
      var open :=
        if a.open == MissingReal
        then IsValidValue(GetFieldValue(q.marketOpen, MissingReal), GetFieldValue(q.open, MissingReal), MissingReal)
        else a.open;
      var close := CloseOf(q);
      match Required(q.marketVolume)
      case Err(e) => Err(e)
      case Ok(marketVolume) =>
        match Required(q.volume)
        case Err(e) => Err(e)
        case Ok(volume) =>
          match Required(q.high)
          case Err(e) => Err(e)
          case Ok(high) =>
            match Required(q.low)
            case Err(e) => Err(e)
            case Ok(low) =>
              var h, l := HighOf(q, high), LowOf(q, low);
              Ok(Bucket(close, open,
                        if a.high == MissingReal || a.high < h then h else a.high,
                        if a.low == MissingReal || a.low > l then l else a.low,
                        close,
                        a.volume + IsValidValue(Trunc(marketVolume), Trunc(volume), MissingInt),
                        a.date))
  }

  /** The row a finished bucket contributes. */
  function Emit(a: Bucket): Bar {
    Bar(a.date, Some(a.price), Some(a.open), Some(a.high), Some(a.low), Some(a.close), a.volume)
  }

  /** The loop variables of `summarize_quote`: the bars emitted so far and
      the active bucket. */
  datatype Summary = Summary(bars: seq<Bar>, active: Option<Bucket>)

  /** The emitted bars once the active bucket is flushed; a bucket whose
      close is still -1 is dropped. */
  function Flush(st: Summary): seq<Bar> {
    if st.active.Some? && st.active.value.close != MissingReal then st.bars + [Emit(st.active.value)]
    else st.bars
  }

  /** One iteration of the record loop of `summarize_quote`. */
  function Step(st: Summary, q: MinuteRecord, series: int): Result<Summary> {
    if Skipped(q) then Ok(st)
    else
      var t := RecordTime(q);
      if StartsBucket(st.active, t, series) then
        match OpenBucket(q, t)
        case Err(e) => Err(e)
        case Ok(b) => Ok(Summary(Flush(st), Some(b)))
      else
        match FoldInto(st.active.value, q)
        case Err(e) => Err(e)
        case Ok(b) => Ok(Summary(st.bars, Some(b)))
  }

  function Steps(st: Summary, quotes: seq<MinuteRecord>, series: int): Result<Summary>
    decreases |quotes|
  {
    if quotes == [] then Ok(st)
    else
      match Step(st, quotes[0], series)
      case Err(e) => Err(e)
      case Ok(next) => Steps(next, quotes[1..], series)
  }

  /** What `summarize_quote` returns: one placeholder for an unsupported
      series or when no bucket was emitted, otherwise the emitted buckets. */
  function SummarizeSpec(quotes: seq<MinuteRecord>, series: int, now: int): (r: Result<seq<Bar>>)
    ensures !SupportedSeries(series) ==> r == Ok([Placeholder(now)])
    ensures r.Ok? ==> |r.value| >= 1
  {
    if !SupportedSeries(series) then Ok([Placeholder(now)])
    else
      match Steps(Summary([], None), quotes, series)
      case Err(e) => Err(e)
      case Ok(st) => var bars := Flush(st); Ok(if bars == [] then [Placeholder(now)] else bars)
  }

  lemma StepsStep(st: Summary, quotes: seq<MinuteRecord>, i: int, series: int)
    requires 0 <= i < |quotes|
    ensures Steps(st, quotes[i..], series)
         == match Step(st, quotes[i], series)
            case Err(e) => Err(e)
            case Ok(next) => Steps(next, quotes[i + 1..], series)
  {
    assert quotes[i..][0] == quotes[i] && quotes[i..][1..] == quotes[i + 1..];
  }

  /** `summarize_quote`. */
  method SummarizeQuote(quotes: seq<MinuteRecord>, series: int, now: int) returns (r: Result<seq<Bar>>)
    ensures r == SummarizeSpec(quotes, series, now)
  {
    if !SupportedSeries(series) {
      return Ok([Placeholder(now)]);
    }
    var bars: seq<Bar> := [];
    var active: Option<Bucket> := None;
    var i := 0;
    while i < |quotes|
      invariant 0 <= i <= |quotes|
      invariant Steps(Summary([], None), quotes, series) == Steps(Summary(bars, active), quotes[i..], series)
    {
      StepsStep(Summary(bars, active), quotes, i, series);
      var q := quotes[i];
      i := i + 1;
      if Skipped(q) {
        continue;
      }
      var t := RecordTime(q);
      if StartsBucket(active, t, series) {
        if active.Some? && active.value.close != MissingReal {
          bars := bars + [Emit(active.value)];
        }
        var started := OpenBucket(q, t);
        if started.Err? {
          return Err(started.reason);
        }
        active := Some(started.value);
      } else {
        var folded := FoldInto(active.value, q);
        if folded.Err? {
          return Err(folded.reason);
        }
        active := Some(folded.value);
      }
    }
    if active.Some? && active.value.close != MissingReal {
      bars := bars + [Emit(active.value)];
    }
    if bars == [] {
      bars := [Placeholder(now)];
    }
    r := Ok(bars);
  }

  /** Records without a date, without any close, or after 15:00 leave the
      summary as it was. */
  lemma SkippedRecordIgnored(st: Summary, q: MinuteRecord, series: int)
    requires Skipped(q)
    ensures Step(st, q, series) == Ok(st)
  {
  }

  /** A record that opens a bucket flushes the active one (unless its close
      is -1) and starts afresh from the record; any other record folds into
      the active bucket without emitting. */
  lemma BucketBoundary(st: Summary, q: MinuteRecord, series: int)
    requires !Skipped(q)
    requires Step(st, q, series).Ok?
    ensures var next := Step(st, q, series).value;
      var t := RecordTime(q);
      if StartsBucket(st.active, t, series) then
        next.active == Some(OpenBucket(q, t).value) && next.active.value.date == t &&
        next.bars == st.bars + (if st.active.Some? && st.active.value.close != MissingReal
                                then [Emit(st.active.value)] else [])
      else
        next.bars == st.bars && next.active == Some(FoldInto(st.active.value, q).value)
  {
  }

  function MaxReal(a: real, b: real): real { if a < b then b else a }
  function MinReal(a: real, b: real): real { if a > b then b else a }

  /** Inside a bucket a record with `marketClose` keeps the running maximum
      high and minimum low (a -1 figure is replaced outright), adds its
      volume, and makes its close the bucket's price and close. */
  lemma InBucketFold(a: Bucket, q: MinuteRecord)
    requires q.marketClose != Absent
    requires FoldInto(a, q).Ok?
    ensures q.high.Num? && q.low.Num? && q.volume.Num? && q.marketVolume.Num?
    ensures var b := FoldInto(a, q).value;
      && b.high == (if a.high == MissingReal then HighOf(q, q.high.x) else MaxReal(a.high, HighOf(q, q.high.x)))
      && b.low == (if a.low == MissingReal then LowOf(q, q.low.x) else MinReal(a.low, LowOf(q, q.low.x)))
      && b.volume == a.volume + IsValidValue(Trunc(q.marketVolume.x), Trunc(q.volume.x), MissingInt)
      && b.close == CloseOf(q) && b.price == b.close
      && b.date == a.date
      && (a.open != MissingReal ==> b.open == a.open)
  {
  }

  /** The volume a record adds to an open bucket. */
  function VolumeOf(q: MinuteRecord): int {
    if q.marketClose.Absent? || !q.marketVolume.Num? || !q.volume.Num? then 0
    else IsValidValue(Trunc(q.marketVolume.x), Trunc(q.volume.x), MissingInt)
  }

  function VolumeSum(qs: seq<MinuteRecord>): int {
    if qs == [] then 0 else VolumeOf(qs[0]) + VolumeSum(qs[1..])
  }

  /** A bucket figure is either not seen yet (-1) or a price. */
  predicate PriceOrMissing(x: real) { x == MissingReal || x >= 0.0 }

  /** The record offers no negative high or low. */
  predicate NonNegativeOffers(q: MinuteRecord) {
    (q.high.Num? ==> HighOf(q, q.high.x) >= 0.0) && (q.low.Num? ==> LowOf(q, q.low.x) >= 0.0)
  }

  /** Over a run of records that all fall into one bucket, with prices that
      are not negative: the bucket's high ends at least every offered high
      and its starting high, its low at most every offered low and its
      starting low, its volume is the sum of the added volumes, and no
      bar is emitted. */
  lemma {:induction false} BucketRun(st: Summary, quotes: seq<MinuteRecord>, series: int)
    requires st.active.Some?
    requires PriceOrMissing(st.active.value.high) && PriceOrMissing(st.active.value.low)
    requires forall i :: 0 <= i < |quotes| ==>
      !Skipped(quotes[i]) && !StartsBucket(st.active, RecordTime(quotes[i]), series) && NonNegativeOffers(quotes[i])
    requires Steps(st, quotes, series).Ok?
    ensures var fin := Steps(st, quotes, series).value;
      && fin.bars == st.bars && fin.active.Some? && fin.active.value.date == st.active.value.date
      && PriceOrMissing(fin.active.value.high) && PriceOrMissing(fin.active.value.low)
      && fin.active.value.volume == st.active.value.volume + VolumeSum(quotes)
      && (st.active.value.high >= 0.0 ==> fin.active.value.high >= st.active.value.high)
      && (st.active.value.low >= 0.0 ==> fin.active.value.low <= st.active.value.low)
      && forall i :: 0 <= i < |quotes| && quotes[i].marketClose != Absent ==>
           quotes[i].high.Num? && quotes[i].low.Num? &&
           fin.active.value.high >= HighOf(quotes[i], quotes[i].high.x) &&
           fin.active.value.low <= LowOf(quotes[i], quotes[i].low.x)
    decreases |quotes|
  {
    if quotes != [] {
      var q := quotes[0];
      var a := st.active.value;
      var b := FoldInto(a, q).value;
      var next := Summary(st.bars, Some(b));
      assert Step(st, q, series) == Ok(next);
      if q.marketClose != Absent {
        InBucketFold(a, q);
      }
      assert StartsBucket(next.active, 0, series) == StartsBucket(st.active, 0, series);
      forall i | 0 <= i < |quotes[1..]|
        ensures !Skipped(quotes[1..][i]) && !StartsBucket(next.active, RecordTime(quotes[1..][i]), series)
        ensures NonNegativeOffers(quotes[1..][i])
      {
        assert quotes[1..][i] == quotes[i + 1];
      }
      BucketRun(next, quotes[1..], series);
      var fin := Steps(st, quotes, series).value;
      forall i | 0 <= i < |quotes| && quotes[i].marketClose != Absent
        ensures quotes[i].high.Num? && quotes[i].low.Num?
        ensures fin.active.value.high >= HighOf(quotes[i], quotes[i].high.x)
        ensures fin.active.value.low <= LowOf(quotes[i], quotes[i].low.x)
      {
        if i > 0 { assert quotes[i] == quotes[1..][i - 1]; }
      }
    }
  }

  predicate NoMissingClose(bars: seq<Bar>) {
    forall i :: 0 <= i < |bars| ==> bars[i].close != Some(MissingReal)
  }

  lemma {:induction false} StepsKeepClose(st: Summary, quotes: seq<MinuteRecord>, series: int)
    requires NoMissingClose(st.bars)
    requires Steps(st, quotes, series).Ok?
    ensures NoMissingClose(Flush(Steps(st, quotes, series).value))
    decreases |quotes|
  {
    if quotes == [] {
      assert NoMissingClose(Flush(st)) by {
        if st.active.Some? && st.active.value.close != MissingReal {
          assert Flush(st) == st.bars + [Emit(st.active.value)];
        }
      }
    } else {
      var next := Step(st, quotes[0], series).value;
      assert NoMissingClose(next.bars) by {
        if next.bars != st.bars {
          assert next.bars == st.bars + [Emit(st.active.value)];
        }
      }
      StepsKeepClose(next, quotes[1..], series);
    }
  }

  /** No bar `summarize_quote` returns carries the -1 close of a bucket that
      never saw one. */
  lemma SummaryHasNoMissingClose(quotes: seq<MinuteRecord>, series: int, now: int)
    requires SummarizeSpec(quotes, series, now).Ok?
    ensures NoMissingClose(SummarizeSpec(quotes, series, now).value)
  {
    if SupportedSeries(series) {
      StepsKeepClose(Summary([], None), quotes, series);
    }
  }

  /** With no bucket emitted the result is the placeholder alone. */
  lemma SummaryPlaceholder(quotes: seq<MinuteRecord>, series: int, now: int)
    requires SupportedSeries(series)
    requires Steps(Summary([], None), quotes, series).Ok?
    requires Flush(Steps(Summary([], None), quotes, series).value) == []
    ensures SummarizeSpec(quotes, series, now) == Ok([Placeholder(now)])
  {
  }

  // ------------------------------------------------------------- day walk

  /** How many days back the next working day lies (Sunday 2, Saturday 1). */
  function WeekendDepth(d: int): nat {
    if Weekday(d) == 6 then 2 else if Weekday(d) == 5 then 1 else 0
  }

  lemma WeekdayPrev(d: int)
    ensures Weekday(d - 1) == if Weekday(d) == 0 then 6 else Weekday(d) - 1
  {
  }

  /** The latest working day on or before day `d`. */
  function LatestWeekday(d: int): (w: int)
    ensures w <= d && !IsWeekendDay(w)
    ensures forall x :: w < x <= d ==> IsWeekendDay(x)
    decreases WeekendDepth(d)
  {
    if IsWeekendDay(d) then WeekdayPrev(d); LatestWeekday(d - 1) else d
  }

  /** The `k` latest working days on or before day `d`, newest first. */
  function WeekdaysBack(d: int, k: nat): (s: seq<int>)
    ensures |s| == k
    decreases k
  {
    if k == 0 then []
    else
      var w := LatestWeekday(d);
      [w] + WeekdaysBack(w - 1, k - 1)
  }

  /** The walk visits working days only, newest first, all on or before
      `d`. */
  lemma {:induction false} WeekdaysBackShape(d: int, k: nat)
    ensures var s := WeekdaysBack(d, k);
      && (forall i :: 0 <= i < k ==> s[i] <= d && !IsWeekendDay(s[i]))
      && (forall i :: 0 <= i < k - 1 ==> s[i] > s[i + 1])
    decreases k
  {
    if k > 0 {
      var w := LatestWeekday(d);
      WeekdaysBackShape(w - 1, k - 1);
      var s := WeekdaysBack(d, k);
      assert s[1..] == WeekdaysBack(w - 1, k - 1);
      forall i | 0 <= i < k ensures s[i] <= d && !IsWeekendDay(s[i]) {
        if i > 0 { assert s[i] == s[1..][i - 1]; }
      }
      forall i | 0 <= i < k - 1 ensures s[i] > s[i + 1] {
        if i > 0 { assert s[i] == s[1..][i - 1] && s[i + 1] == s[1..][i]; }
        else { assert s[1] == s[1..][0]; }
      }
    }
  }

  /** Between `d` and the walk's first day, and between consecutive days of
      the walk, lie only weekend days, so no working day is passed over. */
  lemma {:induction false} WeekdaysBackSkipsWeekendsOnly(d: int, k: nat)
    ensures var s := WeekdaysBack(d, k);
      && (k > 0 ==> forall x :: s[0] < x <= d ==> IsWeekendDay(x))
      && forall i, x :: 0 <= i < k - 1 && s[i + 1] < x < s[i] ==> IsWeekendDay(x)
    decreases k
  {
    if k > 0 {
      var w := LatestWeekday(d);
      WeekdaysBackSkipsWeekendsOnly(w - 1, k - 1);
      var s := WeekdaysBack(d, k);
      assert s[1..] == WeekdaysBack(w - 1, k - 1);
      forall i, x | 0 <= i < k - 1 && s[i + 1] < x < s[i] ensures IsWeekendDay(x) {
        if i > 0 { assert s[i] == s[1..][i - 1] && s[i + 1] == s[1..][i]; }
        else { assert s[1] == s[1..][0]; }
      }
    }
  }

  /** The walk extended by one day: the latest working day before the last. */
  lemma {:induction false} WeekdaysBackSnoc(d: int, k: nat)
    ensures WeekdaysBack(d, k + 1)
         == WeekdaysBack(d, k) + [LatestWeekday(if k == 0 then d else WeekdaysBack(d, k)[k - 1] - 1)]
    decreases k
  {
    if k > 0 {
      var w := LatestWeekday(d);
      WeekdaysBackSnoc(w - 1, k - 1);
      if k > 1 {
        assert WeekdaysBack(d, k)[k - 1] == WeekdaysBack(w - 1, k - 1)[k - 2];
      }
    }
  }

  lemma DayOfPrevious(t: int)
    ensures DayOf(t - DaySecs) == DayOf(t) - 1
  {
    var q, r := t / DaySecs, t % DaySecs;
    assert t - DaySecs == (q - 1) * DaySecs + r;
  }

  /** The first day the walk may fetch: the day before `before_date`, or
      today. */
  function FirstDay(before: Option<int>, now: int): int {
    if before.Some? then DayOf(before.value) - 1 else DayOf(now)
  }

  /** The bars gathered from the fetched days (newest first): each
      non-empty day's summary goes in front of the bars of the newer days. */
  function Gather(days: seq<int>, series: int, now: int, fetchDay: int -> seq<MinuteRecord>): Result<seq<Bar>>
    decreases |days|
  {
    if days == [] then Ok([])
    else
      match Gather(days[..|days| - 1], series, now, fetchDay)
      case Err(e) => Err(e)
      case Ok(acc) =>
        var quotes := fetchDay(days[|days| - 1]);
        if quotes == [] then Ok(acc)
        else
          match SummarizeSpec(quotes, series, now)
          case Err(e) => Err(e)
          case Ok(b) => Ok(b + acc)
  }

  /** The walk goes on while nothing was gathered or fewer than `bars`. */
  predicate KeepGoing(g: Result<seq<Bar>>, bars: int) {
    g.Ok? && (g.value == [] || |g.value| < bars)
  }

  function WalkResult(g: Result<seq<Bar>>, bars: int, now: int): (r: Result<seq<Bar>>)
    ensures r.Ok? <==> g.Ok?
    ensures g.Ok? && bars >= 1 ==> |r.value| >= 1
    ensures g.Ok? && g.value != [] && bars >= 0 ==>
      |r.value| == Min(bars, |g.value|) && r.value == g.value[|g.value| - |r.value|..]
  {
    match g
    case Err(e) => Err(e)
    case Ok(acc) => Ok(Tail(if acc == [] then [Placeholder(now)] else acc, bars))
  }

  /** The bars gathered after one more day is fetched. */
  lemma GatherSnoc(days: seq<int>, day: int, series: int, now: int, fetchDay: int -> seq<MinuteRecord>)
    ensures Gather(days + [day], series, now, fetchDay)
         == match Gather(days, series, now, fetchDay)
            case Err(e) => Err(e)
            case Ok(acc) =>
              if fetchDay(day) == [] then Ok(acc)
              else
                match SummarizeSpec(fetchDay(day), series, now)
                case Err(e) => Err(e)
                case Ok(b) => Ok(b + acc)
  {
    assert (days + [day])[..|days|] == days;
  }

  /** The inner loop of the walk: steps back a day at a time past weekend
      days and past `before_date`. */
  method SkipBack(date: int, before: Option<int>, ghost next: int) returns (d: int)
    requires (before.Some? && date == before.value && next == DayOf(date) - 1)
          || ((before.None? || date < before.value) && DayOf(date) == next)
    ensures !IsWeekend(d) && (before.None? || d < before.value)
    ensures DayOf(d) == LatestWeekday(next)
  {
    d := date;
    while IsWeekend(d) || (before.Some? && d >= before.value)
      invariant (before.Some? && d == before.value && next == DayOf(d) - 1)
             || ((before.None? || d < before.value) && LatestWeekday(DayOf(d)) == LatestWeekday(next))
      decreases if before.Some? && d >= before.value then 1 else 0, WeekendDepth(DayOf(d))
    {
      DayOfPrevious(d);
      WeekdayPrev(DayOf(d));
      d := d - DaySecs;
    }
  }

  lemma WalkExtends(first: int, fetched: seq<int>, day: int)
    requires fetched == WeekdaysBack(first, |fetched|)
    requires day == LatestWeekday(if fetched == [] then first else fetched[|fetched| - 1] - 1)
    ensures fetched + [day] == WeekdaysBack(first, |fetched| + 1)
  {
    WeekdaysBackSnoc(first, |fetched|);
  }

  lemma KeepGoingExtends(fetched: seq<int>, day: int, bars: int, series: int, now: int,
                         fetchDay: int -> seq<MinuteRecord>)
    requires forall j :: 0 <= j < |fetched| ==> KeepGoing(Gather(fetched[..j], series, now, fetchDay), bars)
    requires KeepGoing(Gather(fetched, series, now, fetchDay), bars)
    ensures var f := fetched + [day];
      forall j :: 0 <= j < |f| ==> KeepGoing(Gather(f[..j], series, now, fetchDay), bars)
  {
    var f := fetched + [day];
    assert forall j :: 0 <= j <= |fetched| ==> f[..j] == fetched[..j];
    assert fetched[..|fetched|] == fetched;
  }

  /** Where the walk's `date` stands before a pass: still `before_date`
      itself before the first pass, otherwise a day before `before_date`
      whose day number is the next one to consider. */
  predicate WalkDate(date: int, before: Option<int>, now: int, fetched: seq<int>) {
    (fetched == [] && before.Some? && date == before.value)
    || ((before.None? || date < before.value) &&
        DayOf(date) == if fetched == [] then FirstDay(before, now) else fetched[|fetched| - 1] - 1)
  }

  /** The bars gathered so far: `quote_bars`, whose `None` is no bars. */
  function GatheredBars(quoteBars: Option<seq<Bar>>): seq<Bar> {
    if quoteBars.None? then [] else quoteBars.value
  }

  /** The end of the walk: a placeholder bar when no day had quotes, then
      the last `bars` bars. */
  method FinishWalk(quoteBars: Option<seq<Bar>>, bars: int, now: int) returns (r: Result<seq<Bar>>)
    requires quoteBars.Some? ==> quoteBars.value != []
    ensures r == WalkResult(Ok(GatheredBars(quoteBars)), bars, now)
  {
    var gathered := quoteBars;
    if gathered.None? {
      gathered := Some([Placeholder(now)]);
    }
    r := Ok(Tail(gathered.value, bars));
  }

  /** One pass of the walk: step back to a working day, fetch it, and put
      its summary in front of the bars gathered so far. */
  method WalkPass(date: int, before: Option<int>, now: int, series: int, bars: int,
                  fetchDay: int -> seq<MinuteRecord>, fetched: seq<int>, quoteBars: Option<seq<Bar>>)
    returns (date': int, fetched': seq<int>, r: Result<Option<seq<Bar>>>)
    requires fetched == WeekdaysBack(FirstDay(before, now), |fetched|)
    requires WalkDate(date, before, now, fetched)
    requires Gather(fetched, series, now, fetchDay) == Ok(GatheredBars(quoteBars))
    requires quoteBars.Some? ==> quoteBars.value != []
    requires quoteBars.None? || |quoteBars.value| < bars
    requires forall j :: 0 <= j < |fetched| ==> KeepGoing(Gather(fetched[..j], series, now, fetchDay), bars)
    ensures |fetched'| == |fetched| + 1
    ensures fetched' == WeekdaysBack(FirstDay(before, now), |fetched'|)
    ensures forall j :: 0 <= j < |fetched'| ==> KeepGoing(Gather(fetched'[..j], series, now, fetchDay), bars)
    ensures WalkDate(date', before, now, fetched')
    ensures r.Err? ==> Gather(fetched', series, now, fetchDay) == Err(r.reason)
    ensures r.Ok? ==> Gather(fetched', series, now, fetchDay) == Ok(GatheredBars(r.value))
    ensures r.Ok? && r.value.Some? ==> r.value.value != []
  {
    ghost var next := if fetched == [] then FirstDay(before, now) else fetched[|fetched| - 1] - 1;
    var d := SkipBack(date, before, next);
    WalkExtends(FirstDay(before, now), fetched, DayOf(d));
    GatherSnoc(fetched, DayOf(d), series, now, fetchDay);
    KeepGoingExtends(fetched, DayOf(d), bars, series, now, fetchDay);
    var quotes := fetchDay(DayOf(d));
    fetched' := fetched + [DayOf(d)];
    DayOfPrevious(d);
    date' := d - DaySecs;
    if |quotes| == 0 {
      return date', fetched', Ok(quoteBars);
    }
    var myBars := SummarizeQuote(quotes, series, now);
    if myBars.Err? {
      return date', fetched', Err(myBars.reason);
    }
    if quoteBars.None? {
      assert myBars.value + [] == myBars.value;
      r := Ok(Some(myBars.value));
    } else {
      r := Ok(Some(myBars.value + quoteBars.value));
    }
  }

  /** `IEXTrading.get_quote_intraday_hist_by_bars`. `before` is the
      `before_date` instant; `fetched` lists the day numbers requested, in
      order. */
  method IntradayHistByBars(series: int, bars: int, before: Option<int>, now: int,
                            fetchDay: int -> seq<MinuteRecord>)
    returns (r: Result<seq<Bar>>, fetched: seq<int>)
    ensures |fetched| <= 35
    ensures fetched == WeekdaysBack(FirstDay(before, now), |fetched|)
    ensures r == WalkResult(Gather(fetched, series, now, fetchDay), bars, now)
    ensures r.Ok? ==> |fetched| == 35 || !KeepGoing(Gather(fetched, series, now, fetchDay), bars)
    ensures forall j :: 0 <= j < |fetched| ==> KeepGoing(Gather(fetched[..j], series, now, fetchDay), bars)
  {
    var date := if before.Some? then before.value else now;
    var dateCtr := 0;
    var quoteBars: Option<seq<Bar>> := None;
    fetched := [];
    while dateCtr < 35 && (quoteBars.None? || |quoteBars.value| < bars)
      invariant dateCtr == |fetched| <= 35
      invariant fetched == WeekdaysBack(FirstDay(before, now), |fetched|)
      invariant WalkDate(date, before, now, fetched)
      invariant Gather(fetched, series, now, fetchDay) == Ok(GatheredBars(quoteBars))
      invariant quoteBars.Some? ==> quoteBars.value != []
      invariant forall j :: 0 <= j < |fetched| ==> KeepGoing(Gather(fetched[..j], series, now, fetchDay), bars)
      decreases 35 - dateCtr
    {
      var pass;
      date, fetched, pass := WalkPass(date, before, now, series, bars, fetchDay, fetched, quoteBars);
      dateCtr := dateCtr + 1;
      if pass.Err? {
        return Err(pass.reason), fetched;
      }
      quoteBars := pass.value;
    }
    r := FinishWalk(quoteBars, bars, now);
  }
}
