/** The engine's `history` and `current` calls: bar history through the
    Google quote source, and the current-bar cache `_current_security_bars`
    with the broker's live quote laid over it. */
module CurrentBars {
  import opened Common
  import opened Clock
  import opened Bars
  import opened Securities
  import opened GoogleQuotes

  /** The list path of `fetch_quotes` for a single symbol is that symbol's
      own load. */
  lemma FetchOneOfList(symbol: string, barCount: int, frequency: string, respond: Request -> seq<string>,
                       toLocal: int -> int, now: int)
    ensures AllowedFrequency(frequency) ==>
      FetchQuotesSpec(SymbolList([symbol]), barCount, frequency, respond, toLocal, now) ==
      match LoadFor(symbol, frequency, barCount, respond, toLocal, now)
      case Err(e) => Err(e)
      case Ok(bars) => Ok(BySymbol(map[symbol := bars]))
  {
    if AllowedFrequency(frequency) {
      var none: map<string, seq<Bar>> := map[];
      assert [symbol][1..] == [];
      match LoadFor(symbol, frequency, barCount, respond, toLocal, now)
      case Err(e) =>
        assert LoadAll(none, [symbol], frequency, barCount, respond, toLocal, now) == Err(e);
      case Ok(bars) =>
        assert LoadAll(none[symbol := bars], [], frequency, barCount, respond, toLocal, now) == Ok(map[symbol := bars]);
        assert LoadAll(none, [symbol], frequency, barCount, respond, toLocal, now) == Ok(map[symbol := bars]);
    }
  }

  /** `history(security, bar_count, frequency)` for one security.
      `fetch_quotes` is handed the keys of the symbol map, which are not a
      string, so it takes its list path and returns a per-symbol map, from
      which the security's own entry is returned. For a frequency the source
      does not serve it returns a list, which cannot be indexed by a symbol
      (`TypeError`). */
  function HistoryOne(sec: Security, barCount: int, frequency: string, respond: Request -> seq<string>,
                      toLocal: int -> int, now: int): (r: Result<seq<Bar>>)
    ensures AllowedFrequency(frequency) ==> r == LoadFor(sec.symbol, frequency, barCount, respond, toLocal, now)
    ensures !AllowedFrequency(frequency) ==> r == Err("TypeError")
  {
    FetchOneOfList(sec.symbol, barCount, frequency, respond, toLocal, now);
    match FetchQuotesSpec(SymbolList([sec.symbol]), barCount, frequency, respond, toLocal, now)
    case Err(e) => Err(e)
    case Ok(NotAllowed) => Err("TypeError")
    case Ok(BySymbol(q)) => if sec.symbol in q then Ok(q[sec.symbol]) else Err("KeyError")
  }

  /** `history(securities, bar_count, frequency)` for a list: the per-symbol
      map re-keyed by security through the symbol map; empty for a frequency
      the source does not serve. */
  function HistoryList(secs: seq<Security>, barCount: int, frequency: string, respond: Request -> seq<string>,
                       toLocal: int -> int, now: int): (r: Result<map<Security, seq<Bar>>>)
    ensures !AllowedFrequency(frequency) ==> r == Ok(map[])
  {
    var sm := SymbolMapOf(secs);
    match FetchQuotesSpec(SymbolList(Symbols(secs)), barCount, frequency, respond, toLocal, now)
    case Err(e) => Err(e)
    case Ok(NotAllowed) => Ok(map[])
    case Ok(BySymbol(q)) => Ok(map sec | sec in sm.Values && sec.symbol in q :: q[sec.symbol])
  }

  /** For a list of one security the list form of `history` gives a map
      holding just that security's bars. */
  lemma HistoryListSingle(sec: Security, barCount: int, frequency: string, respond: Request -> seq<string>,
                          toLocal: int -> int, now: int)
    requires AllowedFrequency(frequency)
    ensures var r := HistoryList([sec], barCount, frequency, respond, toLocal, now);
      match LoadFor(sec.symbol, frequency, barCount, respond, toLocal, now)
      case Err(e) => r == Err(e)
      case Ok(bars) => r == Ok(map[sec := bars])
  {
    var secs := [sec];
    assert Symbols(secs) == [sec.symbol];
    FetchOneOfList(sec.symbol, barCount, frequency, respond, toLocal, now);
    match LoadFor(sec.symbol, frequency, barCount, respond, toLocal, now)
    case Err(e) =>
    case Ok(bars) =>
      SingleSecurityPick(sec, bars);
      assert FetchQuotesSpec(SymbolList(Symbols(secs)), barCount, frequency, respond, toLocal, now) ==
             Ok(BySymbol(map[sec.symbol := bars]));
  }

  /** Picking one symbol's bars out of a one-security list gives that
      security's entry alone. */
  lemma SingleSecurityPick(sec: Security, bars: seq<Bar>)
    ensures var sm := SymbolMapOf([sec]);
      var q := map[sec.symbol := bars];
      (map x | x in sm.Values && x.symbol in q :: q[x.symbol]) == map[sec := bars]
  {
    var secs := [sec];
    assert secs[..0] == [];
    assert SymbolMapOf(secs[..0]) == map[];
    var sm := SymbolMapOf(secs);
    assert sm == map[sec.symbol := sec];
    assert sm.Values == {sec} by {
      assert sm[sec.symbol] == sec;
      forall x | x in sm.Values ensures x == sec {
        var k :| k in sm && sm[k] == x;
      }
    }
  }

  /** Every security the symbol map holds comes from the list. */
  lemma {:induction false} SymbolMapFromList(secs: seq<Security>)
    ensures forall s :: s in SymbolMapOf(secs) ==> SymbolMapOf(secs)[s] in secs
    decreases |secs|
  {
    if secs != [] {
      var n := |secs| - 1;
      SymbolMapFromList(secs[..n]);
      forall s | s in SymbolMapOf(secs) ensures SymbolMapOf(secs)[s] in secs {
        if s != secs[n].symbol {
          assert SymbolMapOf(secs[..n])[s] in secs[..n];
        }
      }
    }
  }

  /** The list form of `history` keys each symbol's bars by the last
      security of the list with that symbol: every key is a listed security
      holding its own symbol's bars, and every listed symbol is answered. */
  lemma HistoryListEntries(secs: seq<Security>, barCount: int, frequency: string, respond: Request -> seq<string>,
                           toLocal: int -> int, now: int)
    requires AllowedFrequency(frequency)
    requires HistoryList(secs, barCount, frequency, respond, toLocal, now).Ok?
    ensures var m := HistoryList(secs, barCount, frequency, respond, toLocal, now).value;
      (forall x :: x in m ==> x in secs && LoadFor(x.symbol, frequency, barCount, respond, toLocal, now) == Ok(m[x])) &&
      (forall i :: 0 <= i < |secs| ==>
        secs[i].symbol in SymbolMapOf(secs) && SymbolMapOf(secs)[secs[i].symbol] in m)
  {
    var sm := SymbolMapOf(secs);
    SymbolMapKeys(secs);
    SymbolMapFromList(secs);
    FetchListPerSymbol(Symbols(secs), barCount, frequency, respond, toLocal, now);
    var m := HistoryList(secs, barCount, frequency, respond, toLocal, now).value;
    forall i | 0 <= i < |secs| ensures secs[i].symbol in sm && sm[secs[i].symbol] in m {
      assert Symbols(secs)[i] == secs[i].symbol;
      assert sm[secs[i].symbol] in sm.Values;
    }
    forall x | x in m ensures x in secs {
      assert x in sm.Values;
      var k :| k in sm && sm[k] == x;
    }
  }

  /** The bid/ask columns a live quote adds to a cached series. A column is
      assigned as a whole, so every row holds the same value. */
  datatype QuoteColumns = QuoteColumns(bidPrice: Option<real>, bidSize: Option<real>,
                                       askPrice: Option<real>, askSize: Option<real>)

  /** One cached series: its bars and, once a live quote was laid over it,
      the bid/ask columns. */
  datatype Series = Series(bars: seq<Bar>, quote: Option<QuoteColumns>)

  /** The first row of the broker's `get_quote_list` answer, converted with
      `float()`. */
  datatype LiveQuote = LiveQuote(last: real, bidPrice: real, bidSize: real, askPrice: real, askSize: real)

  /** The last row of a series (`iloc[-1]`). */
  datatype Row = Row(bar: Bar, quote: Option<QuoteColumns>)

  /** The column names `current` may be asked for. */
  datatype Field = Price | Open | High | Low | Close | Volume | BidPrice | BidSize | AskPrice | AskSize

  /** What `current` returns for one security: the whole row, or one of its
      values. */
  datatype Value = WholeRow(row: Row) | Scalar(x: Option<real>)

  /** A reading of the cache: the value (or the exception raised) and the
      cache as the call leaves it. */
  datatype Reading = Reading(value: Result<Value>, cache: map<Security, Series>)

  datatype ListReading = ListReading(values: Result<map<Security, Value>>, cache: map<Security, Series>)

  /** How long `current` sleeps: until ten seconds past the minute, so that
      the source has the minute's bar. */
  function SecondsToWait(now: int): int {
    var s := SecondOf(now);
    if s < 10 then 10 - s else 0
  }

  /** The sleep lasts at most ten seconds and ends at second 10 or later of
      the minute; there is none when that second has already passed. */
  lemma WaitReachesSecondTen(now: int)
    ensures 0 <= SecondsToWait(now) <= 10
    ensures SecondOf(now + SecondsToWait(now)) >= 10
    ensures SecondOf(now) >= 10 ==> SecondsToWait(now) == 0
  {
    var s := SecondOf(now);
    if s < 10 {
      DivModUnique(now + (10 - s), MinuteSecs, now / MinuteSecs, 10);
    }
  }

  /** `df["price"] = p`: every row's price replaced. */
  function WithPrice(bars: seq<Bar>, p: real): (r: seq<Bar>)
    ensures |r| == |bars|
    ensures forall i :: 0 <= i < |bars| ==> r[i] == bars[i].(price := Some(p))
  {
    seq(|bars|, i requires 0 <= i < |bars| => bars[i].(price := Some(p)))
  }

  function Columns(q: LiveQuote): QuoteColumns {
    QuoteColumns(Some(q.bidPrice), Some(q.bidSize), Some(q.askPrice), Some(q.askSize))
  }

  /** The overlay of the single-security path: a live quote sets the price
      and the bid/ask columns; without one the bid/ask columns become NaN and
      the prices stay. */
  function OverlayOne(s: Series, live: Option<LiveQuote>): (r: Series)
    ensures |r.bars| == |s.bars| && r.quote.Some?
  {
    match live
    case Some(q) => Series(WithPrice(s.bars, q.last), Some(Columns(q)))
    case None => Series(s.bars, Some(QuoteColumns(None, None, None, None)))
  }

  /** The overlay of the list path: only a live quote changes the series. */
  function OverlayList(s: Series, live: Option<LiveQuote>): (r: Series)
    ensures |r.bars| == |s.bars|
  {
    match live
    case Some(q) => Series(WithPrice(s.bars, q.last), Some(Columns(q)))
    case None => s
  }

  /** `row[field]`; a bid/ask column that was never added raises
      `KeyError`. */
  function Project(row: Row, f: Field): Result<Option<real>> {
    match f
    case Price => Ok(row.bar.price)
    case Open => Ok(row.bar.open)
    case High => Ok(row.bar.high)
    case Low => Ok(row.bar.low)
    case Close => Ok(row.bar.close)
    case Volume => Ok(Some(row.bar.volume as real))
    case BidPrice => if row.quote.Some? then Ok(row.quote.value.bidPrice) else Err("KeyError")
    case BidSize => if row.quote.Some? then Ok(row.quote.value.bidSize) else Err("KeyError")
    case AskPrice => if row.quote.Some? then Ok(row.quote.value.askPrice) else Err("KeyError")
    case AskSize => if row.quote.Some? then Ok(row.quote.value.askSize) else Err("KeyError")
  }

  /** The row itself when no field is asked for, else its value. */
  function Pick(row: Row, field: Option<Field>): (r: Result<Value>)
    ensures row.quote.Some? ==> r.Ok?
  {
    match field
    case None => Ok(WholeRow(row))
    case Some(f) =>
      match Project(row, f)
      case Err(e) => Err(e)
      case Ok(x) => Ok(Scalar(x))
  }

  /** `iloc[-1]`, which raises `IndexError` on an empty series. */
  function LastRow(s: Series): Result<Row> {
    if s.bars == [] then Err("IndexError") else Ok(Row(s.bars[|s.bars| - 1], s.quote))
  }

  /** The cached series of one security on the single path: the cached one,
      or the bars `history` gives on a miss; an empty one replaced by the
      placeholder bar. `t` is the instant after the wait. */
  function SeededOne(cache: map<Security, Series>, sec: Security, frequency: string,
                     respond: Request -> seq<string>, toLocal: int -> int, t: int): Result<Series>
  {
    var s0 :=
      if sec in cache then Ok(cache[sec])
      else
        match HistoryOne(sec, 1, frequency, respond, toLocal, t)
        case Err(e) => Err(e)
        case Ok(bars) => Ok(Series(bars, None));
    match s0
    case Err(e) => Err(e)
    case Ok(s) => Ok(if s.bars == [] then Series([Placeholder(t)], None) else s)
  }

  /** `current(security, field)` for one security. `live` stands for the
      broker's quote request by symbol (`None` when it returns nothing). */
  function CurrentOne(cache: map<Security, Series>, sec: Security, field: Option<Field>, frequency: string,
                      respond: Request -> seq<string>, toLocal: int -> int, live: string -> Option<LiveQuote>,
                      now: int): Reading
  {
    CurrentAt(cache, sec, field, frequency, respond, toLocal, live, now + SecondsToWait(now))
  }

  /** The same call once the wait is over, at instant `t`. */
  function CurrentAt(cache: map<Security, Series>, sec: Security, field: Option<Field>, frequency: string,
                     respond: Request -> seq<string>, toLocal: int -> int, live: string -> Option<LiveQuote>,
                     t: int): (r: Reading)
    ensures r.value.Ok? ==> (sec in r.cache && r.cache.Keys == cache.Keys + {sec} &&
      |r.cache[sec].bars| >= 1 && r.cache[sec].quote.Some?)
    ensures r.value.Err? ==> r.cache == cache
    ensures forall s :: s in cache && s != sec ==> s in r.cache && r.cache[s] == cache[s]
  {
    match SeededOne(cache, sec, frequency, respond, toLocal, t)
    case Err(e) => Reading(Err(e), cache)
    case Ok(s) =>
      var s2 := OverlayOne(s, live(sec.symbol));
      var row := Row(s2.bars[|s2.bars| - 1], s2.quote);
      Reading(Pick(row, field), cache[sec := s2])
  }

  /** A cached security is served from the cache: the quote source is not
      consulted, whatever it would answer. */
  lemma CurrentOneHit(cache: map<Security, Series>, sec: Security, field: Option<Field>, frequency: string,
                      respond: Request -> seq<string>, respond2: Request -> seq<string>,
                      toLocal: int -> int, live: string -> Option<LiveQuote>, now: int)
    requires sec in cache
    ensures CurrentOne(cache, sec, field, frequency, respond, toLocal, live, now)
         == CurrentOne(cache, sec, field, frequency, respond2, toLocal, live, now)
  {
  }

  /** With a live quote the row carries its last price and bid/ask figures;
      without one the bid/ask figures are NaN and the price is the bar's
      own. */
  lemma CurrentOneOverlay(cache: map<Security, Series>, sec: Security, frequency: string,
                          respond: Request -> seq<string>, toLocal: int -> int,
                          live: string -> Option<LiveQuote>, now: int)
    requires SeededOne(cache, sec, frequency, respond, toLocal, now + SecondsToWait(now)).Ok?
    ensures var s := SeededOne(cache, sec, frequency, respond, toLocal, now + SecondsToWait(now)).value;
      var r := CurrentOne(cache, sec, None, frequency, respond, toLocal, live, now);
      r.value.Ok? && r.value.value.WholeRow? &&
      var row := r.value.value.row;
      |s.bars| >= 1 &&
      (live(sec.symbol).Some? ==>
        row.bar == s.bars[|s.bars| - 1].(price := Some(live(sec.symbol).value.last)) &&
        row.quote == Some(Columns(live(sec.symbol).value))) &&
      (live(sec.symbol).None? ==>
        row.bar == s.bars[|s.bars| - 1] && row.quote == Some(QuoteColumns(None, None, None, None)))
  {
  }

  /** On a miss the series is seeded with the bars `history` gives, which
      for this source are never empty: the placeholder guard of the single
      path is never taken. */
  lemma SeededOneMiss(cache: map<Security, Series>, sec: Security, frequency: string,
                      respond: Request -> seq<string>, toLocal: int -> int, t: int)
    requires sec !in cache
    requires HistoryOne(sec, 1, frequency, respond, toLocal, t).Ok?
    ensures SeededOne(cache, sec, frequency, respond, toLocal, t)
         == Ok(Series(HistoryOne(sec, 1, frequency, respond, toLocal, t).value, None))
  {
  }

  /** Asking again with the same live quote gives the same value and leaves
      the cache as the first call left it (so the reconciliation's second
      reading of a price equals its first). */
  lemma CurrentOneRepeat(cache: map<Security, Series>, sec: Security, field: Option<Field>, frequency: string,
                         respond: Request -> seq<string>, toLocal: int -> int,
                         live: string -> Option<LiveQuote>, now: int, later: int)
    requires CurrentOne(cache, sec, field, frequency, respond, toLocal, live, now).value.Ok?
    ensures var first := CurrentOne(cache, sec, field, frequency, respond, toLocal, live, now);
      var second := CurrentOne(first.cache, sec, field, frequency, respond, toLocal, live, later);
      second == first
  {
    var first := CurrentOne(cache, sec, field, frequency, respond, toLocal, live, now);
    var s := first.cache[sec];
    var again := OverlayOne(s, live(sec.symbol));
    assert again.bars == s.bars;
    assert first.cache[sec := again] == first.cache;
  }

  /** One pass of the security loop of `current` for a list, as evidently
      intended: a miss is seeded from `history([sec])`, a live quote is laid
      over the series, and the row or its field is returned. */
  function ListStep(cache: map<Security, Series>, sec: Security, field: Option<Field>, frequency: string,
                    respond: Request -> seq<string>, toLocal: int -> int, live: string -> Option<LiveQuote>,
                    t: int): (r: Reading)
    ensures r.cache.Keys <= cache.Keys + {sec}
    ensures forall s :: s in cache && s != sec ==> s in r.cache && r.cache[s] == cache[s]
    ensures r.value.Ok? ==> sec in r.cache
  {
    var seeded :=
      if sec in cache then Ok(cache[sec])
      else
        match HistoryList([sec], 1, frequency, respond, toLocal, t)
        case Err(e) => Err(e)
        case Ok(m) => Ok(if sec in m then Series(m[sec], None) else Series([Placeholder(t)], None));
    match seeded
    case Err(e) => Reading(Err(e), cache)
    case Ok(s0) =>
      var s1 := OverlayList(s0, live(sec.symbol));
      var cache1 := cache[sec := s1];
      match LastRow(s1)
      case Err(e) => Reading(Err(e), cache1)
      case Ok(row) => Reading(Pick(row, field), cache1)
  }

  /** The same pass as written: on a miss `history(sec)` returns a single
      series, whose truth value pandas refuses (`ValueError`), and the field
      lookup runs even when no field was asked for (`row[None]`). */
  function ListStepAsWritten(cache: map<Security, Series>, sec: Security, field: Option<Field>,
                             frequency: string, respond: Request -> seq<string>, toLocal: int -> int,
                             live: string -> Option<LiveQuote>, t: int): (r: Reading)
    ensures r.value.Ok? ==> sec in cache && field.Some?
  {
    var seeded :=
      if sec in cache then Ok(cache[sec])
      else
        match HistoryOne(sec, 1, frequency, respond, toLocal, t)
        case Err(e) => Err(e)
        case Ok(_) => Err("ValueError");
    match seeded
    case Err(e) => Reading(Err(e), cache)
    case Ok(s0) =>
      var s1 := OverlayList(s0, live(sec.symbol));
      var cache1 := cache[sec := s1];
      match LastRow(s1)
      case Err(e) => Reading(Err(e), cache1)
      case Ok(row) => Reading(if field.None? then Err("KeyError") else Pick(row, field), cache1)
  }

  /** The security loop of `current` for a list, from the values gathered
      so far. */
  function ListLoop(cache: map<Security, Series>, acc: map<Security, Value>, secs: seq<Security>,
                    field: Option<Field>, frequency: string, respond: Request -> seq<string>,
                    toLocal: int -> int, live: string -> Option<LiveQuote>, t: int): ListReading
    decreases |secs|
  {
    if secs == [] then ListReading(Ok(acc), cache)
    else
      var step := ListStep(cache, secs[0], field, frequency, respond, toLocal, live, t);
      match step.value
      case Err(e) => ListReading(Err(e), step.cache)
      case Ok(v) => ListLoop(step.cache, acc[secs[0] := v], secs[1..], field, frequency, respond, toLocal, live, t)
  }

  function ListLoopAsWritten(cache: map<Security, Series>, acc: map<Security, Value>, secs: seq<Security>,
                             field: Option<Field>, frequency: string, respond: Request -> seq<string>,
                             toLocal: int -> int, live: string -> Option<LiveQuote>, t: int): ListReading
    decreases |secs|
  {
    if secs == [] then ListReading(Ok(acc), cache)
    else
      var step := ListStepAsWritten(cache, secs[0], field, frequency, respond, toLocal, live, t);
      match step.value
      case Err(e) => ListReading(Err(e), step.cache)
      case Ok(v) => ListLoopAsWritten(step.cache, acc[secs[0] := v], secs[1..], field, frequency, respond,
                                      toLocal, live, t)
  }

  /** `current(securities, field)`, corrected as described for `ListStep`. */
  function CurrentList(cache: map<Security, Series>, secs: seq<Security>, field: Option<Field>, frequency: string,
                       respond: Request -> seq<string>, toLocal: int -> int, live: string -> Option<LiveQuote>,
                       now: int): ListReading
  {
    ListLoop(cache, map[], secs, field, frequency, respond, toLocal, live, now + SecondsToWait(now))
  }

  /** `current(securities, field)` as written. */
  function CurrentListAsWritten(cache: map<Security, Series>, secs: seq<Security>, field: Option<Field>,
                                frequency: string, respond: Request -> seq<string>, toLocal: int -> int,
                                live: string -> Option<LiveQuote>, now: int): ListReading
  {
    ListLoopAsWritten(cache, map[], secs, field, frequency, respond, toLocal, live, now + SecondsToWait(now))
  }

  /** As written, the list path only ever succeeds when every security is
      already cached and a field is asked for. */
  lemma {:induction false} ListAsWrittenNeedsCacheAndField(cache: map<Security, Series>, acc: map<Security, Value>,
                                                           secs: seq<Security>, field: Option<Field>,
                                                           frequency: string, respond: Request -> seq<string>,
                                                           toLocal: int -> int, live: string -> Option<LiveQuote>,
                                                           t: int)
    requires ListLoopAsWritten(cache, acc, secs, field, frequency, respond, toLocal, live, t).values.Ok?
    ensures secs != [] ==> field.Some?
    ensures forall i :: 0 <= i < |secs| ==> secs[i] in cache
    decreases |secs|
  {
    if secs != [] {
      var step := ListStepAsWritten(cache, secs[0], field, frequency, respond, toLocal, live, t);
      assert secs[0] in cache;
      assert step.cache.Keys == cache.Keys;
      ListAsWrittenNeedsCacheAndField(step.cache, acc[secs[0] := step.value.value], secs[1..], field, frequency,
                                      respond, toLocal, live, t);
      forall i | 0 <= i < |secs| ensures secs[i] in cache {
        if i > 0 { assert secs[i] == secs[1..][i - 1]; }
      }
    }
  }

  /** The corrected list path answers for every security it was given and
      leaves each of them cached. */
  lemma {:induction false} ListLoopEntries(cache: map<Security, Series>, acc: map<Security, Value>,
                                           secs: seq<Security>, field: Option<Field>, frequency: string,
                                           respond: Request -> seq<string>, toLocal: int -> int,
                                           live: string -> Option<LiveQuote>, t: int)
    requires ListLoop(cache, acc, secs, field, frequency, respond, toLocal, live, t).values.Ok?
    ensures ListLoop(cache, acc, secs, field, frequency, respond, toLocal, live, t).values.value.Keys
         == acc.Keys + (set s | s in secs)
    decreases |secs|
  {
    if secs != [] {
      ListLoopUnfold(cache, acc, secs, field, frequency, respond, toLocal, live, t);
      var step := ListStep(cache, secs[0], field, frequency, respond, toLocal, live, t);
      var acc' := acc[secs[0] := step.value.value];
      ListLoopEntries(step.cache, acc', secs[1..], field, frequency, respond, toLocal, live, t);
      assert acc'.Keys == acc.Keys + {secs[0]};
      assert (set s | s in secs) == {secs[0]} + (set s | s in secs[1..]);
    }
  }

  /** A successful loop over a non-empty list is a successful first pass
      followed by the loop over the rest. */
  lemma ListLoopUnfold(cache: map<Security, Series>, acc: map<Security, Value>,
                       secs: seq<Security>, field: Option<Field>, frequency: string,
                       respond: Request -> seq<string>, toLocal: int -> int,
                       live: string -> Option<LiveQuote>, t: int)
    requires secs != []
    requires ListLoop(cache, acc, secs, field, frequency, respond, toLocal, live, t).values.Ok?
    ensures var step := ListStep(cache, secs[0], field, frequency, respond, toLocal, live, t);
      step.value.Ok? &&
      ListLoop(cache, acc, secs, field, frequency, respond, toLocal, live, t)
        == ListLoop(step.cache, acc[secs[0] := step.value.value], secs[1..], field, frequency, respond,
                    toLocal, live, t)
  {
  }

  /** ... and leaves every one of them in the cache, next to what was
      cached before. */
  lemma {:induction false} ListLoopCaches(cache: map<Security, Series>, acc: map<Security, Value>,
                                          secs: seq<Security>, field: Option<Field>, frequency: string,
                                          respond: Request -> seq<string>, toLocal: int -> int,
                                          live: string -> Option<LiveQuote>, t: int)
    requires ListLoop(cache, acc, secs, field, frequency, respond, toLocal, live, t).values.Ok?
    ensures var r := ListLoop(cache, acc, secs, field, frequency, respond, toLocal, live, t);
      cache.Keys <= r.cache.Keys && forall s :: s in secs ==> s in r.cache
    decreases |secs|
  {
    if secs != [] {
      var step := ListStep(cache, secs[0], field, frequency, respond, toLocal, live, t);
      var acc' := acc[secs[0] := step.value.value];
      ListLoopCaches(step.cache, acc', secs[1..], field, frequency, respond, toLocal, live, t);
      assert forall s :: s in secs ==> s == secs[0] || s in secs[1..];
    }
  }

  /** The loop over a list of one security is one pass. */
  lemma ListLoopOne(cache: map<Security, Series>, acc: map<Security, Value>, sec: Security, field: Option<Field>,
                    frequency: string, respond: Request -> seq<string>, toLocal: int -> int,
                    live: string -> Option<LiveQuote>, t: int)
    ensures var step := ListStep(cache, sec, field, frequency, respond, toLocal, live, t);
      ListLoop(cache, acc, [sec], field, frequency, respond, toLocal, live, t) ==
        (match step.value
         case Err(e) => ListReading(Err(e), step.cache)
         case Ok(v) => ListReading(Ok(acc[sec := v]), step.cache))
    ensures var step := ListStepAsWritten(cache, sec, field, frequency, respond, toLocal, live, t);
      ListLoopAsWritten(cache, acc, [sec], field, frequency, respond, toLocal, live, t) ==
        (match step.value
         case Err(e) => ListReading(Err(e), step.cache)
         case Ok(v) => ListReading(Ok(acc[sec := v]), step.cache))
  {
    assert [sec][1..] == [];
  }

  /** A list of one security not cached yet, with a frequency the source
      serves: as written the call raises, whatever the history request
      answers. */
  lemma ListMissRaisesAsWritten(sec: Security, frequency: string, respond: Request -> seq<string>,
                                toLocal: int -> int, live: string -> Option<LiveQuote>, now: int)
    requires AllowedFrequency(frequency)
    requires LoadFor(sec.symbol, frequency, 1, respond, toLocal, now + SecondsToWait(now)).Ok?
    ensures CurrentListAsWritten(map[], [sec], Some(Price), frequency, respond, toLocal, live, now).values
         == Err("ValueError")
  {
    ListLoopOne(map[], map[], sec, Some(Price), frequency, respond, toLocal, live, now + SecondsToWait(now));
  }

  /** The same call corrected answers with the seeded row when the history
      request succeeds; `t` is the instant after the wait. */
  lemma ListMissAnswers(sec: Security, frequency: string, respond: Request -> seq<string>,
                        toLocal: int -> int, live: string -> Option<LiveQuote>, t: int)
    requires AllowedFrequency(frequency)
    requires LoadFor(sec.symbol, frequency, 1, respond, toLocal, t).Ok?
    ensures var r := ListLoop(map[], map[], [sec], Some(Price), frequency, respond, toLocal, live, t);
      r.values.Ok? && r.values.value.Keys == {sec} && sec in r.cache
  {
    ListLoopOne(map[], map[], sec, Some(Price), frequency, respond, toLocal, live, t);
    HistoryListSingle(sec, 1, frequency, respond, toLocal, t);
    var bars := LoadFor(sec.symbol, frequency, 1, respond, toLocal, t).value;
    assert |bars| >= 1;
    var step := ListStep(map[], sec, Some(Price), frequency, respond, toLocal, live, t);
    assert step.value.Ok? && sec in step.cache;
    var one: map<Security, Value> := map[sec := step.value.value];
    assert one.Keys == {sec};
  }

  /** A cached security asked for without a field: as written the call
      raises on `row[None]`. */
  lemma ListNoFieldRaisesAsWritten(cache: map<Security, Series>, sec: Security, frequency: string,
                                   respond: Request -> seq<string>, toLocal: int -> int,
                                   live: string -> Option<LiveQuote>, now: int)
    requires sec in cache && cache[sec].bars != []
    ensures CurrentListAsWritten(cache, [sec], None, frequency, respond, toLocal, live, now).values
         == Err("KeyError")
  {
    ListLoopOne(cache, map[], sec, None, frequency, respond, toLocal, live, now + SecondsToWait(now));
  }

  /** Corrected, the same call answers with the whole row. */
  lemma ListNoFieldAnswers(cache: map<Security, Series>, sec: Security, frequency: string,
                           respond: Request -> seq<string>, toLocal: int -> int,
                           live: string -> Option<LiveQuote>, now: int)
    requires sec in cache && cache[sec].bars != []
    ensures var r := CurrentList(cache, [sec], None, frequency, respond, toLocal, live, now);
      r.values.Ok? && r.values.value.Keys == {sec} && r.values.value[sec].WholeRow?
  {
    ListLoopOne(cache, map[], sec, None, frequency, respond, toLocal, live, now + SecondsToWait(now));
  }
}
