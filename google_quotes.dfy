/** The Google `getprices` quote source (friartuck/quote_source.py): the
    table that turns a frequency and a bar count into request parameters, the
    per-symbol fetch, and the line parser of the plain-text response. The
    HTTP exchange is the parameter `respond`, which maps a request to the
    lines of its response; `toLocal` is the host's UTC-to-local conversion. */
module GoogleQuotes {
  import opened Common
  import opened Clock
  import opened Text
  import opened Bars

  /** The keys of `allowed_history_frequency`. */
  predicate AllowedFrequency(f: string) { f == "1m" || f == "1h" || f == "1d" }

  /** `i=<interval>` seconds per bar and `p=<periodFactor><period>` history length. */
  datatype Params = Params(interval: int, periodFactor: int, period: char)

  datatype Request = Request(symbol: string, params: Params)

  /** `periodFactor` is the fewest periods of `perPeriod` bars that hold `n` bars. */
  predicate Covers(periodFactor: int, perPeriod: int, n: int) {
    (periodFactor - 1) * perPeriod < n <= periodFactor * perPeriod
  }

  /** The request parameters chosen by `fetch_quotes`: minute bars over
      `n` minutes for a short minute history, otherwise whole trading days
      (390 minutes, 7 hours) or years (1760 hours, 252 days). An hourly history
      of more than 350 bars keeps the 60-second interval. */
  function RequestParams(frequency: string, n: int): (p: Params)
    ensures frequency == "1m" && n <= 50 ==> p == Params(60, n, 'm')
    ensures frequency == "1m" && n > 50 ==>
      p.interval == 60 && p.period == 'd' && Covers(p.periodFactor, 390, n)
    ensures frequency == "1h" && n <= 350 ==>
      p.interval == 3600 && p.period == 'd' && Covers(p.periodFactor, 7, n)
    ensures frequency == "1h" && n > 350 ==>
      p.interval == 60 && p.period == 'Y' && Covers(p.periodFactor, 1760, n)
    ensures frequency == "1d" ==>
      p.interval == 86400 && p.period == 'Y' && Covers(p.periodFactor, 252, n)
  {
    if frequency != "1m" || n > 50 then
      if frequency == "1m" then Params(60, CeilDiv(n, 390), 'd')
      else if frequency == "1h" then
        (if n > 350 then Params(60, CeilDiv(n, 1760), 'Y') else Params(3600, CeilDiv(n, 7), 'd'))
      else if frequency == "1d" then Params(86400, CeilDiv(n, 252), 'Y')
      else Params(60, n, 'd')
    else Params(60, n, 'm')
  }

  /** The parser's variables between lines: the last `a<unix>` anchor and the
      bars read so far. */
  datatype ParseState = ParseState(anchor: Option<int>, bars: seq<Bar>)

  function StartState(): ParseState { ParseState(None, []) }

  /** `unix_date` is truthy: set and not 0. */
  predicate AnchorSet(a: Option<int>) { a.Some? && a.value != 0 }

  /** Minute and hour bars are converted to local time, daily bars are not. */
  function BarTime(frequency: string, utc: int, toLocal: int -> int): int {
    if frequency == "1m" || frequency == "1h" then toLocal(utc) else utc
  }

  /** The bar of one data line `date,close,high,low,open,volume`. */
  function FieldsBar(f: seq<string>, t: int): Option<Bar>
    requires |f| == 6
  {
    var close, high, low, open, volume :=
      ParseDecimal(f[1]), ParseDecimal(f[2]), ParseDecimal(f[3]), ParseDecimal(f[4]), ParseInt(f[5]);
    if close.Some? && high.Some? && low.Some? && open.Some? && volume.Some? then
      Some(Bar(t, close, open, high, low, close, volume.value))
    else None
  }

  /** The anchor and offset of a line's date field: `a<unix>` starts a new
      anchor with offset 0, a plain number is an offset from the current one. */
  function Stamp(date: string, anchor: Option<int>): Result<(int, int)> {
    if StartsWith(date, 'a') then
      match ParseInt(RemoveAll(date, 'a'))
      case None => Err("ValueError: bad anchor")
      case Some(u) => Ok((u, 0))
    else
      match ParseInt(date)
      case None => Err("ValueError: bad offset")
      case Some(o) => if anchor.None? then Err("TypeError: no anchor") else Ok((anchor.value, o))
  }

  /** One iteration of the line loop of `_load_quotes`. */
  function ParseLine(st: ParseState, raw: string, frequency: string, interval: int, toLocal: int -> int)
    : Result<ParseState>
  {
    var line := Strip(raw);
    if !AnchorSet(st.anchor) && !StartsWith(line, 'a') then Ok(st)
    else ParseFields(st, Split(line, ','), frequency, interval, toLocal)
  }

  /** The data-line part of the loop, on the comma-separated fields. */
  function ParseFields(st: ParseState, f: seq<string>, frequency: string, interval: int, toLocal: int -> int)
    : Result<ParseState>
  {
    if |f| != 6 then Err("ValueError: not six fields")
    else
      match Stamp(f[0], st.anchor)
      case Err(e) => Err(e)
      case Ok((anchor, offset)) =>
        match FieldsBar(f, BarTime(frequency, anchor + offset * interval, toLocal))
        case None => Err("ValueError: bad number")
        case Some(b) => Ok(ParseState(Some(anchor), st.bars + [b]))
  }

  function ParseLines(st: ParseState, lines: seq<string>, frequency: string, interval: int,
                      toLocal: int -> int): Result<ParseState>
    decreases |lines|
  {
    if lines == [] then Ok(st)
    else
      match ParseLine(st, lines[0], frequency, interval, toLocal)
      case Err(e) => Err(e)
      case Ok(next) => ParseLines(next, lines[1..], frequency, interval, toLocal)
  }

  lemma ParseLinesStep(st: ParseState, lines: seq<string>, i: int, frequency: string, interval: int,
                       toLocal: int -> int)
    requires 0 <= i < |lines|
    ensures ParseLines(st, lines[i..], frequency, interval, toLocal)
         == match ParseLine(st, lines[i], frequency, interval, toLocal)
            case Err(e) => Err(e)
            case Ok(next) => ParseLines(next, lines[i + 1..], frequency, interval, toLocal)
  {
    assert lines[i..][0] == lines[i] && lines[i..][1..] == lines[i + 1..];
  }

  /** What `_load_quotes` returns for the lines of one response: the parsed
      bars, or the placeholder when no line held a bar, cut to the last
      `barCount`. */
  function LoadQuotesSpec(lines: seq<string>, frequency: string, interval: int, barCount: int,
                          toLocal: int -> int, now: int): (r: Result<seq<Bar>>)
    ensures r.Ok? && barCount >= 0 ==> |r.value| <= barCount
    ensures r.Ok? && barCount >= 1 ==> |r.value| >= 1
    ensures (ParseLines(StartState(), lines, frequency, interval, toLocal) == Ok(StartState()) && barCount >= 1)
            ==> r == Ok([Placeholder(now)])
  {
    match ParseLines(StartState(), lines, frequency, interval, toLocal)
    case Err(e) => Err(e)
    case Ok(st) => Ok(Tail(if st.bars == [] then [Placeholder(now)] else st.bars, barCount))
  }

  /** `_load_quotes`: reads the response line by line. */
  method LoadQuotes(lines: seq<string>, frequency: string, interval: int, barCount: int,
                    toLocal: int -> int, now: int) returns (r: Result<seq<Bar>>)
    ensures r == LoadQuotesSpec(lines, frequency, interval, barCount, toLocal, now)
  {
    var bars: seq<Bar> := [];
    var unixDate: Option<int> := None;
    var i := 0;
    while i < |lines|
      invariant 0 <= i <= |lines|
      invariant ParseLines(StartState(), lines, frequency, interval, toLocal)
             == ParseLines(ParseState(unixDate, bars), lines[i..], frequency, interval, toLocal)
    {
      ParseLinesStep(ParseState(unixDate, bars), lines, i, frequency, interval, toLocal);
      var step := ParseLine(ParseState(unixDate, bars), lines[i], frequency, interval, toLocal);
      if step.Err? {
        return Err(step.reason);
      }
      unixDate, bars := step.value.anchor, step.value.bars;
      i := i + 1;
    }
    if bars == [] {
      bars := [Placeholder(now)];
    }
    r := Ok(Tail(bars, barCount));
  }

  /** Lines ahead of the first `a<unix>` line (the response header) are
      ignored. */
  lemma {:induction false} HeaderIgnored(header: seq<string>, rest: seq<string>, frequency: string,
                                          interval: int, toLocal: int -> int)
    requires forall i :: 0 <= i < |header| ==> !StartsWith(Strip(header[i]), 'a')
    ensures ParseLines(StartState(), header + rest, frequency, interval, toLocal)
         == ParseLines(StartState(), rest, frequency, interval, toLocal)
    decreases |header|
  {
    if header != [] {
      assert (header + rest)[0] == header[0];
      assert (header + rest)[1..] == header[1..] + rest;
      HeaderIgnored(header[1..], rest, frequency, interval, toLocal);
    } else {
      assert header + rest == rest;
    }
  }

  /** What a data line contributes: one bar, appended, whose timestamp is
      the anchor plus offset times interval (a line's own `a<unix>` value
      becomes the anchor, with offset 0). A skipped line (`ParseLine` gives
      back its state) contributes nothing. */
  lemma ParsedFields(st: ParseState, f: seq<string>, frequency: string, interval: int, toLocal: int -> int)
    requires ParseFields(st, f, frequency, interval, toLocal).Ok?
    ensures var next := ParseFields(st, f, frequency, interval, toLocal).value;
      |f| == 6 && |next.bars| == |st.bars| + 1 && next.bars[..|st.bars|] == st.bars
    ensures var next := ParseFields(st, f, frequency, interval, toLocal).value;
      StartsWith(f[0], 'a') ==>
        var anchor := ParseInt(RemoveAll(f[0], 'a')).value;
        next.anchor == Some(anchor) && next.bars[|st.bars|].time == BarTime(frequency, anchor, toLocal)
    ensures var next := ParseFields(st, f, frequency, interval, toLocal).value;
      !StartsWith(f[0], 'a') ==>
        next.anchor == st.anchor && st.anchor.Some? &&
        next.bars[|st.bars|].time == BarTime(frequency, st.anchor.value + ParseInt(f[0]).value * interval, toLocal)
  {
    var next := ParseFields(st, f, frequency, interval, toLocal).value;
    assert next.bars[..|st.bars|] == st.bars;
  }

  /** The fields of the appended bar are read in the order date, close,
      high, low, open, volume, and its price is its close. */
  lemma ParsedFieldValues(st: ParseState, f: seq<string>, frequency: string, interval: int, toLocal: int -> int)
    requires ParseFields(st, f, frequency, interval, toLocal).Ok?
    ensures var next := ParseFields(st, f, frequency, interval, toLocal).value;
      |f| == 6 && |next.bars| == |st.bars| + 1 &&
      var b := next.bars[|st.bars|];
      b.close == ParseDecimal(f[1]) && b.high == ParseDecimal(f[2]) && b.low == ParseDecimal(f[3]) &&
      b.open == ParseDecimal(f[4]) && Some(b.volume) == ParseInt(f[5]) && b.price == b.close
  {
  }

  /** A line is either skipped or read as a data line. */
  lemma ParseLineCases(st: ParseState, raw: string, frequency: string, interval: int, toLocal: int -> int)
    ensures ParseLine(st, raw, frequency, interval, toLocal) == Ok(st)
         || ParseLine(st, raw, frequency, interval, toLocal)
            == ParseFields(st, Split(Strip(raw), ','), frequency, interval, toLocal)
  {
  }

  predicate PricesAreCloses(bars: seq<Bar>) {
    forall i :: 0 <= i < |bars| ==> bars[i].price == bars[i].close
  }

  /** Every bar the parser produces carries its close as its price. */
  lemma {:induction false} ParsedPricesAreCloses(st: ParseState, lines: seq<string>, frequency: string,
                                                  interval: int, toLocal: int -> int)
    requires PricesAreCloses(st.bars)
    requires ParseLines(st, lines, frequency, interval, toLocal).Ok?
    ensures PricesAreCloses(ParseLines(st, lines, frequency, interval, toLocal).value.bars)
    decreases |lines|
  {
    if lines != [] {
      var next := ParseLine(st, lines[0], frequency, interval, toLocal).value;
      LinePricesAreCloses(st, lines[0], frequency, interval, toLocal);
      ParsedPricesAreCloses(next, lines[1..], frequency, interval, toLocal);
    }
  }

  /** One parsed line keeps every bar's price equal to its close. */
  lemma LinePricesAreCloses(st: ParseState, line: string, frequency: string, interval: int, toLocal: int -> int)
    requires PricesAreCloses(st.bars)
    requires ParseLine(st, line, frequency, interval, toLocal).Ok?
    ensures PricesAreCloses(ParseLine(st, line, frequency, interval, toLocal).value.bars)
  {
    ParseLineCases(st, line, frequency, interval, toLocal);
    if ParseLine(st, line, frequency, interval, toLocal) != Ok(st) {
      FieldsPricesAreCloses(st, Split(Strip(line), ','), frequency, interval, toLocal);
    }
  }

  lemma FieldsPricesAreCloses(st: ParseState, f: seq<string>, frequency: string, interval: int, toLocal: int -> int)
    requires PricesAreCloses(st.bars)
    requires ParseFields(st, f, frequency, interval, toLocal).Ok?
    ensures PricesAreCloses(ParseFields(st, f, frequency, interval, toLocal).value.bars)
  {
    var next := ParseFields(st, f, frequency, interval, toLocal).value;
    ParsedFields(st, f, frequency, interval, toLocal);
    ParsedFieldValues(st, f, frequency, interval, toLocal);
    forall i | 0 <= i < |next.bars| ensures next.bars[i].price == next.bars[i].close {
      if i < |st.bars| { assert next.bars[i] == next.bars[..|st.bars|][i]; }
    }
  }

  /** The result of `_load_quotes` is the last `barCount` of the parsed bars,
      each with price equal to close. */
  lemma LoadedBarsAreLastParsed(lines: seq<string>, frequency: string, interval: int, barCount: int,
                                toLocal: int -> int, now: int)
    requires barCount >= 0
    requires ParseLines(StartState(), lines, frequency, interval, toLocal).Ok?
    ensures var parsed := ParseLines(StartState(), lines, frequency, interval, toLocal).value.bars;
      var r := LoadQuotesSpec(lines, frequency, interval, barCount, toLocal, now).value;
      parsed != [] ==> |r| == Min(barCount, |parsed|) && r == parsed[|parsed| - |r|..] && PricesAreCloses(r)
  {
    var parsed := ParseLines(StartState(), lines, frequency, interval, toLocal).value.bars;
    ParsedPricesAreCloses(StartState(), lines, frequency, interval, toLocal);
    if parsed != [] {
      var r := Tail(parsed, barCount);
      assert LoadQuotesSpec(lines, frequency, interval, barCount, toLocal, now).value == r;
      SuffixPricesAreCloses(parsed, |parsed| - |r|);
    }
  }

  lemma SuffixPricesAreCloses(bars: seq<Bar>, k: int)
    requires PricesAreCloses(bars) && 0 <= k <= |bars|
    ensures PricesAreCloses(bars[k..])
  {
    forall i | 0 <= i < |bars| - k
      ensures bars[k..][i].price == bars[k..][i].close
    {
      assert bars[k..][i] == bars[k + i];
    }
  }

  /** A symbol or a collection of symbols, as `fetch_quotes` accepts them. */
  datatype SymbolArg = OneSymbol(symbol: string) | SymbolList(symbols: seq<string>)

  /** `[]` for a frequency that is not allowed, otherwise the per-symbol map. */
  datatype Fetched = NotAllowed | BySymbol(quotes: map<string, seq<Bar>>)

  /** The bars `_load_quotes` returns for one symbol. */
  function LoadFor(symbol: string, frequency: string, barCount: int, respond: Request -> seq<string>,
                   toLocal: int -> int, now: int): Result<seq<Bar>>
  {
    var p := RequestParams(frequency, barCount);
    LoadQuotesSpec(respond(Request(symbol, p)), frequency, p.interval, barCount, toLocal, now)
  }

  /** The symbol loop of `fetch_quotes`, from the map built so far. */
  function LoadAll(acc: map<string, seq<Bar>>, symbols: seq<string>, frequency: string, barCount: int,
                   respond: Request -> seq<string>, toLocal: int -> int, now: int)
    : Result<map<string, seq<Bar>>>
    decreases |symbols|
  {
    if symbols == [] then Ok(acc)
    else
      match LoadFor(symbols[0], frequency, barCount, respond, toLocal, now)
      case Err(e) => Err(e)
      case Ok(bars) => LoadAll(acc[symbols[0] := bars], symbols[1..], frequency, barCount, respond, toLocal, now)
  }

  function FetchQuotesSpec(symbol: SymbolArg, barCount: int, frequency: string,
                           respond: Request -> seq<string>, toLocal: int -> int, now: int): (r: Result<Fetched>)
    ensures !AllowedFrequency(frequency) ==> r == Ok(NotAllowed)
    ensures AllowedFrequency(frequency) && r.Ok? ==> r.value.BySymbol?
    ensures AllowedFrequency(frequency) && symbol.OneSymbol? && r.Ok? ==> r.value.quotes.Keys == {symbol.symbol}
  {
    if !AllowedFrequency(frequency) then Ok(NotAllowed)
    else
      match symbol
      case OneSymbol(s) =>
        (match LoadFor(s, frequency, barCount, respond, toLocal, now)
         case Err(e) => Err(e)
         case Ok(bars) => Ok(BySymbol(map[s := bars])))
      case SymbolList(ss) =>
        (match LoadAll(map[], ss, frequency, barCount, respond, toLocal, now)
         case Err(e) => Err(e)
         case Ok(m) => Ok(BySymbol(m)))
  }

  /** `GoogleQuoteSource.fetch_quotes`. */
  method FetchQuotes(symbol: SymbolArg, barCount: int, frequency: string,
                     respond: Request -> seq<string>, toLocal: int -> int, now: int) returns (r: Result<Fetched>)
    ensures r == FetchQuotesSpec(symbol, barCount, frequency, respond, toLocal, now)
  {
    if !AllowedFrequency(frequency) {
      return Ok(NotAllowed);
    }
    var p := RequestParams(frequency, barCount);
    if symbol.OneSymbol? {
      var quotes := LoadQuotes(respond(Request(symbol.symbol, p)), frequency, p.interval, barCount, toLocal, now);
      if quotes.Err? {
        return Err(quotes.reason);
      }
      return Ok(BySymbol(map[symbol.symbol := quotes.value]));
    }
    var symbols := symbol.symbols;
    var symbolBars: map<string, seq<Bar>> := map[];
    var i := 0;
    while i < |symbols|
      invariant 0 <= i <= |symbols|
      invariant LoadAll(map[], symbols, frequency, barCount, respond, toLocal, now)
             == LoadAll(symbolBars, symbols[i..], frequency, barCount, respond, toLocal, now)
    {
      assert symbols[i..][0] == symbols[i] && symbols[i..][1..] == symbols[i + 1..];
      var quotes := LoadQuotes(respond(Request(symbols[i], p)), frequency, p.interval, barCount, toLocal, now);
      if quotes.Err? {
        return Err(quotes.reason);
      }
      symbolBars := symbolBars[symbols[i] := quotes.value];
      i := i + 1;
    }
    r := Ok(BySymbol(symbolBars));
  }

  /** The list path yields exactly one entry per requested symbol, holding
      that symbol's bars (`_load_quotes` never returns `None`); entries made
      before are kept unless a symbol is loaded again. */
  lemma {:induction false} LoadAllEntries(acc: map<string, seq<Bar>>, symbols: seq<string>, frequency: string,
                                           barCount: int, respond: Request -> seq<string>, toLocal: int -> int,
                                           now: int)
    requires LoadAll(acc, symbols, frequency, barCount, respond, toLocal, now).Ok?
    ensures var m := LoadAll(acc, symbols, frequency, barCount, respond, toLocal, now).value;
      forall s :: s in m <==> s in acc || s in symbols
    ensures var m := LoadAll(acc, symbols, frequency, barCount, respond, toLocal, now).value;
      forall s :: s in m && s in symbols ==> LoadFor(s, frequency, barCount, respond, toLocal, now) == Ok(m[s])
    ensures var m := LoadAll(acc, symbols, frequency, barCount, respond, toLocal, now).value;
      forall s :: s in m && s !in symbols ==> m[s] == acc[s]
    decreases |symbols|
  {
    if symbols != [] {
      var first, rest := symbols[0], symbols[1..];
      var bars := LoadFor(first, frequency, barCount, respond, toLocal, now).value;
      var acc' := acc[first := bars];
      LoadAllEntries(acc', rest, frequency, barCount, respond, toLocal, now);
      var m := LoadAll(acc', rest, frequency, barCount, respond, toLocal, now).value;
      forall s
        ensures s in symbols <==> s == first || s in rest
      {
        if s in symbols {
          var k :| 0 <= k < |symbols| && symbols[k] == s;
          if k > 0 {
            assert rest[k - 1] == s;
          }
        }
      }
    }
  }

  /** Fetching a list of symbols with an allowed frequency gives one map
      entry per symbol, each the symbol's own bars. */
  lemma FetchListPerSymbol(symbols: seq<string>, barCount: int, frequency: string,
                           respond: Request -> seq<string>, toLocal: int -> int, now: int)
    requires AllowedFrequency(frequency)
    requires FetchQuotesSpec(SymbolList(symbols), barCount, frequency, respond, toLocal, now).Ok?
    ensures var m := FetchQuotesSpec(SymbolList(symbols), barCount, frequency, respond, toLocal, now).value.quotes;
      forall s :: (s in m <==> s in symbols) &&
        (s in m ==> LoadFor(s, frequency, barCount, respond, toLocal, now) == Ok(m[s]))
  {
    LoadAllEntries(map[], symbols, frequency, barCount, respond, toLocal, now);
  }
}
