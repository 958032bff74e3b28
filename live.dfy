/** `FriarTuckLive`, the live engine object: the fields it keeps between
    calls and the operations that update them in place. Each operation is
    proved to leave the object in the state its specification function
    computes from the state it started in. */
module Live {
  import opened Common
  import opened Clock
  import opened Bars
  import opened Securities
  import opened GoogleQuotes
  import opened CurrentBars
  import opened Market
  import opened Profile
  import opened Engine

  class FriarTuckLive {
    var frequency: string
    var activeDatetime: int
    var marketInfo: Option<MarketDay>
    var marketOpensAt: Option<int>
    var marketClosesAt: Option<int>
    var isMarketOpen: bool
    /** `context.is_market_open`. */
    var contextIsMarketOpen: bool
    var fetchedSecuritiesCache: map<string, Security>
    var nextDataReloadableTime: int
    var initialized: bool
    var marketClosedLastUpdate: bool
    var startingCash: Option<real>
    var currentSecurityBars: map<Security, Series>
    var securityLastKnownPrice: map<Security, Option<real>>
    /** `context.portfolio` and `context.account`. */
    var portfolio: Option<Portfolio>
    var account: Option<Account>

    function Cal(): Calendar
      reads this`marketInfo, this`marketOpensAt, this`marketClosesAt, this`isMarketOpen
    {
      Calendar(marketInfo, marketOpensAt, marketClosesAt, isMarketOpen)
    }

    function BooksOf(): Books
      reads this`startingCash, this`fetchedSecuritiesCache, this`securityLastKnownPrice, this`portfolio,
            this`account
    {
      Books(startingCash, fetchedSecuritiesCache, securityLastKnownPrice, portfolio, account)
    }

    function Data(): DataState
      reads this`marketInfo, this`marketOpensAt, this`marketClosesAt, this`isMarketOpen,
            this`startingCash, this`fetchedSecuritiesCache, this`securityLastKnownPrice, this`portfolio,
            this`account, this`nextDataReloadableTime
    {
      DataState(Cal(), BooksOf(), nextDataReloadableTime)
    }

    function State(): EngineState
      reads this
    {
      EngineState(frequency, Data(), contextIsMarketOpen, marketClosedLastUpdate, initialized, activeDatetime,
                  currentSecurityBars)
    }

    /** The engine as `__init__` leaves it, with the class-level defaults;
        `loadedAt` is the instant the class was defined, which is where the
        reload watermark starts. */
    constructor(frequency: string, now: int, loadedAt: int)
      ensures State() == EngineState(frequency,
        DataState(Calendar(None, None, None, false), Books(None, map[], map[], None, None), loadedAt),
        false, false, false, now, map[])
    {
      this.frequency := frequency;
      activeDatetime := now;
      marketInfo, marketOpensAt, marketClosesAt := None, None, None;
      isMarketOpen, contextIsMarketOpen := false, false;
      fetchedSecuritiesCache := map[];
      nextDataReloadableTime := loadedAt;
      initialized, marketClosedLastUpdate := false, false;
      startingCash := None;
      currentSecurityBars, securityLastKnownPrice := map[], map[];
      portfolio, account := None, None;
    }

    /** `fetch_and_build_security`, with `search` the broker's instrument
        search for the symbol. */
    method FetchAndBuildSecurity(symbol: string, detail: Option<Instrument>, search: seq<Instrument>)
      returns (sec: Option<Security>)
      modifies this`fetchedSecuritiesCache
      ensures var r := FetchSecurity(old(fetchedSecuritiesCache), symbol, detail, search);
        sec == r.sec && fetchedSecuritiesCache == r.cache
    {
      if symbol in fetchedSecuritiesCache {
        return Some(fetchedSecuritiesCache[symbol]);
      }
      var d := detail;
      if d.None? {
        var i := 0;
        while i < |search|
          invariant 0 <= i <= |search|
          invariant d.None?
          invariant forall j :: 0 <= j < i ==> search[j].symbol != symbol
        {
          if search[i].symbol == symbol {
            d := Some(search[i]);
            assert FirstMatch(search, symbol) == i;
            break;
          }
          i := i + 1;
        }
      }
      if d.None? {
        return None;
      }
      var s := BuildSecurity(d.value);
      fetchedSecuritiesCache := fetchedSecuritiesCache[d.value.symbol := s];
      return Some(s);
    }

    /** The seeding part of `current(security, field)`: the cached series,
        else the history of the security, and the placeholder bar for an
        empty one, stored in the cache. */
    method SeedSeries(sec: Security, t: int, respond: Request -> seq<string>, toLocal: int -> int)
      returns (seeded: Result<Series>)
      modifies this`currentSecurityBars
      ensures seeded == SeededOne(old(currentSecurityBars), sec, frequency, respond, toLocal, t)
      ensures seeded.Err? ==> currentSecurityBars == old(currentSecurityBars)
      ensures seeded.Ok? ==> currentSecurityBars == old(currentSecurityBars)[sec := seeded.value]
      ensures seeded.Ok? ==> seeded.value.bars != []
    {
      if sec !in currentSecurityBars {
        var h := HistoryOne(sec, 1, frequency, respond, toLocal, t);
        if h.Err? {
          return Err(h.reason);
        }
        currentSecurityBars := currentSecurityBars[sec := Series(h.value, None)];
      }
      if currentSecurityBars[sec].bars == [] {
        currentSecurityBars := currentSecurityBars[sec := Series([Placeholder(t)], None)];
      }
      seeded := Ok(currentSecurityBars[sec]);
    }

    /** `current(security, field)` for one security, `now` being the instant
        the call starts. */
    method Current(sec: Security, field: Option<Field>, now: int, respond: Request -> seq<string>,
                   toLocal: int -> int, live: string -> Option<LiveQuote>) returns (value: Result<Value>)
      modifies this`currentSecurityBars
      ensures Reading(value, currentSecurityBars)
           == CurrentOne(old(currentSecurityBars), sec, field, frequency, respond, toLocal, live, now)
    {
      value := CurrentAfterWait(sec, field, now + SecondsToWait(now), respond, toLocal, live);
    }

    /** The part of `current(security, field)` after the wait, at instant `t`. */
    method CurrentAfterWait(sec: Security, field: Option<Field>, t: int, respond: Request -> seq<string>,
                            toLocal: int -> int, live: string -> Option<LiveQuote>) returns (value: Result<Value>)
      modifies this`currentSecurityBars
      ensures Reading(value, currentSecurityBars)
           == CurrentAt(old(currentSecurityBars), sec, field, frequency, respond, toLocal, live, t)
    {
      var seeded := SeedSeries(sec, t, respond, toLocal);
      if seeded.Err? {
        return Err(seeded.reason);
      }
      var s := OverlayOne(seeded.value, live(sec.symbol));
      ghost var seededCache := currentSecurityBars;
      currentSecurityBars := currentSecurityBars[sec := s];
      assert currentSecurityBars == old(currentSecurityBars)[sec := s] by {
        assert seededCache == old(currentSecurityBars)[sec := seeded.value];
      }
      value := Pick(Row(s.bars[|s.bars| - 1], s.quote), field);
    }

    /** One pass of the security loop of the list path. */
    method CurrentStep(sec: Security, field: Option<Field>, t: int, respond: Request -> seq<string>,
                       toLocal: int -> int, live: string -> Option<LiveQuote>) returns (value: Result<Value>)
      modifies this`currentSecurityBars
      ensures Reading(value, currentSecurityBars)
           == ListStep(old(currentSecurityBars), sec, field, frequency, respond, toLocal, live, t)
    {
      var s0: Series;
      if sec in currentSecurityBars {
        s0 := currentSecurityBars[sec];
      } else {
        var h := HistoryList([sec], 1, frequency, respond, toLocal, t);
        if h.Err? {
          return Err(h.reason);
        }
        s0 := if sec in h.value then Series(h.value[sec], None) else Series([Placeholder(t)], None);
      }
      var s1 := OverlayList(s0, live(sec.symbol));
      currentSecurityBars := currentSecurityBars[sec := s1];
      var row := LastRow(s1);
      if row.Err? {
        return Err(row.reason);
      }
      value := Pick(row.value, field);
    }

    /** `current(securities, field)` for a list, as evidently intended (see
        `CurrentBars.ListStep`). */
    method CurrentOfList(secs: seq<Security>, field: Option<Field>, now: int, respond: Request -> seq<string>,
                         toLocal: int -> int, live: string -> Option<LiveQuote>)
      returns (values: Result<map<Security, Value>>)
      modifies this`currentSecurityBars
      ensures ListReading(values, currentSecurityBars)
           == CurrentList(old(currentSecurityBars), secs, field, frequency, respond, toLocal, live, now)
    {
      values := CurrentListAfterWait(secs, field, now + SecondsToWait(now), respond, toLocal, live);
    }

    /** The security loop of the list path, after the wait. */
    method CurrentListAfterWait(secs: seq<Security>, field: Option<Field>, t: int, respond: Request -> seq<string>,
                                toLocal: int -> int, live: string -> Option<LiveQuote>)
      returns (values: Result<map<Security, Value>>)
      modifies this`currentSecurityBars
      ensures ListReading(values, currentSecurityBars)
           == ListLoop(old(currentSecurityBars), map[], secs, field, frequency, respond, toLocal, live, t)
    {
      var acc: map<Security, Value> := map[];
      var rest := secs;
      while rest != []
        invariant ListLoop(currentSecurityBars, acc, rest, field, frequency, respond, toLocal, live, t)
               == ListLoop(old(currentSecurityBars), map[], secs, field, frequency, respond, toLocal, live, t)
        decreases |rest|
      {
        var v := CurrentStep(rest[0], field, t, respond, toLocal, live);
        if v.Err? {
          return Err(v.reason);
        }
        acc := acc[rest[0] := v.value];
        rest := rest[1..];
      }
      values := Ok(acc);
    }

    /** `__load_market_info`, reporting whether it completed; `today` is the
        broker's market-hours answer. */
    method LoadMarketInfo(today: Option<MarketDay>, now: int) returns (ok: bool)
      modifies this`marketInfo, this`marketOpensAt, this`marketClosesAt, this`isMarketOpen
      ensures InfoLoad(Cal(), ok) == Market.LoadMarketInfo(old(Cal()), today, now)
    {
      if today.None? {
        return false;
      }
      var d := today.value;
      if !HasHours(d) {
        if d.next.None? {
          return false;
        }
        d := d.next.value;
      }
      marketInfo := Some(d);
      if d.opensAt.None? {
        return false;
      }
      marketOpensAt := d.opensAt;
      if d.closesAt.None? {
        return false;
      }
      marketClosesAt := d.closesAt;
      isMarketOpen := d.opensAt.value <= now && now < d.closesAt.value;
      return true;
    }

    /** One pass of the position loop of `__load_profile_info`: the loop
        variables `t` come in and go out, the security cache and the
        last-known prices are updated in place. */
    method TallyPosition(t: Tally, rec: PositionRecord) returns (next: Tally)
      requires t.securities == fetchedSecuritiesCache && t.knownPrice == securityLastKnownPrice
      modifies this`fetchedSecuritiesCache, this`securityLastKnownPrice
      ensures next == Step(t, rec)
      ensures next.securities == fetchedSecuritiesCache && next.knownPrice == securityLastKnownPrice
    {
      var amount := Trunc(rec.quantity);
      if amount == 0 {
        return t;
      }
      ghost var lookup := FetchSecurity(t.securities, rec.instrument.symbol, Some(rec.instrument), []);
      var found := FetchAndBuildSecurity(rec.instrument.symbol, Some(rec.instrument), []);
      assert found == lookup.sec && fetchedSecuritiesCache == lookup.cache;
      next := SettlePosition(t, rec, amount, found.value);
    }

    /** The rest of a pass for a held position: the price falls back to the
        last known one, which is then updated in place. */
    method SettlePosition(t: Tally, rec: PositionRecord, amount: int, sec: Security) returns (next: Tally)
      requires t.knownPrice == securityLastKnownPrice
      modifies this`securityLastKnownPrice
      ensures next == Settle(t, rec, amount, sec, fetchedSecuritiesCache)
      ensures next.knownPrice == securityLastKnownPrice
    {
      var price := rec.firstPrice;
      if !Truthy(price) {
        price := rec.secondPrice;
      }
      if !Truthy(price) && sec in securityLastKnownPrice {
        price := securityLastKnownPrice[sec];
      }
      assert price == LastPrice(rec.firstPrice, rec.secondPrice, t.knownPrice, sec);
      securityLastKnownPrice := securityLastKnownPrice[sec := price];
      var positions := t.positions[sec := Position(amount, rec.averageBuyPrice, price, rec.created)];
      var cost := PositionCost(rec.averageBuyPrice, amount);
      var longValue, shortValue := t.longValue, t.shortValue;
      if amount > 0 {
        longValue := longValue + cost;
      } else {
        shortValue := longValue + cost;
      }
      next := Tally(longValue, shortValue, AddGain(t.unrealized, PositionGain(amount, price, cost)), positions,
                    fetchedSecuritiesCache, securityLastKnownPrice);
    }

    /** The position loop of `__load_profile_info`. */
    method TallyPositions(recs: seq<PositionRecord>) returns (t: Tally)
      modifies this`fetchedSecuritiesCache, this`securityLastKnownPrice
      ensures t == TallyOf(StartTally(old(BooksOf())), recs)
      ensures t.securities == fetchedSecuritiesCache && t.knownPrice == securityLastKnownPrice
    {
      ghost var start := StartTally(BooksOf());
      t := StartTally(BooksOf());
      var i := 0;
      while i < |recs|
        invariant 0 <= i <= |recs|
        invariant t == TallyOf(start, recs[..i])
        invariant t.securities == fetchedSecuritiesCache && t.knownPrice == securityLastKnownPrice
      {
        TallyOfSnoc(start, recs, i);
        t := TallyPosition(t, recs[i]);
        i := i + 1;
      }
      assert recs[..|recs|] == recs;
    }

    /** `__load_profile_info`, reporting whether it completed. */
    method LoadProfileInfo(inputs: Option<ProfileInputs>) returns (ok: bool)
      modifies this`startingCash, this`fetchedSecuritiesCache, this`securityLastKnownPrice,
               this`portfolio, this`account
      ensures ProfileLoad(BooksOf(), ok) == LoadProfile(old(BooksOf()), inputs)
    {
      if inputs.None? {
        return false;
      }
      var pv := inputs.value.portfolio.equity;
      if !Given(startingCash) {
        startingCash := Some(pv);
      }
      var t := TallyPositions(inputs.value.positions);
      ok := StoreFigures(inputs.value, t, startingCash.value);
    }

    /** The figures `__load_profile_info` stores once the positions are
        tallied: the portfolio always, the account only for a non-zero
        portfolio value (the division by it raises otherwise). */
    method StoreFigures(inp: ProfileInputs, t: Tally, sc: real) returns (ok: bool)
      modifies this`portfolio, this`account
      ensures ok <==> inp.portfolio.equity != 0.0
      ensures portfolio == Some(PortfolioFigures(inp, t, sc))
      ensures account == if ok then Some(AccountFigures(inp, t)) else old(account)
    {
      var port, acct := inp.portfolio, inp.account;
      var totalCash := acct.cash + acct.unsettledFunds;
      var pv := port.equity;
      var ratio := 0.0;
      if sc > 0.0 {
        ratio := (pv - sc) / sc;
      }
      var leverage, netLeverage := 0.0, 0.0;
      if pv > 0.0 {
        leverage := (t.longValue + t.shortValue) / pv;
        netLeverage := port.marketValue / pv;
      }
      portfolio := Some(Portfolio(RealAbs(t.shortValue - t.longValue), totalCash,
                                  port.equity - acct.unclearedDeposits - port.equityPreviousClose,
                                  t.positions, pv, port.marketValue, ratio, sc));
      if pv == 0.0 {
        return false;
      }
      account := Some(Account(pv, port.equity - port.marketValue - acct.cashHeldForOrders, totalCash / pv,
                              pv, port.excessMargin,
                              if acct.marginLimit.Some? then acct.marginLimit.value else 0.0,
                              leverage, pv - port.excessMargin, netLeverage, pv, acct.cash, port.marketValue));
      return true;
    }

    /** `_load_all_data`. */
    method LoadAllData(now: int, today: Option<MarketDay>, profile: Option<ProfileInputs>) returns (outcome: Load)
      modifies this`marketInfo, this`marketOpensAt, this`marketClosesAt, this`isMarketOpen,
               this`startingCash, this`fetchedSecuritiesCache, this`securityLastKnownPrice,
               this`portfolio, this`account, this`nextDataReloadableTime
      ensures DataLoad(Data(), outcome) == Engine.LoadAllData(old(Data()), now, today, profile)
    {
      if nextDataReloadableTime > now {
        return Loaded;
      }
      var infoOk := LoadMarketInfo(today, now);
      if !infoOk && (marketOpensAt.None? || marketClosesAt.None?) {
        return Raised("AttributeError");
      }
      var profileOk := LoadProfileInfo(profile);
      if !profileOk {
        return Failed;
      }
      nextDataReloadableTime := NextReloadable(now, marketOpensAt.value, marketClosesAt.value);
      return Loaded;
    }

    /** `set_active_algo`: the current-bar cache is emptied and the data
        loaded before the algorithm's `initialize` runs, which it does
        unless the load raised. */
    method SetActiveAlgo(now: int, today: Option<MarketDay>, profile: Option<ProfileInputs>)
      returns (outcome: Load, initializes: bool)
      modifies this`marketInfo, this`marketOpensAt, this`marketClosesAt, this`isMarketOpen,
               this`startingCash, this`fetchedSecuritiesCache, this`securityLastKnownPrice,
               this`portfolio, this`account, this`nextDataReloadableTime, this`currentSecurityBars
      ensures currentSecurityBars == map[]
      ensures DataLoad(Data(), outcome) == Engine.LoadAllData(old(Data()), now, today, profile)
      ensures initializes <==> !outcome.Raised?
    {
      currentSecurityBars := map[];
      outcome := LoadAllData(now, today, profile);
      initializes := !outcome.Raised?;
    }

    /** The start of the weekday body: the minute stamp, the emptied bar
        cache and the data load. */
    method BeginWeekday(now: int, today: Option<MarketDay>, profile: Option<ProfileInputs>) returns (loaded: Load)
      modifies this`marketInfo, this`marketOpensAt, this`marketClosesAt, this`isMarketOpen,
               this`startingCash, this`fetchedSecuritiesCache, this`securityLastKnownPrice,
               this`portfolio, this`account, this`nextDataReloadableTime, this`currentSecurityBars,
               this`activeDatetime
      ensures DataLoad(Data(), loaded) == Engine.LoadAllData(old(Data()), now, today, profile)
      ensures activeDatetime == FloorMinute(now) && currentSecurityBars == map[]
    {
      activeDatetime := FloorMinute(now);
      currentSecurityBars := map[];
      loaded := LoadAllData(now, today, profile);
    }

    /** The weekday body of `_time_interval_processor`. */
    method ProcessWeekday(algo: Algo, now: int, today: Option<MarketDay>, profile: Option<ProfileInputs>)
      returns (onMarketOpen: bool, handleData: bool, early: Option<Wake>)
      modifies this
      ensures Body(State(), onMarketOpen, handleData, early) == CycleBody(old(State()), algo, now, today, profile)
    {
      var wasOpen := isMarketOpen;
      var loaded := BeginWeekday(now, today, profile);
      assert State() == old(State()).(activeDatetime := FloorMinute(now), currentBars := map[], data := Data());
      onMarketOpen, handleData, early := Resume(loaded, wasOpen, algo, now);
    }

    /** The weekday body once the load has ended. */
    method Resume(loaded: Load, wasOpen: bool, algo: Algo, now: int)
      returns (onMarketOpen: bool, handleData: bool, early: Option<Wake>)
      modifies this`contextIsMarketOpen, this`marketClosedLastUpdate
      ensures Body(State(), onMarketOpen, handleData, early) == Engine.Resume(old(State()), loaded, wasOpen, algo, now)
    {
      if loaded.Raised? {
        return false, false, Some(Stalled(loaded.reason));
      }
      if loaded.Failed? {
        return false, false, Some(Rearmed(TriggerTime(now, Some(1), None).value));
      }
      onMarketOpen, handleData, early := React(algo, now, wasOpen);
    }

    /** The weekday body after a successful load: the market-open callback,
        the owed last update and the handler call. */
    method React(algo: Algo, now: int, wasOpen: bool) returns (onMarketOpen: bool, handleData: bool, early: Option<Wake>)
      modifies this`contextIsMarketOpen, this`marketClosedLastUpdate
      ensures Reacted(contextIsMarketOpen, marketClosedLastUpdate, onMarketOpen, handleData, early) ==
              Reaction(frequency, Cal(), initialized, old(marketClosedLastUpdate), wasOpen, algo, now)
    {
      contextIsMarketOpen := isMarketOpen;
      onMarketOpen := (!initialized || !wasOpen) && isMarketOpen && algo.hasOnMarketOpen;
      if frequency == "1d" {
        marketClosedLastUpdate := true;
      }
      var gate := HandleGate(frequency, Cal());
      if gate.Err? {
        return onMarketOpen, false, Some(Stalled(gate.reason));
      }
      handleData := CallHandler(gate.value, wasOpen, algo, now);
      early := None;
    }

    /** The handler part of the weekday body, once the gate is bound: a
        last update is owed when the market just closed, and a handler call
        that does not raise settles it. */
    method CallHandler(gate: Option<int>, wasOpen: bool, algo: Algo, now: int) returns (handleData: bool)
      modifies this`marketClosedLastUpdate
      ensures var owed := old(marketClosedLastUpdate) || (wasOpen && !isMarketOpen);
        handleData == CallsHandler(isMarketOpen, gate, owed, now) &&
        marketClosedLastUpdate == (if handleData && !algo.handleDataRaises then false else owed)
    {
      if wasOpen && !isMarketOpen {
        marketClosedLastUpdate := true;
      }
      handleData := CallsHandler(isMarketOpen, gate, marketClosedLastUpdate, now);
      if handleData && !algo.handleDataRaises && marketClosedLastUpdate {
        marketClosedLastUpdate := false;
      }
    }

    /** `_time_interval_processor`: the weekday body, then, unless the body
        ended the job, the next wake-up. */
    method TimeIntervalProcessor(algo: Algo, now: int, today: Option<MarketDay>, profile: Option<ProfileInputs>)
      returns (onMarketOpen: bool, handleData: bool, wake: Wake)
      modifies this
      ensures CycleResult(State(), onMarketOpen, handleData, wake) == Cycle(old(State()), algo, now, today, profile)
    {
      onMarketOpen, handleData := false, false;
      if !IsWeekend(now) {
        var early;
        onMarketOpen, handleData, early := ProcessWeekday(algo, now, today, profile);
        if early.Some? {
          return onMarketOpen, handleData, early.value;
        }
      }
      wake := NextWake(frequency, Cal(), now);
    }

    /** `run_engine` up to starting the scheduler thread: the first cycle
        runs once, synchronously, and the engine counts as initialized when
        that cycle did not raise. */
    method RunEngine(algo: Algo, now: int, today: Option<MarketDay>, profile: Option<ProfileInputs>)
      returns (first: Option<CycleResult>)
      modifies this
      ensures old(initialized) ==> first.None? && State() == old(State())
      ensures !old(initialized) ==> (first.Some? &&
        var r := Cycle(old(State()), algo, now, today, profile);
        first == Some(r) && State() == r.state.(initialized := r.wake.Rearmed?))
    {
      if initialized {
        return None;
      }
      var onOpen, handled, wake := TimeIntervalProcessor(algo, now, today, profile);
      first := Some(CycleResult(State(), onOpen, handled, wake));
      MarkInitialized(wake);
    }

    /** The engine counts as initialized once a first cycle re-armed its job. */
    method MarkInitialized(wake: Wake)
      modifies this`initialized
      ensures State() == old(State()).(initialized := old(initialized) || wake.Rearmed?)
    {
      if wake.Rearmed? {
        initialized := true;
      }
    }
  }
}
