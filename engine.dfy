/** The engine's periodic cycle (`_time_interval_processor`): the data
    load it starts with (`_load_all_data`), the algorithm callbacks it
    decides on, and the time at which it schedules itself again. */
module Engine {
  import opened Common
  import opened Clock
  import opened Market
  import opened Profile
  import opened Securities
  import opened CurrentBars

  /** The engine fields a data load touches: the calendar, the books of the
      reconciliation and the reload watermark `_next_data_reloadable_time`. */
  datatype DataState = DataState(cal: Calendar, books: Books, nextReloadable: int)

  /** How `_load_all_data` ends: `True`, `False`, or an exception that
      escapes it. */
  datatype Load = Loaded | Failed | Raised(reason: string)

  datatype DataLoad = DataLoad(state: DataState, outcome: Load)

  /** `market_opens_at` and `market_closes_at` both hold an instant. Before
      the first successful calendar load the attributes do not exist, and
      reading them raises `AttributeError`. */
  predicate KnowsHours(cal: Calendar) { cal.opensAt.Some? && cal.closesAt.Some? }

  /** `_load_all_data`. `today` and `profile` stand for the broker's
      answers, as in `LoadMarketInfo` and `LoadProfile`. A failed calendar
      load is survived when both instants are known from before; otherwise
      the check of those instants itself raises, so the `False` it guards is
      never returned. */
  function LoadAllData(s: DataState, now: int, today: Option<MarketDay>, profile: Option<ProfileInputs>)
    : (r: DataLoad)
    ensures s.nextReloadable > now ==> r == DataLoad(s, Loaded)
    ensures s.nextReloadable <= now ==>
      (r.outcome.Raised? <==> !KnowsHours(LoadMarketInfo(s.cal, today, now).cal))
    ensures r.outcome.Raised? ==> r.state.books == s.books && r.state.nextReloadable == s.nextReloadable
    ensures !r.outcome.Raised? && s.nextReloadable <= now ==>
      (KnowsHours(r.state.cal) && r.state.cal == LoadMarketInfo(s.cal, today, now).cal &&
       r.state.books == LoadProfile(s.books, profile).books &&
       (r.outcome.Loaded? <==> LoadProfile(s.books, profile).ok))
    ensures r.outcome.Failed? ==> r.state.nextReloadable == s.nextReloadable
    ensures r.outcome.Loaded? && s.nextReloadable <= now ==>
      r.state.nextReloadable == NextReloadable(now, r.state.cal.opensAt.value, r.state.cal.closesAt.value)
  {
    if s.nextReloadable > now then DataLoad(s, Loaded)
    else
      var info := LoadMarketInfo(s.cal, today, now);
      if !info.ok && !KnowsHours(info.cal) then DataLoad(s.(cal := info.cal), Raised("AttributeError"))
      else
        var prof := LoadProfile(s.books, profile);
        var s1 := s.(cal := info.cal, books := prof.books);
        if !prof.ok then DataLoad(s1, Failed)
        else DataLoad(s1.(nextReloadable := NextReloadable(now, info.cal.opensAt.value, info.cal.closesAt.value)),
                      Loaded)
  }

  /** A load that reaches the broker and completes leaves a watermark in the
      future: the next cycle within it reuses the figures just loaded. */
  lemma LoadThrottles(s: DataState, now: int, today: Option<MarketDay>, profile: Option<ProfileInputs>,
                      later: int, today2: Option<MarketDay>, profile2: Option<ProfileInputs>)
    requires s.nextReloadable <= now
    requires LoadAllData(s, now, today, profile).outcome.Loaded?
    requires now <= later < LoadAllData(s, now, today, profile).state.nextReloadable
    ensures var first := LoadAllData(s, now, today, profile).state;
      LoadAllData(first, later, today2, profile2) == DataLoad(first, Loaded)
  {
  }

  /** The user algorithm as the cycle sees it: whether it defines
      `on_market_open`, and whether its `handle_data` raises. */
  datatype Algo = Algo(hasOnMarketOpen: bool, handleDataRaises: bool)

  /** The engine fields the cycle reads and writes. */
  datatype EngineState = EngineState(
    frequency: string,
    data: DataState,
    contextIsMarketOpen: bool,
    closedLastUpdate: bool,
    initialized: bool,
    activeDatetime: int,
    currentBars: map<Security, Series>)

  /** What the cycle leaves scheduled: a daily job at an `"%H:%M"` time, or
      nothing when an exception escapes the job, which stops the scheduler
      thread. */
  datatype Wake = Rearmed(at: ClockTime) | Stalled(reason: string)

  datatype CycleResult = CycleResult(state: EngineState, onMarketOpen: bool, handleData: bool, wake: Wake)

  /** `_set_trigger_timer(minute_interval, direct_time)`: the time of day of
      the job, or `None` when neither argument is truthy and no job is
      registered. A direct time wins over an interval. */
  function TriggerTime(now: int, minuteInterval: Option<int>, direct: Option<int>): (r: Option<ClockTime>)
    ensures r.None? <==> direct.None? && (minuteInterval.None? || minuteInterval.value == 0)
    ensures direct.Some? ==> r == Some(HourMinute(direct.value))
    ensures direct.None? && r.Some? ==>
      r == Some(HourMinute(FloorMinute(now + minuteInterval.value * MinuteSecs)))
  {
    match direct
    case Some(t) => Some(HourMinute(t))
    case None =>
      if minuteInterval.None? || minuteInterval.value == 0 then None
      else Some(HourMinute(FloorMinute(now + minuteInterval.value * MinuteSecs)))
  }

  /** The instant of the `"%H:%M"` the cycle schedules itself for, or the
      exception raised while working it out: for `"1d"` five minutes after
      today's close (the next trading day's once that has passed), for
      `"1h"` the opening while before it, the next opening once past the
      close, else the next top of the hour, and otherwise the next whole
      minute. */
  function NextTarget(frequency: string, cal: Calendar, now: int): Result<int> {
    if frequency == "1d" then
      match cal.closesAt
      case None => Err("AttributeError")
      case Some(closes) =>
        if now >= closes then
          match NextDay(cal)
          case Err(e) => Err(e)
          case Ok(d) => if d.closesAt.None? then Err("TypeError") else Ok(d.closesAt.value + 5 * MinuteSecs)
        else Ok(closes + 5 * MinuteSecs)
    else if frequency == "1h" then
      if !cal.isOpen && cal.opensAt.None? then Err("AttributeError")
      else if !cal.isOpen && now < cal.opensAt.value then Ok(cal.opensAt.value)
      else if !cal.isOpen && cal.closesAt.None? then Err("AttributeError")
      else if !cal.isOpen && now > cal.closesAt.value then
        match NextDay(cal)
        case Err(e) => Err(e)
        case Ok(d) => if d.opensAt.None? then Err("TypeError") else Ok(d.opensAt.value)
      else Ok(FloorHour(now + HourSecs))
    else Ok(FloorMinute(now + MinuteSecs))
  }

  /** The record `next_open_hours` of the stored calendar record leads to. */
  function NextDay(cal: Calendar): Result<MarketDay> {
    match cal.info
    case None => Err("AttributeError")
    case Some(d) => if d.next.None? then Err("RequestError") else Ok(d.next.value)
  }

  function NextWake(frequency: string, cal: Calendar, now: int): (w: Wake)
    ensures w.Rearmed? <==> NextTarget(frequency, cal, now).Ok?
    ensures w.Rearmed? ==> w.at == HourMinute(NextTarget(frequency, cal, now).value)
  {
    match NextTarget(frequency, cal, now)
    case Err(e) => Stalled(e)
    case Ok(t) => Rearmed(TriggerTime(now, None, Some(t)).value)
  }

  /** The instant a freshly registered job first runs. */
  function RunsAt(now: int, w: Wake): int
    requires w.Rearmed?
  {
    NextOccurrence(now, w.at)
  }

  /** The first time of day after `now` at which the handler is allowed to
      run: the top of the hour after the opening for `"1h"`, a minute after
      the opening for the others; `"1d"` has none (the name is unbound). */
  function HandleGate(frequency: string, cal: Calendar): Result<Option<int>> {
    if frequency == "1d" then Ok(None)
    else
      match cal.opensAt
      case None => Err("AttributeError")
      case Some(o) => Ok(Some(if frequency == "1h" then FloorHour(o + HourSecs) else o + MinuteSecs))
  }

  /** Whether `handle_data` is invoked: while the market is open once the
      gate has passed (an unbound gate raises inside the `try` and skips
      the call), and in any case when a last update is owed. */
  function CallsHandler(isOpen: bool, gate: Option<int>, owed: bool, now: int): bool {
    if isOpen then gate.Some? && (now >= gate.value || owed) else owed
  }

  /** What the weekday body of the cycle leaves: the state, the callbacks
      it made, and the wake-up when the body ends the job itself (a failed
      load re-arms a minute on, an escaping exception stops it). */
  datatype Body = Body(state: EngineState, onMarketOpen: bool, handleData: bool, early: Option<Wake>)

  /** The weekday body of `_time_interval_processor`. */
  function CycleBody(st: EngineState, algo: Algo, now: int, today: Option<MarketDay>,
                     profile: Option<ProfileInputs>): Body
  {
    var wasOpen := st.data.cal.isOpen;
    var load := LoadAllData(st.data, now, today, profile);
    Resume(st.(activeDatetime := FloorMinute(now), currentBars := map[], data := load.state), load.outcome,
           wasOpen, algo, now)
  }

  /** The weekday body once the load has ended with `outcome`, from the
      state `st` it left: a raising load stops the job, a failed one
      re-arms it a minute on, and a successful one goes on to the callbacks. */
  function Resume(st: EngineState, outcome: Load, wasOpen: bool, algo: Algo, now: int): (r: Body)
    ensures !outcome.Loaded? ==> r.state == st && !r.onMarketOpen && !r.handleData && r.early.Some?
  {
    match outcome
    case Raised(e) => Body(st, false, false, Some(Stalled(e)))
    case Failed => Body(st, false, false, Some(Rearmed(TriggerTime(now, Some(1), None).value)))
    case Loaded => AfterLoad(st, wasOpen, algo, now)
  }

  /** What the rest of the weekday body decides, from the few values it
      reads: the new context and last-update flags, the callbacks made and
      the early end when the handler gate is unbound. */
  datatype Reacted = Reacted(contextIsMarketOpen: bool, closedLastUpdate: bool, onMarketOpen: bool,
                             handleData: bool, early: Option<Wake>)

  function Reaction(frequency: string, cal: Calendar, initialized: bool, closedLastUpdate: bool,
                    wasOpen: bool, algo: Algo, now: int): (r: Reacted)
    ensures r.contextIsMarketOpen == cal.isOpen
    ensures r.onMarketOpen <==> (!initialized || !wasOpen) && cal.isOpen && algo.hasOnMarketOpen
  {
    var onOpen := (!initialized || !wasOpen) && cal.isOpen && algo.hasOnMarketOpen;
    var owedBefore := frequency == "1d" || closedLastUpdate;
    match HandleGate(frequency, cal)
    case Err(e) => Reacted(cal.isOpen, owedBefore, onOpen, false, Some(Stalled(e)))
    case Ok(gate) =>
      var owed := owedBefore || (wasOpen && !cal.isOpen);
      var calls := CallsHandler(cal.isOpen, gate, owed, now);
      Reacted(cal.isOpen, if calls && !algo.handleDataRaises then false else owed, onOpen, calls, None)
  }

  /** The rest of the weekday body once the load succeeded: `st` is the
      state after the load and `wasOpen` the market flag before it. */
  function AfterLoad(st: EngineState, wasOpen: bool, algo: Algo, now: int): (r: Body)
    ensures r.state == st.(contextIsMarketOpen := r.state.contextIsMarketOpen, closedLastUpdate := r.state.closedLastUpdate)
  {
    var x := Reaction(st.frequency, st.data.cal, st.initialized, st.closedLastUpdate, wasOpen, algo, now);
    Body(st.(contextIsMarketOpen := x.contextIsMarketOpen, closedLastUpdate := x.closedLastUpdate),
         x.onMarketOpen, x.handleData, x.early)
  }

  /** `_time_interval_processor` at instant `now`. */
  function Cycle(st: EngineState, algo: Algo, now: int, today: Option<MarketDay>,
                 profile: Option<ProfileInputs>): (r: CycleResult)
    ensures IsWeekend(now) ==> r.state == st
    ensures r.state.initialized == st.initialized
    ensures r.handleData || r.onMarketOpen ==>
      !IsWeekend(now) && LoadAllData(st.data, now, today, profile).outcome.Loaded?
    ensures r.onMarketOpen ==> r.state.contextIsMarketOpen && r.state.data.cal.isOpen
  {
    if IsWeekend(now) then CycleResult(st, false, false, NextWake(st.frequency, st.data.cal, now))
    else
      var b := CycleBody(st, algo, now, today, profile);
      CycleResult(b.state, b.onMarketOpen, b.handleData,
                  if b.early.Some? then b.early.value else NextWake(st.frequency, b.state.data.cal, now))
  }

  /** On Saturdays and Sundays the body is skipped: nothing is loaded,
      neither callback runs, and only the next wake-up is scheduled. */
  lemma WeekendSkipsBody(st: EngineState, algo: Algo, now: int, today: Option<MarketDay>,
                         profile: Option<ProfileInputs>)
    requires IsWeekend(now)
    ensures var r := Cycle(st, algo, now, today, profile);
      r.state == st && !r.onMarketOpen && !r.handleData && r.wake == NextWake(st.frequency, st.data.cal, now)
  {
  }

  /** A weekday cycle always stamps the algorithm's clock with the minute
      and empties the current-bar cache. */
  lemma WeekdayStampsMinute(st: EngineState, algo: Algo, now: int, today: Option<MarketDay>,
                            profile: Option<ProfileInputs>)
    requires !IsWeekend(now)
    ensures var r := Cycle(st, algo, now, today, profile);
      r.state.activeDatetime == FloorMinute(now) && r.state.currentBars == map[] &&
      r.state.data == LoadAllData(st.data, now, today, profile).state
  {
  }

  /** When the data load fails the cycle stops there: no callback runs and
      the job runs again at the start of the next minute. */
  lemma FailedLoadRetriesNextMinute(st: EngineState, algo: Algo, now: int, today: Option<MarketDay>,
                                    profile: Option<ProfileInputs>)
    requires !IsWeekend(now)
    requires LoadAllData(st.data, now, today, profile).outcome.Failed?
    ensures var r := Cycle(st, algo, now, today, profile);
      !r.onMarketOpen && !r.handleData && r.wake.Rearmed? &&
      RunsAt(now, r.wake) == FloorMinute(now + MinuteSecs) && now < RunsAt(now, r.wake) <= now + MinuteSecs
  {
    var r := Cycle(st, algo, now, today, profile);
    var next := FloorMinute(now + MinuteSecs);
    assert r.wake == Rearmed(HourMinute(next));
    assert FloorMinute(next) == next;
    JobRunsAtTargetMinute(now, next);
  }

  /** An exception escaping the load stops the engine: nothing is
      scheduled again. */
  lemma RaisedLoadStalls(st: EngineState, algo: Algo, now: int, today: Option<MarketDay>,
                         profile: Option<ProfileInputs>)
    requires !IsWeekend(now)
    requires LoadAllData(st.data, now, today, profile).outcome.Raised?
    ensures var r := Cycle(st, algo, now, today, profile);
      r.wake.Stalled? && !r.onMarketOpen && !r.handleData
  {
  }

  /** `on_market_open` runs exactly on a weekday whose load succeeds, when
      the market is open now and was not open at the previous cycle (or
      this is the first cycle), and the algorithm defines it. */
  lemma MarketOpenEdge(st: EngineState, algo: Algo, now: int, today: Option<MarketDay>,
                       profile: Option<ProfileInputs>)
    ensures var r := Cycle(st, algo, now, today, profile);
      var load := LoadAllData(st.data, now, today, profile);
      r.onMarketOpen <==>
        (!IsWeekend(now) && load.outcome.Loaded? && load.state.cal.isOpen &&
         (!st.initialized || !st.data.cal.isOpen) && algo.hasOnMarketOpen)
  {
  }

  /** For the intraday frequencies, a cycle that finds the market newly
      closed calls `handle_data` one more time; while it stays closed and
      nothing is owed, it is not called. */
  lemma ClosingCatchUp(st: EngineState, algo: Algo, now: int, today: Option<MarketDay>,
                       profile: Option<ProfileInputs>)
    requires st.frequency != "1d" && !IsWeekend(now)
    requires LoadAllData(st.data, now, today, profile).outcome.Loaded?
    requires KnowsHours(LoadAllData(st.data, now, today, profile).state.cal)
    requires !LoadAllData(st.data, now, today, profile).state.cal.isOpen
    ensures var r := Cycle(st, algo, now, today, profile);
      r.handleData <==> st.data.cal.isOpen || st.closedLastUpdate
  {
  }

  /** While the market is open on an intraday frequency `handle_data` runs
      exactly once the gate after the opening has passed, or when an update
      is owed. */
  lemma HandlerGate(st: EngineState, algo: Algo, now: int, today: Option<MarketDay>,
                    profile: Option<ProfileInputs>)
    requires st.frequency != "1d" && !IsWeekend(now)
    requires LoadAllData(st.data, now, today, profile).outcome.Loaded?
    requires KnowsHours(LoadAllData(st.data, now, today, profile).state.cal)
    requires LoadAllData(st.data, now, today, profile).state.cal.isOpen
    ensures var r := Cycle(st, algo, now, today, profile);
      var opens := LoadAllData(st.data, now, today, profile).state.cal.opensAt.value;
      var gate := if st.frequency == "1h" then FloorHour(opens + HourSecs) else opens + MinuteSecs;
      r.handleData <==> now >= gate || st.closedLastUpdate
  {
  }

  /** With the daily frequency every closed-market cycle calls
      `handle_data`, and no open-market cycle does. */
  lemma DailyHandlerWhenClosed(st: EngineState, algo: Algo, now: int, today: Option<MarketDay>,
                               profile: Option<ProfileInputs>)
    requires st.frequency == "1d" && !IsWeekend(now)
    requires LoadAllData(st.data, now, today, profile).outcome.Loaded?
    ensures var r := Cycle(st, algo, now, today, profile);
      r.handleData <==> !LoadAllData(st.data, now, today, profile).state.cal.isOpen
  {
  }

  /** The owed last update is discharged by a call that returns normally and
      by nothing else. */
  lemma OwedUpdateCleared(st: EngineState, algo: Algo, now: int, today: Option<MarketDay>,
                          profile: Option<ProfileInputs>)
    requires !IsWeekend(now)
    requires LoadAllData(st.data, now, today, profile).outcome.Loaded?
    requires st.closedLastUpdate
    ensures var r := Cycle(st, algo, now, today, profile);
      !r.state.closedLastUpdate <==> r.handleData && !algo.handleDataRaises
  {
  }

  /** With a one-minute frequency the next cycle runs at the start of the
      next minute. */
  lemma MinuteWake(cal: Calendar, now: int)
    ensures var w := NextWake("1m", cal, now);
      w.Rearmed? && RunsAt(now, w) == FloorMinute(now + MinuteSecs) && now < RunsAt(now, w) <= now + MinuteSecs
  {
    JobRunsAtTargetMinute(now, FloorMinute(now + MinuteSecs));
    assert FloorMinute(FloorMinute(now + MinuteSecs)) == FloorMinute(now + MinuteSecs);
  }

  /** With an hourly frequency and the market open the next cycle runs at
      the next top of the hour. */
  lemma HourlyWakeWhileOpen(cal: Calendar, now: int)
    requires cal.isOpen
    ensures var w := NextWake("1h", cal, now);
      w.Rearmed? && RunsAt(now, w) == FloorHour(now + HourSecs) && now < RunsAt(now, w) <= now + HourSecs
  {
    assert NextTarget("1h", cal, now) == Ok(FloorHour(now + HourSecs));
    TopOfHourWake(now);
  }

  /** A job armed for the next top of the hour runs then. */
  lemma TopOfHourWake(now: int)
    ensures var h := FloorHour(now + HourSecs);
      NextOccurrence(now, HourMinute(h)) == h && now < h <= now + HourSecs
  {
    var h := FloorHour(now + HourSecs);
    assert h % MinuteSecs == 0;
    assert FloorMinute(h) == h;
    JobRunsAtTargetMinute(now, h);
  }

  /** With an hourly frequency, before the opening the next cycle runs at
      the opening's minute, provided that lies within a day. */
  lemma HourlyWakeAtOpening(cal: Calendar, now: int)
    requires !cal.isOpen && cal.opensAt.Some? && now < FloorMinute(cal.opensAt.value) <= now + DaySecs
    ensures var w := NextWake("1h", cal, now);
      w.Rearmed? && RunsAt(now, w) == FloorMinute(cal.opensAt.value)
  {
    JobRunsAtTargetMinute(now, cal.opensAt.value);
  }

  /** With the daily frequency before the close, the next cycle runs on the
      minute five minutes after the close. */
  lemma DailyWakeAfterClose(cal: Calendar, now: int)
    requires cal.closesAt.Some? && now < cal.closesAt.value
    requires FloorMinute(cal.closesAt.value + 5 * MinuteSecs) <= now + DaySecs
    ensures var w := NextWake("1d", cal, now);
      w.Rearmed? && RunsAt(now, w) == FloorMinute(cal.closesAt.value + 5 * MinuteSecs) && RunsAt(now, w) > now
  {
    JobRunsAtTargetMinute(now, cal.closesAt.value + 5 * MinuteSecs);
  }

  /** With the daily frequency once the close has passed, the cycle is
      re-armed exactly when the next trading day's record and its close are
      known, and then runs on the minute five minutes after that close,
      provided that lies within a day. */
  lemma DailyWakeNextDay(cal: Calendar, now: int)
    requires cal.closesAt.Some? && now >= cal.closesAt.value
    ensures NextWake("1d", cal, now).Rearmed? <==> NextDay(cal).Ok? && NextDay(cal).value.closesAt.Some?
    ensures NextDay(cal).Ok? && NextDay(cal).value.closesAt.Some? ==>
      var t := NextDay(cal).value.closesAt.value + 5 * MinuteSecs;
      now < FloorMinute(t) <= now + DaySecs ==> RunsAt(now, NextWake("1d", cal, now)) == FloorMinute(t)
  {
    if NextDay(cal).Ok? && NextDay(cal).value.closesAt.Some? {
      var t := NextDay(cal).value.closesAt.value + 5 * MinuteSecs;
      if now < FloorMinute(t) <= now + DaySecs {
        JobRunsAtTargetMinute(now, t);
      }
    }
  }

  /** With an hourly frequency, the market closed and the close passed, the
      cycle is re-armed exactly when the next trading day's record and its
      opening are known, and then runs at that opening's minute, provided
      that lies within a day. */
  lemma HourlyWakeNextOpening(cal: Calendar, now: int)
    requires !cal.isOpen && cal.opensAt.Some? && now >= cal.opensAt.value
    requires cal.closesAt.Some? && now > cal.closesAt.value
    ensures NextWake("1h", cal, now).Rearmed? <==> NextDay(cal).Ok? && NextDay(cal).value.opensAt.Some?
    ensures NextDay(cal).Ok? && NextDay(cal).value.opensAt.Some? ==>
      var t := NextDay(cal).value.opensAt.value;
      now < FloorMinute(t) <= now + DaySecs ==> RunsAt(now, NextWake("1h", cal, now)) == FloorMinute(t)
  {
    if NextDay(cal).Ok? && NextDay(cal).value.opensAt.Some? {
      var t := NextDay(cal).value.opensAt.value;
      if now < FloorMinute(t) <= now + DaySecs {
        JobRunsAtTargetMinute(now, t);
      }
    }
  }

  /** With an hourly frequency, the market closed and `now` between the
      opening and the close (both included), the cycle runs at the next top
      of the hour, as while the market is open. */
  lemma HourlyWakeBetween(cal: Calendar, now: int)
    requires !cal.isOpen && cal.opensAt.Some? && now >= cal.opensAt.value
    requires cal.closesAt.Some? && now <= cal.closesAt.value
    ensures var w := NextWake("1h", cal, now);
      w.Rearmed? && RunsAt(now, w) == FloorHour(now + HourSecs) && now < RunsAt(now, w) <= now + HourSecs
  {
    assert NextTarget("1h", cal, now) == Ok(FloorHour(now + HourSecs));
    TopOfHourWake(now);
  }

  /** `_set_trigger_timer` with an interval of `m` minutes runs the job at
      the start of the minute `m` minutes on. */
  lemma IntervalTrigger(now: int, m: int)
    requires 1 <= m <= 1440
    ensures TriggerTime(now, Some(m), None).Some?
    ensures NextOccurrence(now, TriggerTime(now, Some(m), None).value) == FloorMinute(now + m * MinuteSecs)
  {
    var t := FloorMinute(now + m * MinuteSecs);
    assert FloorMinute(t) == t;
    JobRunsAtTargetMinute(now, t);
  }
}
