/** The market calendar as the engine loads it from the broker, the
    market-open flag derived from it, and the throttle that spaces the
    engine's reloads. */
module Market {
  import opened Common
  import opened Clock

  /** A market-hours record of the broker: the day's opening and closing
      instants (`None` when missing or empty) and the record its
      `next_open_hours` link leads to (`None` when that request fails). */
  datatype MarketDay = MarketDay(opensAt: Option<int>, closesAt: Option<int>, next: Option<MarketDay>)

  predicate HasHours(d: MarketDay) { d.opensAt.Some? && d.closesAt.Some? }

  /** The calendar fields of the engine: the stored record (`market_info`),
      `market_opens_at`, `market_closes_at` (`None` while never set) and
      `is_market_open`. */
  datatype Calendar = Calendar(info: Option<MarketDay>, opensAt: Option<int>, closesAt: Option<int>, isOpen: bool)

  /** The calendar after a load attempt, and whether the attempt raised. */
  datatype InfoLoad = InfoLoad(cal: Calendar, ok: bool)

  /** `opens_at <= now < closes_at`. */
  predicate OpenAt(opens: int, closes: int, now: int) { opens <= now < closes }

  /** Storing a resolved record field by field, as the source does: the
      record first, then the opening, then the closing instant and the flag.
      A missing instant raises at its own step, leaving the earlier steps
      done. */
  function Store(cal: Calendar, d: MarketDay, now: int): (r: InfoLoad)
    ensures r.cal.info == Some(d)
    ensures r.ok <==> d.opensAt.Some? && d.closesAt.Some?
    ensures r.ok ==> (r.cal.opensAt == d.opensAt && r.cal.closesAt == d.closesAt &&
      (r.cal.isOpen <==> OpenAt(d.opensAt.value, d.closesAt.value, now)))
    ensures !r.ok ==> (r.cal.isOpen == cal.isOpen && r.cal.closesAt == cal.closesAt &&
      r.cal.opensAt == (if d.opensAt.Some? then d.opensAt else cal.opensAt))
  {
    var c1 := cal.(info := Some(d));
    if d.opensAt.None? then InfoLoad(c1, false)
    else
      var c2 := c1.(opensAt := d.opensAt);
      if d.closesAt.None? then InfoLoad(c2, false)
      else InfoLoad(c2.(closesAt := d.closesAt, isOpen := OpenAt(d.opensAt.value, d.closesAt.value, now)), true)
  }

  /** `__load_market_info`. `today` is the broker's market-hours answer
      (`None` when the request fails); a record without both instants is
      replaced by the one its `next_open_hours` link leads to. */
  function LoadMarketInfo(cal: Calendar, today: Option<MarketDay>, now: int): (r: InfoLoad)
    ensures r.ok ==> (r.cal.opensAt.Some? && r.cal.closesAt.Some? && r.cal.info.Some? &&
      HasHours(r.cal.info.value) &&
      r.cal.opensAt == r.cal.info.value.opensAt && r.cal.closesAt == r.cal.info.value.closesAt &&
      (r.cal.isOpen <==> OpenAt(r.cal.opensAt.value, r.cal.closesAt.value, now)))
    ensures r.ok ==> (today.Some? &&
      r.cal.info == (if HasHours(today.value) then today else today.value.next))
    ensures !r.ok ==> r.cal.isOpen == cal.isOpen
    ensures cal.opensAt.Some? ==> r.cal.opensAt.Some?
    ensures cal.closesAt.Some? ==> r.cal.closesAt.Some?
  {
    match today
    case None => InfoLoad(cal, false)
    case Some(d) =>
      if HasHours(d) then Store(cal, d, now)
      else
        match d.next
        case None => InfoLoad(cal, false)
        case Some(n) => Store(cal, n, now)
  }

  /** With a complete record for today the flag is exactly `opens <= now <
      closes` for today's hours, and the fallback record is not consulted. */
  lemma MarketOpenFlag(cal: Calendar, d: MarketDay, now: int)
    requires HasHours(d)
    ensures var r := LoadMarketInfo(cal, Some(d), now);
      r.ok && r.cal.opensAt == d.opensAt && r.cal.closesAt == d.closesAt &&
      (r.cal.isOpen <==> d.opensAt.value <= now < d.closesAt.value)
  {
  }

  /** A load that raises never clears instants that were already known: a
      stale calendar stays usable. */
  lemma FailedLoadKeepsKnownHours(cal: Calendar, today: Option<MarketDay>, now: int)
    requires cal.opensAt.Some? && cal.closesAt.Some?
    requires !LoadMarketInfo(cal, today, now).ok
    ensures var r := LoadMarketInfo(cal, today, now);
      r.cal.opensAt.Some? && r.cal.closesAt.Some? && r.cal.isOpen == cal.isOpen
  {
  }

  /** The reload watermark `_next_data_reloadable_time` set after a
      successful load: outside the window from two hours before the open to
      one hour after the close the next top of the hour, inside it ten
      seconds on. */
  function NextReloadable(now: int, opens: int, closes: int): (w: int)
    ensures now < w
    ensures (now > closes + HourSecs || now < opens - 2 * HourSecs) ==>
      w % HourSecs == 0 && w <= now + HourSecs
    ensures !(now > closes + HourSecs || now < opens - 2 * HourSecs) ==> w == now + 10
  {
    if now > closes + 60 * MinuteSecs || now < opens - 120 * MinuteSecs then FloorHour(now + HourSecs)
    else now + 10
  }

  /** Throttling: after a reload outside the window no reload happens again
      before the next top of the hour, and inside it none within ten
      seconds. */
  lemma ReloadSpacing(now: int, opens: int, closes: int, later: int)
    requires now <= later < NextReloadable(now, opens, closes)
    ensures later - now < HourSecs
    ensures !(now > closes + HourSecs || now < opens - 2 * HourSecs) ==> later - now < 10
    ensures (now > closes + HourSecs || now < opens - 2 * HourSecs) ==> later / HourSecs == now / HourSecs
  {
  }
}
