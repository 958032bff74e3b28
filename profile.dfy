/** The reconciliation `__load_profile_info` performs: it reads the broker's
    positions, portfolio and account, and replaces the context's portfolio
    and account figures. Money is `real`; a NaN price is `None`. */
module Profile {
  import opened Common
  import opened Securities

  /** The account fields read, already converted with `float()`. */
  datatype AccountInfo = AccountInfo(
    unsettledFunds: real,
    unclearedDeposits: real,
    cashHeldForOrders: real,
    cash: real,
    marginLimit: Option<real>)

  /** The portfolio fields read. */
  datatype PortfolioInfo = PortfolioInfo(
    marketValue: real,
    equity: real,
    equityPreviousClose: real,
    excessMargin: real)

  /** One broker position with its instrument record, and the two prices the
      engine's `current(security, "price")` calls returned for it. */
  datatype PositionRecord = PositionRecord(
    quantity: real,
    instrument: Instrument,
    created: int,
    averageBuyPrice: real,
    firstPrice: Option<real>,
    secondPrice: Option<real>)

  /** The three broker answers one reconciliation reads. */
  datatype ProfileInputs = ProfileInputs(positions: seq<PositionRecord>, portfolio: PortfolioInfo, account: AccountInfo)

  datatype Position = Position(amount: int, costBasis: real, lastSalePrice: Option<real>, created: int)

  datatype Portfolio = Portfolio(
    capitalUsed: real,
    cash: real,
    pnl: real,
    positions: map<Security, Position>,
    portfolioValue: real,
    positionsValue: real,
    returnRatio: real,
    startingCash: real)

  datatype Account = Account(
    availableFunds: real,
    buyingPower: real,
    cushion: real,
    equityWithLoan: real,
    excessLiquidity: real,
    initialMarginRequirement: real,
    leverage: real,
    maintenanceMarginRequirement: real,
    netLeverage: real,
    netLiquidation: real,
    settledCash: real,
    totalPositionsValue: real)

  /** The engine fields the reconciliation reads and writes:
      `_starting_cash` (`None` until captured), the security cache, the
      last-known prices and the context's portfolio and account. */
  datatype Books = Books(
    startingCash: Option<real>,
    securities: map<string, Security>,
    knownPrice: map<Security, Option<real>>,
    portfolio: Option<Portfolio>,
    account: Option<Account>)

  /** The variables of the position loop. */
  datatype Tally = Tally(
    longValue: real,
    shortValue: real,
    unrealized: Option<real>,
    positions: map<Security, Position>,
    securities: map<string, Security>,
    knownPrice: map<Security, Option<real>>)

  /** The price a position is valued at: the first reading, a second
      reading when the first is falsy (0.0), then the last price known for
      the security when that is falsy too. */
  function LastPrice(first: Option<real>, second: Option<real>, known: map<Security, Option<real>>,
                     sec: Security): (p: Option<real>)
    ensures p == first || p == second || (sec in known && p == known[sec])
    ensures Truthy(first) ==> p == first
    ensures !Truthy(first) && Truthy(second) ==> p == second
    ensures !Truthy(first) && !Truthy(second) ==> p == if sec in known then known[sec] else second
    ensures Truthy(p) <==> Truthy(first) || Truthy(second) || (sec in known && Truthy(known[sec]))
  {
    var p := if Truthy(first) then first else second;
    if !Truthy(p) && sec in known then known[sec] else p
  }

  /** `unrealized_pl + gain`, where a NaN on either side gives NaN. */
  function AddGain(acc: Option<real>, gain: Option<real>): Option<real> {
    if acc.Some? && gain.Some? then Some(acc.value + gain.value) else None
  }

  /** One pass of the position loop. */
  function Step(t: Tally, rec: PositionRecord): Tally {
    var amount := Trunc(rec.quantity);
    if amount == 0 then t
    else
      var found := FetchSecurity(t.securities, rec.instrument.symbol, Some(rec.instrument), []);
      Settle(t, rec, amount, found.sec.value, found.cache)
  }

  /** The rest of a pass for a held position, once its security `sec` is
      looked up and the cache is `cache`: its price, its entry in
      `positions` and its share of the position values. */
  function Settle(t: Tally, rec: PositionRecord, amount: int, sec: Security, cache: map<string, Security>): Tally {
    var price := LastPrice(rec.firstPrice, rec.secondPrice, t.knownPrice, sec);
    var cost := PositionCost(rec.averageBuyPrice, amount);
    var positions := t.positions[sec := Position(amount, rec.averageBuyPrice, price, rec.created)];
    var known := t.knownPrice[sec := price];
    var gain := PositionGain(amount, price, cost);
    if amount > 0 then Tally(t.longValue + cost, t.shortValue, AddGain(t.unrealized, gain), positions, cache, known)
    else Tally(t.longValue, t.longValue + cost, AddGain(t.unrealized, gain), positions, cache, known)
  }

  /** `cost_basis * abs(amount)`: what a position of `amount` shares cost. */
  function PositionCost(averageBuyPrice: real, amount: int): real {
    averageBuyPrice * (Abs(amount) as real)
  }

  /** The unrealized gain of a position of `amount` shares bought for
      `cost` in all: market value less cost when long, cost less market
      value when short, and NaN without a price. */
  function PositionGain(amount: int, price: Option<real>, cost: real): (g: Option<real>)
    ensures g.Some? <==> price.Some?
    ensures price.Some? && amount > 0 ==> g.value + cost == price.value * (Abs(amount) as real)
    ensures price.Some? && amount <= 0 ==> g.value + price.value * (Abs(amount) as real) == cost
  {
    var q := Abs(amount) as real;
    if price.None? then None
    else if amount > 0 then Some(price.value * q - cost)
    else Some(cost - price.value * q)
  }

  /** The loop variables after the positions `recs`. */
  function TallyOf(start: Tally, recs: seq<PositionRecord>): Tally
    decreases |recs|
  {
    if recs == [] then start else Step(TallyOf(start, recs[..|recs| - 1]), recs[|recs| - 1])
  }

  lemma TallyOfSnoc(start: Tally, recs: seq<PositionRecord>, i: int)
    requires 0 <= i < |recs|
    ensures TallyOf(start, recs[..i + 1]) == Step(TallyOf(start, recs[..i]), recs[i])
  {
    assert recs[..i + 1][..i] == recs[..i];
  }

  /** The total cost of the long positions, an independent account of
      `long_position_value`. */
  function LongCost(recs: seq<PositionRecord>): real
    decreases |recs|
  {
    if recs == [] then 0.0
    else
      var rec := recs[|recs| - 1];
      var amount := Trunc(rec.quantity);
      LongCost(recs[..|recs| - 1]) + (if amount > 0 then PositionCost(rec.averageBuyPrice, amount) else 0.0)
  }

  /** `long_position_value` is the cost (average buy price times quantity)
      summed over the long positions. */
  lemma {:induction false} LongValueIsLongCost(start: Tally, recs: seq<PositionRecord>)
    ensures TallyOf(start, recs).longValue == start.longValue + LongCost(recs)
    decreases |recs|
  {
    if recs != [] {
      LongValueIsLongCost(start, recs[..|recs| - 1]);
    }
  }

  /** A position the loop skips: its quantity truncates to zero. */
  predicate Flat(rec: PositionRecord) { Trunc(rec.quantity) == 0 }

  /** Zero-quantity positions never enter `positions`, and they change
      nothing else either. */
  lemma {:induction false} FlatPositionsIgnored(start: Tally, recs: seq<PositionRecord>)
    requires forall s :: s in start.positions ==> start.positions[s].amount != 0
    ensures forall s :: s in TallyOf(start, recs).positions ==> TallyOf(start, recs).positions[s].amount != 0
    ensures (forall i :: 0 <= i < |recs| ==> Flat(recs[i])) ==> TallyOf(start, recs) == start
    decreases |recs|
  {
    if recs != [] {
      FlatPositionsIgnored(start, recs[..|recs| - 1]);
    }
  }

  /** A short position does not add to `short_position_value`: the value is
      reassigned from the long value plus this position's cost, so after a
      final short position the capital used is that one position's cost. */
  lemma ShortValueReassigned(start: Tally, recs: seq<PositionRecord>, rec: PositionRecord)
    requires Trunc(rec.quantity) < 0 && rec.averageBuyPrice >= 0.0
    ensures var before := TallyOf(start, recs);
      var after := TallyOf(start, recs + [rec]);
      after.longValue == before.longValue &&
      after.shortValue == before.longValue + rec.averageBuyPrice * (-Trunc(rec.quantity)) as real &&
      RealAbs(after.shortValue - after.longValue) == rec.averageBuyPrice * (-Trunc(rec.quantity)) as real
  {
    var before := TallyOf(start, recs);
    assert (recs + [rec])[..|recs|] == recs;
    assert TallyOf(start, recs + [rec]) == Step(before, rec);
    var c := PositionCost(rec.averageBuyPrice, Trunc(rec.quantity));
    assert Abs(Trunc(rec.quantity)) as real == (-Trunc(rec.quantity)) as real;
    assert Step(before, rec).longValue == before.longValue && Step(before, rec).shortValue == before.longValue + c;
    assert c >= 0.0;
  }

  /** Without short positions the short value stays where it started. */
  lemma {:induction false} NoShortsNoShortValue(start: Tally, recs: seq<PositionRecord>)
    requires forall i :: 0 <= i < |recs| ==> Trunc(recs[i].quantity) >= 0
    ensures TallyOf(start, recs).shortValue == start.shortValue
    decreases |recs|
  {
    if recs != [] {
      NoShortsNoShortValue(start, recs[..|recs| - 1]);
    }
  }

  /** The outcome of one reconciliation: the engine fields afterwards, and
      whether it completed (`False` stands for the exception that
      `_load_all_data` catches). */
  datatype ProfileLoad = ProfileLoad(books: Books, ok: bool)

  function StartTally(b: Books): Tally {
    Tally(0.0, 0.0, Some(0.0), map[], b.securities, b.knownPrice)
  }

  /** `__load_profile_info`. `inputs` is `None` when a broker request
      raises. */
  function LoadProfile(b: Books, inputs: Option<ProfileInputs>): (r: ProfileLoad)
    ensures inputs.None? ==> r == ProfileLoad(b, false)
    ensures inputs.Some? ==> (r.ok <==> inputs.value.portfolio.equity != 0.0)
    ensures inputs.Some? ==> (r.books.portfolio.Some? &&
      r.books.startingCash == Some(r.books.portfolio.value.startingCash) &&
      r.books.startingCash == (if Given(b.startingCash) then b.startingCash else Some(inputs.value.portfolio.equity)))
    ensures r.ok ==> r.books.account.Some?
    ensures inputs.Some? && !r.ok ==> r.books.account == b.account
    ensures inputs.Some? ==> var t := TallyOf(StartTally(b), inputs.value.positions);
      r.books.portfolio == Some(PortfolioFigures(inputs.value, t, r.books.startingCash.value)) &&
      (r.ok ==> r.books.account == Some(AccountFigures(inputs.value, t)))
  {
    match inputs
    case None => ProfileLoad(b, false)
    case Some(inp) =>
      var pv := inp.portfolio.equity;
      var sc := if Given(b.startingCash) then b.startingCash.value else pv;
      var t := TallyOf(StartTally(b), inp.positions);
      var b1 := Books(Some(sc), t.securities, t.knownPrice, Some(PortfolioFigures(inp, t, sc)), b.account);
      if pv == 0.0 then ProfileLoad(b1, false)
      else ProfileLoad(b1.(account := Some(AccountFigures(inp, t))), true)
  }

  /** The portfolio figures of one reconciliation, from the broker answers,
      the position tally and the starting cash. */
  function PortfolioFigures(inp: ProfileInputs, t: Tally, sc: real): Portfolio {
    var port, acct := inp.portfolio, inp.account;
    var pv := port.equity;
    var ratio := if sc > 0.0 then (pv - sc) / sc else 0.0;
    Portfolio(RealAbs(t.shortValue - t.longValue), acct.cash + acct.unsettledFunds,
              port.equity - acct.unclearedDeposits - port.equityPreviousClose,
              t.positions, pv, port.marketValue, ratio, sc)
  }

  /** The account figures, computed only for a non-zero portfolio value. */
  function AccountFigures(inp: ProfileInputs, t: Tally): Account
    requires inp.portfolio.equity != 0.0
  {
    var port, acct := inp.portfolio, inp.account;
    var pv := port.equity;
    var totalCash := acct.cash + acct.unsettledFunds;
    var leverage := if pv > 0.0 then (t.longValue + t.shortValue) / pv else 0.0;
    var netLeverage := if pv > 0.0 then port.marketValue / pv else 0.0;
    Account(pv, port.equity - port.marketValue - acct.cashHeldForOrders, totalCash / pv,
            pv, port.excessMargin, if acct.marginLimit.Some? then acct.marginLimit.value else 0.0,
            leverage, pv - port.excessMargin, netLeverage, pv, acct.cash, port.marketValue)
  }

  /** The derived portfolio figures: returns stay 0 unless the starting
      cash is positive, and are then the gain over it; the capital used is
      the gap between short and long value. */
  lemma PortfolioFiguresDerived(inp: ProfileInputs, t: Tally, sc: real)
    ensures var p, pv := PortfolioFigures(inp, t, sc), inp.portfolio.equity;
      (sc <= 0.0 ==> p.returnRatio == 0.0) &&
      (sc > 0.0 ==> p.returnRatio * sc == pv - sc) &&
      p.capitalUsed == RealAbs(t.shortValue - t.longValue) &&
      p.positions == t.positions && p.startingCash == sc && p.portfolioValue == pv
  {
    if sc > 0.0 {
      QuotientTimesDivisor(inp.portfolio.equity - sc, sc);
    }
  }

  /** The derived account figures: leverage and net leverage stay 0 unless
      the portfolio value is positive, and the cushion is the total cash
      over the portfolio value. */
  lemma AccountFiguresDerived(inp: ProfileInputs, t: Tally)
    requires inp.portfolio.equity != 0.0
    ensures var a, pv := AccountFigures(inp, t), inp.portfolio.equity;
      (pv < 0.0 ==> a.leverage == 0.0 && a.netLeverage == 0.0) &&
      (pv > 0.0 ==> a.leverage * pv == t.longValue + t.shortValue && a.netLeverage * pv == inp.portfolio.marketValue) &&
      a.cushion * pv == inp.account.cash + inp.account.unsettledFunds
  {
    var pv := inp.portfolio.equity;
    if pv > 0.0 {
      QuotientTimesDivisor(t.longValue + t.shortValue, pv);
      QuotientTimesDivisor(inp.portfolio.marketValue, pv);
    }
    QuotientTimesDivisor(inp.account.cash + inp.account.unsettledFunds, pv);
  }

  lemma QuotientTimesDivisor(x: real, y: real)
    requires y != 0.0
    ensures (x / y) * y == x
  {
  }

  /** The starting cash is captured once: a truthy value survives every
      later reconciliation, whatever the portfolio is worth then. */
  lemma StartingCashCapturedOnce(b: Books, first: ProfileInputs, second: ProfileInputs)
    requires first.portfolio.equity != 0.0
    ensures var b1 := LoadProfile(b, Some(first)).books;
      LoadProfile(b1, Some(second)).books.startingCash == b1.startingCash
  {
  }
}
