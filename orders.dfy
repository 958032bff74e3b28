/** Orders: the order-type check, the translation of the broker's order
    records into `Order` objects, the open-order filter grouped by symbol,
    and the request `order_shares` sends to the broker. */
module Orders {
  import opened Common
  import opened Securities

  /** `OrderType(price, stop_price)`; `None` is Python's `None`. */
  datatype OrderType = OrderType(price: Option<real>, stopPrice: Option<real>)

  /** `OrderType.is_market_order`: neither a limit price nor a stop price is
      set (a zero counts as unset, as Python truthiness has it). */
  predicate IsMarketOrder(t: OrderType) {
    !(Given(t.price) || Given(t.stopPrice))
  }

  /** `_order_status_map`, the broker's order state to the engine's status
      code: 0 open, 1 filled, 2 cancelled, 3 rejected, 4 held, 5 failed. */
  const StatusMap: map<string, int> := map[
    "confirmed" := 0, "partially_filled" := 0, "filled" := 1, "cancelled" := 2,
    "rejected" := 3, "queued" := 4, "unconfirmed" := 4, "failed" := 5]

  /** The states an order is still open in. */
  predicate IsOpenState(state: string) {
    state == "confirmed" || state == "partially_filled" || state == "queued" || state == "unconfirmed"
  }

  /** The dict lookup `_order_status_map[state]`; an unlisted state raises
      `KeyError`. */
  function StatusOf(state: string): (r: Result<int>)
    ensures r.Ok? <==> state in StatusMap
    ensures r.Ok? ==> 0 <= r.value <= 5
    ensures r.Ok? ==> (r.value == 0 || r.value == 4 <==> IsOpenState(state))
  {
    if state in StatusMap then Ok(StatusMap[state]) else Err("KeyError")
  }

  /** The fields of a broker order record the engine reads. Times are
      already converted to local instants; a price the record holds as
      `null` is `None`. */
  datatype OrderRecord = OrderRecord(
    id: string,
    state: string,
    instrument: string,
    created: int,
    updated: int,
    trigger: string,
    kind: string,
    stopPrice: Option<real>,
    price: Option<real>,
    quantity: real,
    side: string,
    cumulativeQuantity: real,
    fees: real,
    rejectReason: Option<string>,
    timeInForce: string)

  datatype Order = Order(
    id: string,
    status: int,
    created: int,
    updated: int,
    stop: Option<real>,
    limit: Option<real>,
    amount: int,
    symbol: string,
    filled: int,
    commission: real,
    rejectedReason: Option<string>,
    timeInForce: string)

  /** `int(float(q))`, negated for a sell. */
  function SignedQuantity(q: real, side: string): int {
    if side == "sell" then -Trunc(q) else Trunc(q)
  }

  /** `_build_order_object(result, symbol)`. `symbolAt` stands for the
      instrument request that names the symbol when none is passed. */
  function BuildOrder(rec: OrderRecord, symbol: Option<string>, symbolAt: string -> string): (r: Result<Order>)
    ensures r.Ok? <==> (rec.state in StatusMap &&
      (rec.trigger == "stop" ==> rec.stopPrice.Some?) && (rec.kind == "limit" ==> rec.price.Some?))
    ensures r.Ok? ==> r.value.status == StatusMap[rec.state] && r.value.id == rec.id
    ensures r.Ok? ==> (r.value.stop.Some? <==> rec.trigger == "stop") && (r.value.stop.Some? ==> r.value.stop == rec.stopPrice)
    ensures r.Ok? ==> (r.value.limit.Some? <==> rec.kind == "limit") && (r.value.limit.Some? ==> r.value.limit == rec.price)
    ensures r.Ok? && rec.side == "sell" ==> r.value.amount == -Trunc(rec.quantity) && r.value.filled == -Trunc(rec.cumulativeQuantity)
    ensures r.Ok? && rec.side != "sell" ==> r.value.amount == Trunc(rec.quantity) && r.value.filled == Trunc(rec.cumulativeQuantity)
    ensures r.Ok? && symbol.Some? && symbol.value != "" ==> r.value.symbol == symbol.value
  {
    match StatusOf(rec.state)
    case Err(e) => Err(e)
    case Ok(status) =>
      var sym := if symbol.None? || symbol.value == "" then symbolAt(rec.instrument) else symbol.value;
      if rec.trigger == "stop" && rec.stopPrice.None? then Err("TypeError")
      else if rec.kind == "limit" && rec.price.None? then Err("TypeError")
      else
        var stop := if rec.trigger == "stop" then rec.stopPrice else None;
        var limit := if rec.kind == "limit" then rec.price else None;
        Ok(Order(rec.id, status, rec.created, rec.updated, stop, limit,
                 SignedQuantity(rec.quantity, rec.side), sym,
                 SignedQuantity(rec.cumulativeQuantity, rec.side),
                 rec.fees, rec.rejectReason, rec.timeInForce))
  }

  /** A record the open-order loop keeps: its state is listed and open, and
      its instrument's symbol is the one asked for (or none was asked for). */
  predicate Kept(rec: OrderRecord, wanted: Option<string>, symbolAt: string -> string) {
    rec.state in StatusMap && IsOpenState(rec.state) &&
    (wanted.None? || wanted.value == symbolAt(rec.instrument))
  }

  /** The `open_orders` dict after the loop of `get_open_orders` has seen
      `recs`: orders grouped by symbol, each group in record order. */
  function GroupOpen(recs: seq<OrderRecord>, wanted: Option<string>, symbolAt: string -> string)
    : Result<map<string, seq<Order>>>
    decreases |recs|
  {
    if recs == [] then Ok(map[])
    else
      match GroupOpen(recs[..|recs| - 1], wanted, symbolAt)
      case Err(e) => Err(e)
      case Ok(m) => GroupRecord(m, recs[|recs| - 1], wanted, symbolAt)
  }

  /** One pass of that loop: a confirmed or queued order for the wanted
      symbol is appended to its symbol's group. */
  function GroupRecord(m: map<string, seq<Order>>, rec: OrderRecord, wanted: Option<string>,
                       symbolAt: string -> string): Result<map<string, seq<Order>>>
  {
    match StatusOf(rec.state)
    case Err(e) => Err(e)
    case Ok(status) =>
      var sym := symbolAt(rec.instrument);
      if (status != 0 && status != 4) || (wanted.Some? && wanted.value != sym) then Ok(m)
      else
        match BuildOrder(rec, Some(sym), symbolAt)
        case Err(e) => Err(e)
        case Ok(o) => Ok(m[sym := (if sym in m then m[sym] else []) + [o]])
  }

  /** An independent account of one group: the orders built from the kept
      records whose instrument has symbol `s`, in record order. */
  function Picked(recs: seq<OrderRecord>, wanted: Option<string>, symbolAt: string -> string, s: string)
    : seq<Order>
    decreases |recs|
  {
    if recs == [] then []
    else
      var rec := recs[|recs| - 1];
      var init := Picked(recs[..|recs| - 1], wanted, symbolAt, s);
      if Kept(rec, wanted, symbolAt) && symbolAt(rec.instrument) == s then
        match BuildOrder(rec, Some(s), symbolAt)
        case Err(_) => init
        case Ok(o) => init + [o]
      else init
  }

  /** The grouping keeps exactly the open orders: a symbol has a group iff
      some kept record is for it, that group is the kept records' orders in
      order, and every order in it is open and carries the group's symbol. */
  lemma {:induction false} GroupOpenIsPicked(recs: seq<OrderRecord>, wanted: Option<string>,
                                              symbolAt: string -> string)
    requires GroupOpen(recs, wanted, symbolAt).Ok?
    ensures var m := GroupOpen(recs, wanted, symbolAt).value;
      forall s :: (s in m ==> m[s] == Picked(recs, wanted, symbolAt, s) && m[s] != []) &&
        (s !in m ==> Picked(recs, wanted, symbolAt, s) == [])
    decreases |recs|
  {
    if recs != [] {
      var init := recs[..|recs| - 1];
      GroupOpenIsPicked(init, wanted, symbolAt);
    }
  }

  /** Each order of a group records an open status and the group's symbol,
      and for a wanted symbol there is no other group. */
  lemma {:induction false} PickedAreOpen(recs: seq<OrderRecord>, wanted: Option<string>,
                                          symbolAt: string -> string, s: string)
    ensures forall o :: o in Picked(recs, wanted, symbolAt, s) ==>
      (o.status == 0 || o.status == 4) && o.symbol == s
    ensures wanted.Some? && s != wanted.value ==> Picked(recs, wanted, symbolAt, s) == []
    decreases |recs|
  {
    if recs != [] {
      PickedAreOpen(recs[..|recs| - 1], wanted, symbolAt, s);
    }
  }

  /** What `get_open_orders` returns: the orders of one security, or all of
      them grouped by symbol. */
  datatype OpenOrders = ForSecurity(orders: seq<Order>) | BySymbol(groups: map<string, seq<Order>>)

  function OpenOrdersResult(m: map<string, seq<Order>>, security: Option<Security>): OpenOrders {
    match security
    case Some(sec) => ForSecurity(if sec.symbol in m then m[sec.symbol] else [])
    case None => BySymbol(m)
  }

  function OpenOrdersSpec(results: Option<seq<OrderRecord>>, security: Option<Security>,
                          symbolAt: string -> string): Result<OpenOrders>
  {
    var recs := if results.Some? then results.value else [];
    var wanted := if security.Some? then Some(security.value.symbol) else None;
    match GroupOpen(recs, wanted, symbolAt)
    case Err(e) => Err(e)
    case Ok(m) => Ok(OpenOrdersResult(m, security))
  }

  /** `get_open_orders(security)`; `results` is the `results` list of the
      broker's order history, `None` when the response has none. */
  method GetOpenOrders(results: Option<seq<OrderRecord>>, security: Option<Security>,
                       symbolAt: string -> string) returns (r: Result<OpenOrders>)
    ensures r == OpenOrdersSpec(results, security, symbolAt)
  {
    var recs := if results.Some? then results.value else [];
    var wanted := if security.Some? then Some(security.value.symbol) else None;
    var openOrders: map<string, seq<Order>> := map[];
    var i := 0;
    while i < |recs|
      invariant 0 <= i <= |recs|
      invariant GroupOpen(recs[..i], wanted, symbolAt) == Ok(openOrders)
    {
      var pass := GroupPrefix(recs, i, wanted, symbolAt, openOrders);
      if pass.Err? {
        return Err(pass.reason);
      }
      openOrders := pass.value;
      i := i + 1;
    }
    assert recs[..|recs|] == recs;
    r := Ok(OpenOrdersResult(openOrders, security));
  }

  /** One pass of the loop of `get_open_orders` over `recs`, at record `i`:
      an error ends the whole loop with that error. */
  method GroupPrefix(recs: seq<OrderRecord>, i: int, wanted: Option<string>, symbolAt: string -> string,
                     openOrders: map<string, seq<Order>>) returns (r: Result<map<string, seq<Order>>>)
    requires 0 <= i < |recs| && GroupOpen(recs[..i], wanted, symbolAt) == Ok(openOrders)
    ensures r.Ok? ==> GroupOpen(recs[..i + 1], wanted, symbolAt) == r
    ensures r.Err? ==> GroupOpen(recs, wanted, symbolAt) == r
  {
    r := GroupPass(openOrders, recs[i], wanted, symbolAt);
    assert recs[..i + 1][..i] == recs[..i];
    if r.Err? {
      GroupOpenErrSticks(recs, i + 1, wanted, symbolAt);
    }
  }

  /** The loop body of `get_open_orders` on one order record. */
  method GroupPass(openOrders: map<string, seq<Order>>, rec: OrderRecord, wanted: Option<string>,
                   symbolAt: string -> string) returns (r: Result<map<string, seq<Order>>>)
    ensures r == GroupRecord(openOrders, rec, wanted, symbolAt)
  {
    var status := StatusOf(rec.state);
    if status.Err? {
      return Err(status.reason);
    }
    var sym := symbolAt(rec.instrument);
    if (status.value == 0 || status.value == 4) && (wanted.None? || wanted.value == sym) {
      var order := BuildOrder(rec, Some(sym), symbolAt);
      if order.Err? {
        return Err(order.reason);
      }
      var group := if sym in openOrders then openOrders[sym] else [];
      return Ok(openOrders[sym := group + [order.value]]);
    }
    r := Ok(openOrders);
  }

  /** Once a record raises, the whole loop raises with the same error. */
  lemma {:induction false} GroupOpenErrSticks(recs: seq<OrderRecord>, k: int, wanted: Option<string>,
                                               symbolAt: string -> string)
    requires 0 <= k <= |recs| && GroupOpen(recs[..k], wanted, symbolAt).Err?
    ensures GroupOpen(recs, wanted, symbolAt) == GroupOpen(recs[..k], wanted, symbolAt)
    decreases |recs| - k
  {
    if k < |recs| {
      assert recs[..k + 1][..k] == recs[..k];
      GroupOpenErrSticks(recs, k + 1, wanted, symbolAt);
    } else {
      assert recs[..k] == recs;
    }
  }

  /** The arguments `order_shares` passes to the broker's `place_order`. */
  datatype PlaceOrder = PlaceOrder(
    detail: Instrument,
    quantity: nat,
    price: Option<real>,
    stopPrice: Option<real>,
    transaction: string,
    trigger: string,
    kind: string,
    timeInForce: string)

  /** `order_shares(security, shares, order_type, time_in_force)`: a missing
      order type is a market order; a sell is a negative share count; a buy
      with a stop and no limit gets the stop, rounded up to the tick, as its
      price while its type stays `market`. */
  function OrderSharesRequest(sec: Security, shares: int, orderType: Option<OrderType>, timeInForce: string)
    : (p: PlaceOrder)
    ensures p.quantity == Abs(shares) && p.detail == sec.detail && p.timeInForce == timeInForce
    ensures p.transaction == (if shares < 0 then "sell" else "buy")
    ensures var t := if orderType.Some? then orderType.value else OrderType(None, None);
      p.stopPrice == t.stopPrice &&
      (p.trigger == "stop" <==> Given(t.stopPrice)) && (p.trigger != "stop" ==> p.trigger == "immediate") &&
      (p.kind == "limit" <==> Given(t.price)) && (p.kind != "limit" ==> p.kind == "market") &&
      (Given(t.price) ==> p.price == t.price)
    ensures var t := if orderType.Some? then orderType.value else OrderType(None, None);
      shares > 0 && Given(t.stopPrice) && !Given(t.price) ==>
        p.price == Some(PriceConvertUp(sec.minTickSize, t.stopPrice.value)) && p.kind == "market" &&
        (Given(sec.minTickSize) && sec.minTickSize.value > 0.0 ==> p.price.value >= t.stopPrice.value)
  {
    var t := if orderType.Some? then orderType.value else OrderType(None, None);
    var trigger := if Given(t.stopPrice) then "stop" else "immediate";
    var kind := if Given(t.price) then "limit" else "market";
    var transaction := if shares < 0 then "sell" else "buy";
    var price :=
      if shares > 0 && Given(t.stopPrice) && !Given(t.price)
      then Some(PriceConvertUp(sec.minTickSize, t.stopPrice.value))
      else t.price;
    PlaceOrder(sec.detail, Abs(shares), price, t.stopPrice, transaction, trigger, kind, timeInForce)
  }

  /** `order_shares`: the id of the order the broker placed, or `None` when
      it returned nothing. `place` stands for the broker call. */
  function OrderShares(sec: Security, shares: int, orderType: Option<OrderType>, timeInForce: string,
                       place: PlaceOrder -> Option<string>): Option<string>
  {
    place(OrderSharesRequest(sec, shares, orderType, timeInForce))
  }

  /** An order is sent as an immediate market order exactly when its order
      type is a market order (or missing); then it carries no price and no
      stop. */
  lemma MarketOrderRequest(sec: Security, shares: int, orderType: Option<OrderType>, timeInForce: string)
    ensures var p := OrderSharesRequest(sec, shares, orderType, timeInForce);
      (p.trigger == "immediate" && p.kind == "market" <==> orderType.None? || IsMarketOrder(orderType.value)) &&
      (orderType.None? || IsMarketOrder(orderType.value) ==> !Given(p.price) && !Given(p.stopPrice))
  {
  }
}
