/** Securities as the broker describes them, the tick-size rounding a
    security applies to prices, the symbol map the engine builds from one
    security or a list of them, and the lookup behind the engine's security
    cache. */
module Securities {
  import opened Common

  /** The broker's instrument record (`sec_detail`), reduced to the fields the
      engine reads. `minTickSize` is `None` when the key is absent or holds an
      empty value. */
  datatype Instrument = Instrument(
    symbol: string,
    simpleName: string,
    tradeable: bool,
    kind: string,
    minTickSize: Option<real>)

  datatype Security = Security(
    symbol: string,
    simpleName: string,
    minTickSize: Option<real>,
    isTradeable: bool,
    securityType: string,
    detail: Instrument)

  /** `ceil` of a real. */
  function CeilReal(x: real): (r: int)
    ensures x <= r as real < x + 1.0
  {
    -((-x).Floor)
  }

  /** `x` is a whole multiple of `t`. */
  predicate IsMultiple(x: real, t: real)
    requires t != 0.0
  {
    (x / t).Floor as real == x / t
  }

  lemma MultipleOf(k: int, t: real)
    requires t != 0.0
    ensures IsMultiple(k as real * t, t)
  {
    assert k as real * t / t == k as real;
  }

  lemma ScaleLe(a: real, b: real, t: real)
    requires a <= b && t > 0.0
    ensures a * t <= b * t
  {
    assert b * t - a * t == (b - a) * t;
  }

  lemma ScaleLt(a: real, b: real, t: real)
    requires a < b && t > 0.0
    ensures a * t < b * t
  {
    assert b * t - a * t == (b - a) * t;
  }

  /** `price_convert_up_by_tick_size`: the price rounded up to a multiple of
      the tick; without a tick (`None` or 0) the price itself. */
  function PriceConvertUp(tick: Option<real>, price: real): (r: real)
    ensures !Given(tick) ==> r == price
    ensures Given(tick) ==> IsMultiple(r, tick.value)
    ensures Given(tick) && tick.value > 0.0 ==> price <= r < price + tick.value
  {
    if !Given(tick) then price
    else
      var t := tick.value;
      var q := price / t;
      var c := CeilReal(q);
      MultipleOf(c, t);
      assert q * t == price;
      if t > 0.0 then
        assert q <= c as real < q + 1.0;
        ScaleLe(q, c as real, t);
        var up := q + 1.0;
        ScaleLt(c as real, up, t);
        assert (c as real) * t < up * t;
        assert up * t == q * t + t;
        assert q * t == price;
        assert (c as real) * t < price + t;
        c as real * t
      else
        c as real * t
  }

  /** `price_convert_down_by_tick_size`: the price rounded down to a multiple
      of the tick; without a tick the price itself. */
  function PriceConvertDown(tick: Option<real>, price: real): (r: real)
    ensures !Given(tick) ==> r == price
    ensures Given(tick) ==> IsMultiple(r, tick.value)
    ensures Given(tick) && tick.value > 0.0 ==> price - tick.value < r <= price
  {
    if !Given(tick) then price
    else
      var t := tick.value;
      var q := price / t;
      var f := q.Floor;
      MultipleOf(f, t);
      assert q * t == price;
      if t > 0.0 then
        ScaleLe(f as real, q, t);
        ScaleLt(q - 1.0, f as real, t);
        assert (q - 1.0) * t == price - t;
        f as real * t
      else
        f as real * t
  }

  /** Rounding up gives the least multiple of a positive tick that is not
      below the price. */
  lemma ConvertUpLeast(tick: real, price: real, k: int)
    requires tick > 0.0 && k as real * tick >= price
    ensures PriceConvertUp(Some(tick), price) <= k as real * tick
  {
    var q := price / tick;
    var c := CeilReal(q);
    assert q * tick == price;
    assert k as real >= q by {
      if k as real < q {
        ScaleLt(k as real, q, tick);
      }
    }
    assert c <= k;
    ScaleLe(c as real, k as real, tick);
  }

  /** Rounding down gives the greatest multiple of a positive tick that is
      not above the price. */
  lemma ConvertDownGreatest(tick: real, price: real, k: int)
    requires tick > 0.0 && k as real * tick <= price
    ensures k as real * tick <= PriceConvertDown(Some(tick), price)
  {
    var q := price / tick;
    assert q * tick == price;
    assert k as real <= q by {
      if k as real > q {
        ScaleLt(q, k as real, tick);
      }
    }
    assert k <= q.Floor;
    ScaleLe(k as real, q.Floor as real, tick);
  }

  /** A price already on the tick grid is left alone by both roundings. */
  lemma ConvertOnGrid(tick: real, price: real)
    requires tick > 0.0 && IsMultiple(price, tick)
    ensures PriceConvertUp(Some(tick), price) == price
    ensures PriceConvertDown(Some(tick), price) == price
  {
    var q := price / tick;
    assert q * tick == price;
    assert q.Floor as real == q;
    assert CeilReal(q) == q.Floor;
  }

  /** The argument of `security_to_symbol_map` and of `history`: one security
      or a list of them. */
  datatype SecurityArg = OneSecurity(sec: Security) | SecurityList(secs: seq<Security>)

  /** The symbols of a list of securities, in order. */
  function Symbols(secs: seq<Security>): (r: seq<string>)
    ensures |r| == |secs| && forall i :: 0 <= i < |secs| ==> r[i] == secs[i].symbol
  {
    if secs == [] then [] else [secs[0].symbol] + Symbols(secs[1..])
  }

  /** The dict `security_to_symbol_map` fills for a list, one entry per
      security in list order, so a later security replaces an earlier one
      with the same symbol. */
  function SymbolMapOf(secs: seq<Security>): (m: map<string, Security>)
    ensures forall s :: s in m ==> m[s].symbol == s
    decreases |secs|
  {
    if secs == [] then map[]
    else
      var last := secs[|secs| - 1];
      SymbolMapOf(secs[..|secs| - 1])[last.symbol := last]
  }

  function SymbolMap(arg: SecurityArg): map<string, Security> {
    match arg
    case OneSecurity(sec) => map[sec.symbol := sec]
    case SecurityList(secs) => SymbolMapOf(secs)
  }

  /** The map has a key for exactly the symbols in the list. */
  lemma {:induction false} SymbolMapKeys(secs: seq<Security>)
    ensures forall s :: s in SymbolMapOf(secs) <==> s in Symbols(secs)
    decreases |secs|
  {
    if secs != [] {
      var n := |secs| - 1;
      SymbolMapKeys(secs[..n]);
      assert Symbols(secs) == Symbols(secs[..n]) + [secs[n].symbol];
    }
  }

  /** Each key holds the last security of the list with that symbol. */
  lemma {:induction false} SymbolMapLastWins(secs: seq<Security>, i: int)
    requires 0 <= i < |secs|
    requires forall j :: i < j < |secs| ==> secs[j].symbol != secs[i].symbol
    ensures secs[i].symbol in SymbolMapOf(secs) && SymbolMapOf(secs)[secs[i].symbol] == secs[i]
    decreases |secs|
  {
    var n := |secs| - 1;
    if i < n {
      var init := secs[..n];
      assert init[i] == secs[i];
      forall j | i < j < |init| ensures init[j].symbol != init[i].symbol {
        assert init[j] == secs[j];
      }
      SymbolMapLastWins(init, i);
    }
  }

  /** `security_to_symbol_map`. */
  method SecurityToSymbolMap(arg: SecurityArg) returns (m: map<string, Security>)
    ensures m == SymbolMap(arg)
  {
    if arg.OneSecurity? {
      return map[arg.sec.symbol := arg.sec];
    }
    var secs := arg.secs;
    m := map[];
    var i := 0;
    while i < |secs|
      invariant 0 <= i <= |secs|
      invariant m == SymbolMapOf(secs[..i])
    {
      assert secs[..i + 1][..i] == secs[..i];
      m := m[secs[i].symbol := secs[i]];
      i := i + 1;
    }
    assert secs[..|secs|] == secs;
  }

  /** Where the loop over the broker's search results stops: the first
      result with exactly the wanted symbol, or the end of the list. */
  function FirstMatch(results: seq<Instrument>, symbol: string): (k: nat)
    ensures k <= |results|
    ensures k < |results| ==> results[k].symbol == symbol
    ensures forall j :: 0 <= j < k ==> results[j].symbol != symbol
  {
    if results == [] then 0
    else if results[0].symbol == symbol then 0
    else 1 + FirstMatch(results[1..], symbol)
  }

  /** The security built from an instrument record (`Security(...)`). */
  function BuildSecurity(d: Instrument): Security {
    Security(d.symbol, d.simpleName, d.minTickSize, d.tradeable, d.kind, d)
  }

  /** What `fetch_and_build_security` returns, the cache it leaves and
      whether it asked the broker to search for the symbol. */
  datatype Lookup = Lookup(sec: Option<Security>, cache: map<string, Security>, queried: bool)

  /** `fetch_and_build_security(symbol, sec_detail)`, with `search` standing
      for the broker's answer to an instrument search for `symbol`, consulted
      only when the symbol is not cached and no detail was passed. */
  function FetchSecurity(cache: map<string, Security>, symbol: string, detail: Option<Instrument>,
                         search: seq<Instrument>): (r: Lookup)
    ensures r.queried <==> symbol !in cache && detail.None?
    ensures symbol in cache ==> r.sec == Some(cache[symbol]) && r.cache == cache
    ensures r.sec.None? ==> r.cache == cache
    ensures detail.Some? ==> r.sec.Some?
    ensures detail.None? && symbol !in cache ==>
      (r.sec.None? <==> forall i :: 0 <= i < |search| ==> search[i].symbol != symbol)
    ensures r.sec.Some? && symbol !in cache ==>
      r.sec.value.symbol in r.cache && r.cache[r.sec.value.symbol] == r.sec.value &&
      r.cache.Keys == cache.Keys + {r.sec.value.symbol} &&
      (forall s :: s in cache && s != r.sec.value.symbol ==> r.cache[s] == cache[s])
    ensures r.sec.Some? && symbol !in cache && detail.None? ==> r.sec.value.symbol == symbol
  {
    if symbol in cache then Lookup(Some(cache[symbol]), cache, false)
    else
      var found :=
        if detail.Some? then detail
        else
          var k := FirstMatch(search, symbol);
          if k < |search| then Some(search[k]) else None;
      match found
      case None => Lookup(None, cache, detail.None?)
      case Some(d) =>
        var sec := BuildSecurity(d);
        Lookup(Some(sec), cache[d.symbol := sec], detail.None?)
  }

  /** A second lookup of a symbol that the first lookup found (by search, or
      from a detail record of that same symbol) returns the identical
      security, leaves the cache as it is and does not ask the broker. */
  lemma FetchIdempotent(cache: map<string, Security>, symbol: string, detail: Option<Instrument>,
                        search: seq<Instrument>, detail2: Option<Instrument>, search2: seq<Instrument>)
    requires FetchSecurity(cache, symbol, detail, search).sec.Some?
    requires detail.None? || detail.value.symbol == symbol
    ensures var first := FetchSecurity(cache, symbol, detail, search);
      FetchSecurity(first.cache, symbol, detail2, search2) == Lookup(first.sec, first.cache, false)
  {
  }
}
