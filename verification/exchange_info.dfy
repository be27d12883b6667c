/** The pure parts of the exchange-metadata lookups: `get_all_usdc_pairs`,
    `get_max_leverage` and `get_step_size`. The `exchangeInfo` reply is an input;
    `None` stands for a request that yielded no data. */
module ExchangeInfo {
  import opened Common

  datatype Filter =
    | LeverageFilter(maxLeverage: Option<int>)   // filterType "LEVERAGE", with or without "maxLeverage"
    | LotSizeFilter(stepSize: real)              // filterType "LOT_SIZE"
    | OtherFilter

  datatype SymbolInfo = SymbolInfo(symbol: string, status: string, filters: seq<Filter>)

  type ExchangeData = Option<seq<SymbolInfo>>

  const DefaultLeverage: int := 100
  const DefaultStepSize: real := 0.001

  predicate EndsWith(s: string, suffix: string) {
    |s| >= |suffix| && s[|s| - |suffix|..] == suffix
  }

  predicate IsTradingUsdc(info: SymbolInfo) {
    EndsWith(info.symbol, "USDC") && info.status == "TRADING"
  }

  /** The loop of `get_all_usdc_pairs`: the symbols quoted in USDC that are
      trading, in the exchange's order. */
  function TradingUsdc(symbols: seq<SymbolInfo>): (r: seq<string>)
    ensures |r| <= |symbols|
    ensures forall s :: s in r <==> exists i :: 0 <= i < |symbols| && symbols[i].symbol == s && IsTradingUsdc(symbols[i])
  {
    if symbols == [] then []
    else
      var rest := TradingUsdc(symbols[1..]);
      assert forall i :: 0 < i < |symbols| ==> symbols[i] == symbols[1..][i - 1];
      if IsTradingUsdc(symbols[0]) then [symbols[0].symbol] + rest else rest
  }

  /** `get_all_usdc_pairs(limit)`: no data gives the empty list; a limit of 0
      means no truncation. */
  function UsdcPairs(data: ExchangeData, limit: nat): (r: seq<string>)
    ensures data.None? ==> r == []
    ensures data.Some? ==> r <= TradingUsdc(data.value)
    ensures limit > 0 ==> |r| <= limit
    ensures data.Some? && (limit == 0 || |TradingUsdc(data.value)| <= limit) ==> r == TradingUsdc(data.value)
    ensures data.Some? && limit > 0 ==> |r| == if |TradingUsdc(data.value)| < limit then |TradingUsdc(data.value)| else limit
    ensures forall s :: s in r ==> EndsWith(s, "USDC")
  {
    if data.None? then []
    else
      var all := TradingUsdc(data.value);
      assert forall s :: s in all ==> EndsWith(s, "USDC");
      assert forall k :: 0 <= k <= |all| ==> forall s :: s in all[..k] ==> s in all;
      if limit > 0 && |all| > limit then all[..limit] else all
  }

  /** `a` is the name of some entry of `symbols` before one named `b`. */
  ghost predicate ListedBefore(a: string, b: string, symbols: seq<SymbolInfo>) {
    exists p, q :: 0 <= p < q < |symbols| && a == symbols[p].symbol && b == symbols[q].symbol
  }

  /** Any two names of `r` are listed in that order in `symbols`. */
  ghost predicate InListOrder(r: seq<string>, symbols: seq<SymbolInfo>) {
    forall i, j :: 0 <= i < j < |r| ==> ListedBefore(r[i], r[j], symbols)
  }

  /** The USDC pairs come out in the exchange's order, so the `[:limit]` cut keeps
      the first ones listed. */
  lemma {:induction false} TradingUsdcKeepsOrder(symbols: seq<SymbolInfo>)
    ensures InListOrder(TradingUsdc(symbols), symbols)
  {
    if symbols != [] {
      var tail := symbols[1..];
      var rest := TradingUsdc(tail);
      TradingUsdcKeepsOrder(tail);
      assert symbols == [symbols[0]] + tail;
      OrderUnderHead(rest, symbols[0], tail);
      if IsTradingUsdc(symbols[0]) {
        forall s | s in rest
          ensures exists q :: 0 <= q < |tail| && tail[q].symbol == s
        {
          var q :| 0 <= q < |tail| && tail[q].symbol == s && IsTradingUsdc(tail[q]);
        }
        OrderWithHead(rest, symbols[0], tail);
      }
    }
  }

  /** Listing one more entry in front keeps an order. */
  lemma OrderUnderHead(r: seq<string>, x: SymbolInfo, tail: seq<SymbolInfo>)
    requires InListOrder(r, tail)
    ensures InListOrder(r, [x] + tail)
  {
    var symbols := [x] + tail;
    forall i, j | 0 <= i < j < |r|
      ensures ListedBefore(r[i], r[j], symbols)
    {
      assert ListedBefore(r[i], r[j], tail);
      var p, q :| 0 <= p < q < |tail| && r[i] == tail[p].symbol && r[j] == tail[q].symbol;
      assert r[i] == symbols[p + 1].symbol && r[j] == symbols[q + 1].symbol;
    }
  }

  /** The name of that front entry may go first. */
  lemma OrderWithHead(r: seq<string>, x: SymbolInfo, tail: seq<SymbolInfo>)
    requires InListOrder(r, [x] + tail)
    requires forall s :: s in r ==> exists q :: 0 <= q < |tail| && tail[q].symbol == s
    ensures InListOrder([x.symbol] + r, [x] + tail)
  {
    var symbols := [x] + tail;
    var r' := [x.symbol] + r;
    forall i, j | 0 <= i < j < |r'|
      ensures ListedBefore(r'[i], r'[j], symbols)
    {
      if i == 0 {
        assert r'[j] == r[j - 1] && r[j - 1] in r;
        var q :| 0 <= q < |tail| && tail[q].symbol == r[j - 1];
        assert r'[i] == symbols[0].symbol && r'[j] == symbols[q + 1].symbol;
      } else {
        assert r'[i] == r[i - 1] && r'[j] == r[j - 1];
        assert ListedBefore(r[i - 1], r[j - 1], symbols);
      }
    }
  }

  /** The entry of the first symbol named `name`. */
  function FindSymbol(symbols: seq<SymbolInfo>, name: string): (r: Option<SymbolInfo>)
    ensures r.None? <==> forall i :: 0 <= i < |symbols| ==> symbols[i].symbol != name
    ensures r.Some? ==> exists i :: 0 <= i < |symbols| && symbols[i] == r.value && r.value.symbol == name &&
                                    forall j :: 0 <= j < i ==> symbols[j].symbol != name
  {
    if symbols == [] then None
    else if symbols[0].symbol == name then Some(symbols[0])
    else
      var r := FindSymbol(symbols[1..], name);
      assert forall i :: 0 < i < |symbols| ==> symbols[i] == symbols[1..][i - 1];
      r
  }

  /** The first LEVERAGE filter that carries a maximum. */
  function LeverageOf(filters: seq<Filter>): (r: Option<int>)
    ensures r.None? <==> forall i :: 0 <= i < |filters| ==> !(filters[i].LeverageFilter? && filters[i].maxLeverage.Some?)
    ensures r.Some? ==> exists i :: 0 <= i < |filters| && filters[i] == LeverageFilter(r) &&
                                    forall j :: 0 <= j < i ==> !(filters[j].LeverageFilter? && filters[j].maxLeverage.Some?)
  {
    if filters == [] then None
    else if filters[0].LeverageFilter? && filters[0].maxLeverage.Some? then filters[0].maxLeverage
    else
      var r := LeverageOf(filters[1..]);
      assert forall i :: 0 < i < |filters| ==> filters[i] == filters[1..][i - 1];
      r
  }

  /** `get_max_leverage`: the cap of the first entry with the upper-cased name,
      100 when there is no data, no such entry or no cap in that entry (the loop
      breaks at the first matching entry). */
  function GetMaxLeverage(data: ExchangeData, symbol: string): int {
    if data.None? then DefaultLeverage
    else
      match FindSymbol(data.value, Upper(symbol))
      case None => DefaultLeverage
      case Some(info) => LeverageOf(info.filters).GetOr(DefaultLeverage)
  }

  /** The step of the first LOT_SIZE filter. */
  function LotStep(filters: seq<Filter>): (r: Option<real>)
    ensures r.None? <==> forall i :: 0 <= i < |filters| ==> !filters[i].LotSizeFilter?
    ensures r.Some? ==> exists i :: 0 <= i < |filters| && filters[i] == LotSizeFilter(r.value) &&
                                    forall j :: 0 <= j < i ==> !filters[j].LotSizeFilter?
  {
    if filters == [] then None
    else if filters[0].LotSizeFilter? then Some(filters[0].stepSize)
    else
      var r := LotStep(filters[1..]);
      assert forall i :: 0 < i < |filters| ==> filters[i] == filters[1..][i - 1];
      r
  }

  /** The loop of `get_step_size`, which does not break: the step of the first
      entry named `name` that has a LOT_SIZE filter. */
  function StepFrom(symbols: seq<SymbolInfo>, name: string): (r: Option<real>)
    ensures r.None? <==> forall i :: 0 <= i < |symbols| ==> symbols[i].symbol != name || LotStep(symbols[i].filters).None?
    ensures r.Some? ==> exists i :: 0 <= i < |symbols| && symbols[i].symbol == name && LotStep(symbols[i].filters) == r &&
                                    forall j :: 0 <= j < i ==> symbols[j].symbol != name || LotStep(symbols[j].filters).None?
  {
    if symbols == [] then None
    else if symbols[0].symbol == name && LotStep(symbols[0].filters).Some? then LotStep(symbols[0].filters)
    else
      var r := StepFrom(symbols[1..], name);
      assert forall i :: 0 < i < |symbols| ==> symbols[i] == symbols[1..][i - 1];
      r
  }

  /** `get_step_size`: 0.001 for an empty symbol, for no data and for a symbol
      with no LOT_SIZE filter. */
  function GetStepSize(data: ExchangeData, symbol: string): real {
    if symbol == "" || data.None? then DefaultStepSize
    else StepFrom(data.value, Upper(symbol)).GetOr(DefaultStepSize)
  }

  /** The leverage cap is 100 unless the first entry of that symbol carries one. */
  lemma MaxLeverageDefault(data: ExchangeData, symbol: string)
    ensures GetMaxLeverage(data, symbol) == DefaultLeverage ||
            (data.Some? && exists i :: 0 <= i < |data.value| && data.value[i].symbol == Upper(symbol) &&
                                       LeverageFilter(Some(GetMaxLeverage(data, symbol))) in data.value[i].filters)
    ensures data.Some? && (forall i :: 0 <= i < |data.value| ==> data.value[i].symbol != Upper(symbol)) ==>
            GetMaxLeverage(data, symbol) == DefaultLeverage
  {
    if data.Some? {
      match FindSymbol(data.value, Upper(symbol))
      case None =>
      case Some(info) =>
        var r := LeverageOf(info.filters);
        if r.Some? {
          var k :| 0 <= k < |info.filters| && info.filters[k] == LeverageFilter(r);
          assert LeverageFilter(r) in info.filters;
        }
    }
  }

  /** The step size is 0.001 unless some entry of that symbol has a LOT_SIZE filter,
      and then it is that filter's step. */
  lemma StepSizeDefault(data: ExchangeData, symbol: string)
    ensures GetStepSize(data, symbol) == DefaultStepSize ||
            (data.Some? && exists i :: 0 <= i < |data.value| && data.value[i].symbol == Upper(symbol) &&
                                       LotSizeFilter(GetStepSize(data, symbol)) in data.value[i].filters)
  {
    if symbol != "" && data.Some? {
      var r := StepFrom(data.value, Upper(symbol));
      if r.Some? {
        var k :| 0 <= k < |data.value| && data.value[k].symbol == Upper(symbol) && LotStep(data.value[k].filters) == r;
        var j :| 0 <= j < |data.value[k].filters| && data.value[k].filters[j] == LotSizeFilter(r.value);
        assert LotSizeFilter(r.value) in data.value[k].filters;
      }
    }
  }

  /** Both lookups ignore the case of the name they are given. */
  lemma LookupsIgnoreCase(data: ExchangeData, symbol: string)
    ensures GetMaxLeverage(data, symbol) == GetMaxLeverage(data, Upper(symbol))
    ensures GetStepSize(data, symbol) == GetStepSize(data, Upper(symbol))
  {
    UpperIdempotent(symbol);
  }
}
