/** `SmartCoinFinder.find_best_coin` and `has_existing_position`: the scan of the
    USDC pairs for a coin whose entry signal matches the wanted direction. Every
    exchange answer is an input: the `exchangeInfo` reply, the klines of each
    symbol and the position amounts the exchange reports for each symbol. */
module CoinFinder {
  import opened Common
  import opened ExchangeInfo
  import opened Signal

  /** Number of pairs `find_best_coin` scans. */
  const ScanLimit: nat := 50

  /** What the exchange answers about each symbol during one scan. */
  datatype Market = Market(
    exchange: ExchangeData,
    klines: string -> Option<seq<Candle>>,
    positionAmounts: string -> seq<real>)

  /** Some reported position has a non-zero amount. */
  predicate HoldsPosition(amounts: seq<real>) {
    exists i :: 0 <= i < |amounts| && amounts[i] != 0.0
  }

  /** `has_existing_position`: scan the reported positions for a non-zero amount. */
  method HasExistingPosition(amounts: seq<real>) returns (found: bool)
    ensures found <==> HoldsPosition(amounts)
  {
    var i := 0;
    while i < |amounts|
      invariant 0 <= i <= |amounts|
      invariant forall j :: 0 <= j < i ==> amounts[j] == 0.0
    {
      if Abs(amounts[i]) > 0.0 {
        return true;
      }
      i := i + 1;
    }
    return false;
  }

  /** The tests of the scan loop, in the source's order: not excluded, no
      position on the exchange, enough leverage, an entry signal in the wanted
      direction. */
  predicate Eligible(m: Market, symbol: string, excluded: set<string>, target: Side, requiredLeverage: int) {
    symbol !in excluded &&
    !HoldsPosition(m.positionAmounts(symbol)) &&
    GetMaxLeverage(m.exchange, symbol) >= requiredLeverage &&
    EntrySignal(m.klines(symbol)) == Some(target)
  }

  /** `valid_symbols`: the eligible symbols, in scan order. */
  function Candidates(m: Market, symbols: seq<string>, excluded: set<string>, target: Side, requiredLeverage: int): (r: seq<string>)
    ensures |r| <= |symbols|
    ensures forall s :: s in r <==> s in symbols && Eligible(m, s, excluded, target, requiredLeverage)
  {
    if symbols == [] then []
    else
      var init := symbols[..|symbols| - 1];
      var last := symbols[|symbols| - 1];
      assert symbols == init + [last];
      Candidates(m, init, excluded, target, requiredLeverage) +
        (if Eligible(m, last, excluded, target, requiredLeverage) then [last] else [])
  }

  /** `a` occurs in `symbols` at some position before one where `b` occurs. */
  ghost predicate ScannedBefore(a: string, b: string, symbols: seq<string>) {
    exists p, q :: 0 <= p < q < |symbols| && a == symbols[p] && b == symbols[q]
  }

  /** Any two elements of `r` appear in the same order in `symbols`. */
  ghost predicate InScanOrder(r: seq<string>, symbols: seq<string>) {
    forall i, j :: 0 <= i < j < |r| ==> ScannedBefore(r[i], r[j], symbols)
  }

  /** The eligible symbols come out in the order they were scanned. */
  lemma {:induction false} CandidatesKeepOrder(m: Market, symbols: seq<string>, excluded: set<string>, target: Side, requiredLeverage: int)
    ensures InScanOrder(Candidates(m, symbols, excluded, target, requiredLeverage), symbols)
  {
    if symbols != [] {
      var init := symbols[..|symbols| - 1];
      var last := symbols[|symbols| - 1];
      var c := Candidates(m, init, excluded, target, requiredLeverage);
      var r := Candidates(m, symbols, excluded, target, requiredLeverage);
      CandidatesKeepOrder(m, init, excluded, target, requiredLeverage);
      assert r == c + (if Eligible(m, last, excluded, target, requiredLeverage) then [last] else []);
      forall i, j | 0 <= i < j < |r|
        ensures ScannedBefore(r[i], r[j], symbols)
      {
        if j < |c| {
          assert ScannedBefore(c[i], c[j], init);
          var p, q :| 0 <= p < q < |init| && c[i] == init[p] && c[j] == init[q];
          assert r[i] == symbols[p] && r[j] == symbols[q];
        } else {
          assert r[i] == c[i] && c[i] in c;
          var p :| 0 <= p < |init| && init[p] == c[i];
          assert r[i] == symbols[p] && r[j] == symbols[|symbols| - 1];
        }
      }
    }
  }

  /** The scan loop of `find_best_coin`: the symbols that pass every test, in
      scan order. */
  method ScanCandidates(m: Market, all: seq<string>, excluded: set<string>, target: Side, requiredLeverage: int)
    returns (valid: seq<string>)
    ensures valid == Candidates(m, all, excluded, target, requiredLeverage)
  {
    valid := [];
    for i := 0 to |all|
      invariant valid == Candidates(m, all[..i], excluded, target, requiredLeverage)
    {
      var symbol := all[i];
      assert all[..i + 1] == all[..i] + [symbol];
      assert all[..i + 1][..i] == all[..i];
      if symbol in excluded {
        continue;
      }
      var held := HasExistingPosition(m.positionAmounts(symbol));
      if held {
        continue;
      }
      if GetMaxLeverage(m.exchange, symbol) < requiredLeverage {
        continue;
      }
      if EntrySignal(m.klines(symbol)) == Some(target) {
        valid := valid + [symbol];
      }
    }
    assert all[..|all|] == all;
  }

  /** `find_best_coin`: one of the eligible symbols among the first 50 USDC pairs,
      picked at random, unless that one holds a position when it is checked a
      second time (`positionsAtRecheck`); no eligible symbol gives no coin. */
  method FindBestCoin(m: Market, excluded: set<string>, target: Side, requiredLeverage: int,
                      positionsAtRecheck: string -> seq<real>) returns (chosen: Option<string>)
    ensures var cands := Candidates(m, UsdcPairs(m.exchange, ScanLimit), excluded, target, requiredLeverage);
            (chosen.Some? ==> chosen.value in cands && !HoldsPosition(positionsAtRecheck(chosen.value))) &&
            (cands == [] ==> chosen.None?) &&
            (chosen.None? ==> cands == [] || exists s :: s in cands && HoldsPosition(positionsAtRecheck(s)))
  {
    var all := UsdcPairs(m.exchange, ScanLimit);
    if all == [] {
      return None;
    }
    var valid := ScanCandidates(m, all, excluded, target, requiredLeverage);
    if valid == [] {
      return None;
    }
    assert valid[0] in valid;
    var selected :| selected in valid;
    var heldNow := HasExistingPosition(positionsAtRecheck(selected));
    if heldNow {
      assert selected in valid && HoldsPosition(positionsAtRecheck(selected));
      return None;
    }
    return Some(selected);
  }

  /** Whatever the exchange answers, the chosen coin is a trading USDC pair that
      was not excluded, can take the leverage and signals the wanted direction. */
  lemma ChosenCoinQualifies(m: Market, excluded: set<string>, target: Side, requiredLeverage: int, s: string)
    requires s in Candidates(m, UsdcPairs(m.exchange, ScanLimit), excluded, target, requiredLeverage)
    ensures EndsWith(s, "USDC") && s !in excluded
    ensures GetMaxLeverage(m.exchange, s) >= requiredLeverage
    ensures RsiSignal(m.klines(s), EntryThreshold) == Some(target)
  {
  }
}
