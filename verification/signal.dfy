/** The signal engine of `SmartCoinFinder`: the 14-period RSI of `calculate_rsi`
    and the decision of `get_rsi_signal` over the RSI, the price direction and
    the volume direction of the last two closed candles. Prices and volumes are
    reals; the kline request is an input (`None` when it yields nothing). */
module Signal {
  import opened Common

  const RsiPeriod: nat := 14
  /** Volume-change thresholds, in percent: entry signals and exit signals. */
  const EntryThreshold: real := 20.0
  const ExitThreshold: real := 40.0

  /** The two fields of a 5-minute kline that the decision reads. */
  datatype Candle = Candle(close: real, volume: real)

  /** The gain of the `i`-th price change (the positive part of the delta). */
  function Gain(prices: seq<real>, i: nat): (r: real)
    requires i + 1 < |prices|
    ensures r >= 0.0
    ensures r > 0.0 <==> prices[i + 1] > prices[i]
  {
    if prices[i + 1] - prices[i] > 0.0 then prices[i + 1] - prices[i] else 0.0
  }

  /** The loss of the `i`-th price change (the negative part of the delta, negated). */
  function Loss(prices: seq<real>, i: nat): (r: real)
    requires i + 1 < |prices|
    ensures r >= 0.0
    ensures r > 0.0 <==> prices[i + 1] < prices[i]
    ensures Gain(prices, i) - r == prices[i + 1] - prices[i]
  {
    if prices[i + 1] - prices[i] < 0.0 then prices[i] - prices[i + 1] else 0.0
  }

  /** The sum of the gains of the first `n` price changes. */
  function SumGains(prices: seq<real>, n: nat): (r: real)
    requires n < |prices|
    ensures r >= 0.0
    ensures r == 0.0 <==> forall i :: 0 <= i < n ==> prices[i + 1] <= prices[i]
  {
    if n == 0 then 0.0 else SumGains(prices, n - 1) + Gain(prices, n - 1)
  }

  /** The sum of the losses of the first `n` price changes. */
  function SumLosses(prices: seq<real>, n: nat): (r: real)
    requires n < |prices|
    ensures r >= 0.0
    ensures r == 0.0 <==> forall i :: 0 <= i < n ==> prices[i + 1] >= prices[i]
  {
    if n == 0 then 0.0 else SumLosses(prices, n - 1) + Loss(prices, n - 1)
  }

  /** `calculate_rsi(prices)`: 50 for fewer than 15 prices, 100 when the first 14
      changes hold no loss, otherwise `100 - 100 / (1 + avgGain / avgLoss)`. */
  function Rsi(prices: seq<real>): (r: real)
    ensures |prices| < RsiPeriod + 1 ==> r == 50.0
    ensures 0.0 <= r <= 100.0
  {
    if |prices| < RsiPeriod + 1 then 50.0
    else
      var avgGain := SumGains(prices, RsiPeriod) / RsiPeriod as real;
      var avgLoss := SumLosses(prices, RsiPeriod) / RsiPeriod as real;
      if avgLoss == 0.0 then 100.0
      else
        var rs := avgGain / avgLoss;
        assert 100.0 / (1.0 + rs) <= 100.0 by {
          assert rs >= 0.0;
          DivisionBound(100.0, 1.0 + rs);
        }
        100.0 - 100.0 / (1.0 + rs)
  }

  lemma DivisionBound(a: real, b: real)
    requires a >= 0.0 && b >= 1.0
    ensures 0.0 <= a / b <= a
  {
    assert a / b * b == a;
  }

  /** With a loss among the first 14 changes, the RSI is the share of the gains
      in the total movement, `100 * G / (G + L)`, and lies in [0, 100). */
  lemma RsiIsGainShare(prices: seq<real>)
    requires |prices| >= RsiPeriod + 1
    requires SumLosses(prices, RsiPeriod) > 0.0
    ensures var g, l := SumGains(prices, RsiPeriod), SumLosses(prices, RsiPeriod);
            Rsi(prices) == 100.0 * g / (g + l)
    ensures 0.0 <= Rsi(prices) < 100.0
  {
    GainShareAlgebra(SumGains(prices, RsiPeriod), SumLosses(prices, RsiPeriod), RsiPeriod as real);
  }

  lemma GainShareAlgebra(g: real, l: real, n: real)
    requires g >= 0.0 && l > 0.0 && n > 0.0
    ensures 100.0 - 100.0 / (1.0 + (g / n) / (l / n)) == 100.0 * g / (g + l)
    ensures 0.0 <= 100.0 * g / (g + l) < 100.0
  {
    var rs := (g / n) / (l / n);
    assert rs == g / l;
    assert (1.0 + rs) * l == l + g;
    var q := 100.0 / (1.0 + rs);
    assert q * (1.0 + rs) == 100.0;
    assert q * (g + l) == q * (1.0 + rs) * l == 100.0 * l;
    assert q == 100.0 * l / (g + l);
    assert 100.0 * l / (g + l) > 0.0;
    assert 100.0 * g / (g + l) + 100.0 * l / (g + l) == 100.0;
  }

  /** Prices that never fall over the first 14 changes give an RSI of 100. */
  lemma RsiOfRisingPrices(prices: seq<real>)
    requires |prices| >= RsiPeriod + 1
    requires forall i :: 0 <= i < RsiPeriod ==> prices[i] <= prices[i + 1]
    ensures Rsi(prices) == 100.0
  {
  }

  /** Prices that never rise over the first 14 changes, with some fall, give an RSI of 0. */
  lemma RsiOfFallingPrices(prices: seq<real>)
    requires |prices| >= RsiPeriod + 1
    requires forall i :: 0 <= i < RsiPeriod ==> prices[i] >= prices[i + 1]
    requires exists i :: 0 <= i < RsiPeriod && prices[i] > prices[i + 1]
    ensures Rsi(prices) == 0.0
  {
    RsiIsGainShare(prices);
  }

  /** Only the first 15 prices count: the RSI reads the first 14 changes. */
  lemma {:induction false} SumsReadPrefix(prices: seq<real>, other: seq<real>, n: nat)
    requires n < |prices| && n < |other|
    requires prices[..n + 1] == other[..n + 1]
    ensures SumGains(prices, n) == SumGains(other, n)
    ensures SumLosses(prices, n) == SumLosses(other, n)
  {
    if n > 0 {
      assert prices[n - 1] == prices[..n + 1][n - 1] == other[n - 1];
      assert prices[n] == prices[..n + 1][n] == other[n];
      assert prices[..n] == prices[..n + 1][..n];
      assert other[..n] == other[..n + 1][..n];
      SumsReadPrefix(prices, other, n - 1);
    }
  }

  lemma RsiReadsFirstFifteen(prices: seq<real>, other: seq<real>)
    requires |prices| >= RsiPeriod + 1 && |other| >= RsiPeriod + 1
    requires prices[..RsiPeriod + 1] == other[..RsiPeriod + 1]
    ensures Rsi(prices) == Rsi(other)
  {
    SumsReadPrefix(prices, other, RsiPeriod);
  }

  predicate PriceUp(prev: Candle, cur: Candle) { cur.close > prev.close }
  predicate PriceDown(prev: Candle, cur: Candle) { cur.close < prev.close }

  /** The volume grew by more than `threshold` percent. */
  predicate VolumeUp(prev: Candle, cur: Candle, threshold: real) {
    cur.volume > prev.volume * (1.0 + threshold / 100.0)
  }

  /** The volume shrank by more than `threshold` percent. */
  predicate VolumeDown(prev: Candle, cur: Candle, threshold: real) {
    cur.volume < prev.volume * (1.0 - threshold / 100.0)
  }

  /** The decision chain of `get_rsi_signal`: the overbought and oversold bands
      each decide on their own (no match there is no signal), and only an RSI in
      [20, 80] reaches the two fallback rules. */
  function Classify(rsi: real, prev: Candle, cur: Candle, threshold: real): Option<Side> {
    var up, down := PriceUp(prev, cur), PriceDown(prev, cur);
    var volUp, volDown := VolumeUp(prev, cur, threshold), VolumeDown(prev, cur, threshold);
    if rsi > 80.0 then
      if up && volUp then Some(Sell)
      else if up && volDown then Some(Buy)
      else None
    else if rsi < 20.0 then
      if down && volDown then Some(Sell)
      else if down && volUp then Some(Buy)
      else None
    else if rsi > 20.0 && !down && volDown then Some(Buy)
    else if rsi < 80.0 && !up && volUp then Some(Sell)
    else None
  }

  /** The closing prices of the klines, oldest first. */
  function Closes(klines: seq<Candle>): (r: seq<real>)
    ensures |r| == |klines|
    ensures forall i :: 0 <= i < |klines| ==> r[i] == klines[i].close
  {
    if klines == [] then [] else [klines[0].close] + Closes(klines[1..])
  }

  /** `get_rsi_signal(symbol, threshold)` on the klines the request returned: no
      signal without 15 of them; otherwise the decision on the RSI of all closes
      and the two candles before the newest (the newest may still be open). */
  function RsiSignal(klines: Option<seq<Candle>>, threshold: real): (r: Option<Side>)
    ensures klines.None? || |klines.value| < 15 ==> r.None?
    ensures r.Some? ==> var k := klines.value;
              r == Classify(Rsi(Closes(k)), k[|k| - 3], k[|k| - 2], threshold)
  {
    if klines.None? || |klines.value| < 15 then None
    else
      var k := klines.value;
      Classify(Rsi(Closes(k)), k[|k| - 3], k[|k| - 2], threshold)
  }

  /** `get_entry_signal`: volume must move by 20 percent. */
  function EntrySignal(klines: Option<seq<Candle>>): Option<Side> {
    RsiSignal(klines, EntryThreshold)
  }

  /** `get_exit_signal`: volume must move by 40 percent. */
  function ExitSignal(klines: Option<seq<Candle>>): Option<Side> {
    RsiSignal(klines, ExitThreshold)
  }

  /** Price and volume cannot move both ways at once (volumes are never negative). */
  lemma DirectionsExclusive(prev: Candle, cur: Candle, threshold: real)
    requires prev.volume >= 0.0 && threshold >= 0.0
    ensures !(PriceUp(prev, cur) && PriceDown(prev, cur))
    ensures !(VolumeUp(prev, cur, threshold) && VolumeDown(prev, cur, threshold))
  {
    assert prev.volume * (1.0 - threshold / 100.0) <= prev.volume * (1.0 + threshold / 100.0);
  }

  /** Above 80: SELL exactly on rising price and volume, BUY exactly on rising
      price and falling volume, nothing otherwise. */
  lemma Overbought(rsi: real, prev: Candle, cur: Candle, threshold: real)
    requires rsi > 80.0 && prev.volume >= 0.0 && threshold >= 0.0
    ensures Classify(rsi, prev, cur, threshold) == Some(Sell) <==> PriceUp(prev, cur) && VolumeUp(prev, cur, threshold)
    ensures Classify(rsi, prev, cur, threshold) == Some(Buy) <==> PriceUp(prev, cur) && VolumeDown(prev, cur, threshold)
    ensures !PriceUp(prev, cur) ==> Classify(rsi, prev, cur, threshold) == None
  {
    DirectionsExclusive(prev, cur, threshold);
  }

  /** Below 20: SELL exactly on falling price and volume, BUY exactly on falling
      price and rising volume, nothing otherwise. */
  lemma Oversold(rsi: real, prev: Candle, cur: Candle, threshold: real)
    requires rsi < 20.0 && prev.volume >= 0.0 && threshold >= 0.0
    ensures Classify(rsi, prev, cur, threshold) == Some(Sell) <==> PriceDown(prev, cur) && VolumeDown(prev, cur, threshold)
    ensures Classify(rsi, prev, cur, threshold) == Some(Buy) <==> PriceDown(prev, cur) && VolumeUp(prev, cur, threshold)
    ensures !PriceDown(prev, cur) ==> Classify(rsi, prev, cur, threshold) == None
  {
    DirectionsExclusive(prev, cur, threshold);
  }

  /** The fallback rules decide only inside [20, 80]: BUY needs RSI above 20, a
      price that did not fall and a falling volume; SELL needs RSI below 80, a
      price that did not rise and a rising volume. */
  lemma MidBand(rsi: real, prev: Candle, cur: Candle, threshold: real)
    requires 20.0 <= rsi <= 80.0 && prev.volume >= 0.0 && threshold >= 0.0
    ensures Classify(rsi, prev, cur, threshold) == Some(Buy) <==>
            rsi > 20.0 && !PriceDown(prev, cur) && VolumeDown(prev, cur, threshold)
    ensures Classify(rsi, prev, cur, threshold) == Some(Sell) <==>
            rsi < 80.0 && !PriceUp(prev, cur) && VolumeUp(prev, cur, threshold)
  {
    DirectionsExclusive(prev, cur, threshold);
  }

  /** A signal always needs the volume to have moved past the threshold. */
  lemma SignalNeedsVolumeMove(rsi: real, prev: Candle, cur: Candle, threshold: real)
    requires Classify(rsi, prev, cur, threshold).Some?
    ensures VolumeUp(prev, cur, threshold) || VolumeDown(prev, cur, threshold)
  {
  }

  /** The exit threshold is the stricter one: a volume move that passes 40
      percent passes 20 percent too. */
  lemma ExitMoveIsEntryMove(prev: Candle, cur: Candle)
    requires prev.volume >= 0.0
    ensures VolumeUp(prev, cur, ExitThreshold) ==> VolumeUp(prev, cur, EntryThreshold)
    ensures VolumeDown(prev, cur, ExitThreshold) ==> VolumeDown(prev, cur, EntryThreshold)
  {
    assert prev.volume * 1.2 <= prev.volume * 1.4;
    assert prev.volume * 0.6 <= prev.volume * 0.8;
  }
}
