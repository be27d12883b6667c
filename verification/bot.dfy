/** `BaseBot`: one bot trading up to `max_coins` symbols at a time. It keeps the
    list of its symbols, the position record of each, and the account-wide long
    and short statistics; every change of state is one method here, applied in
    place, and proved equal to the record operation of `Position` it performs. */
module Bot {
  import opened Common
  import opened Registry
  import opened Position
  import opened Signal

  const TradeCooldown: real := 3.0
  const GlobalCheckInterval: real := 10.0

  /** One account position as `check_global_positions` reads it. */
  datatype AccountPosition = AccountPosition(amount: real, unrealizedPnl: real)

  /** Account-wide statistics: how many long and short positions, and their PnL. */
  datatype Tally = Tally(longCount: nat, shortCount: nat, longPnl: real, shortPnl: real)

  function Plus(a: Tally, b: Tally): Tally {
    Tally(a.longCount + b.longCount, a.shortCount + b.shortCount, a.longPnl + b.longPnl, a.shortPnl + b.shortPnl)
  }

  /** The contribution of one position: positive amounts are long, negative
      amounts short, flat positions count for nothing. */
  function TallyOne(p: AccountPosition): (r: Tally)
    ensures r.longCount + r.shortCount <= 1
    ensures r.longCount == 1 <==> p.amount > 0.0
    ensures r.shortCount == 1 <==> p.amount < 0.0
  {
    if p.amount > 0.0 then Tally(1, 0, p.unrealizedPnl, 0.0)
    else if p.amount < 0.0 then Tally(0, 1, 0.0, p.unrealizedPnl)
    else Tally(0, 0, 0.0, 0.0)
  }

  /** The statistics of a list of positions, accumulated front to back. */
  function TallyOf(positions: seq<AccountPosition>): (r: Tally)
    ensures r.longCount + r.shortCount <= |positions|
  {
    if positions == [] then Tally(0, 0, 0.0, 0.0)
    else Plus(TallyOf(positions[..|positions| - 1]), TallyOne(positions[|positions| - 1]))
  }

  /** The statistics of two lists together are the sums of their statistics. */
  lemma {:induction false} TallyAppend(a: seq<AccountPosition>, b: seq<AccountPosition>)
    ensures TallyOf(a + b) == Plus(TallyOf(a), TallyOf(b))
    decreases |b|
  {
    if b == [] {
      assert a + b == a;
      assert TallyOf(b) == Tally(0, 0, 0.0, 0.0);
    } else {
      var init := b[..|b| - 1];
      assert (a + b)[..|a + b| - 1] == a + init;
      assert (a + b)[|a + b| - 1] == b[|b| - 1];
      TallyAppend(a, init);
      PlusAssoc(TallyOf(a), TallyOf(init), TallyOne(b[|b| - 1]));
    }
  }

  lemma PlusAssoc(x: Tally, y: Tally, z: Tally)
    ensures Plus(Plus(x, y), z) == Plus(x, Plus(y, z))
  {
  }

  /** Flat positions leave the statistics unchanged, wherever they appear. */
  lemma FlatPositionIgnored(a: seq<AccountPosition>, b: seq<AccountPosition>, pnl: real)
    ensures TallyOf(a + [AccountPosition(0.0, pnl)] + b) == TallyOf(a + b)
  {
    var flat := [AccountPosition(0.0, pnl)];
    TallyOfFlat(pnl);
    TallyAppend(a, flat);
    PlusZero(TallyOf(a));
    TallyAppend(a + flat, b);
    TallyAppend(a, b);
  }

  lemma TallyOfFlat(pnl: real)
    ensures TallyOf([AccountPosition(0.0, pnl)]) == Tally(0, 0, 0.0, 0.0)
  {
    assert [AccountPosition(0.0, pnl)][..0] == [];
  }

  lemma PlusZero(x: Tally)
    ensures Plus(x, Tally(0, 0, 0.0, 0.0)) == x
  {
  }

  /** The loop of `check_global_positions`. */
  method Aggregate(positions: seq<AccountPosition>) returns (t: Tally)
    ensures t == TallyOf(positions)
    ensures t.longCount + t.shortCount <= |positions|
  {
    var longCount, shortCount: nat := 0, 0;
    var longPnl, shortPnl := 0.0, 0.0;
    for i := 0 to |positions|
      invariant Tally(longCount, shortCount, longPnl, shortPnl) == TallyOf(positions[..i])
    {
      var p := positions[i];
      assert positions[..i + 1][..i] == positions[..i];
      ghost var next := Plus(TallyOf(positions[..i]), TallyOne(p));
      assert positions[..i + 1][i] == p;
      assert TallyOf(positions[..i + 1]) == next;
      if p.amount > 0.0 {
        longCount := longCount + 1;
        longPnl := longPnl + p.unrealizedPnl;
        assert Tally(longCount, shortCount, longPnl, shortPnl) == next;
      } else if p.amount < 0.0 {
        shortCount := shortCount + 1;
        shortPnl := shortPnl + p.unrealizedPnl;
        assert Tally(longCount, shortCount, longPnl, shortPnl) == next;
      } else {
        assert Tally(longCount, shortCount, longPnl, shortPnl) == next;
      }
    }
    assert positions[..|positions|] == positions;
    t := Tally(longCount, shortCount, longPnl, shortPnl);
  }

  /** `get_next_side_based_on_comprehensive_analysis`: trade in the direction
      whose open positions earn more; `tie` is the random pick on equal PnL. */
  function NextSide(longPnl: real, shortPnl: real, tie: Side): (r: Side)
    ensures r == Buy <==> longPnl > shortPnl || (longPnl == shortPnl && tie == Buy)
    ensures r == Sell <==> shortPnl > longPnl || (longPnl == shortPnl && tie == Sell)
  {
    if longPnl > shortPnl then Buy
    else if shortPnl > longPnl then Sell
    else tie
  }

  /** Swapping the books swaps the direction. */
  lemma NextSideSymmetric(longPnl: real, shortPnl: real, tie: Side)
    ensures NextSide(shortPnl, longPnl, Opposite(tie)) == Opposite(NextSide(longPnl, shortPnl, tie))
  {
  }

  /** The rotation at the end of a `_run` round: the head moves to the tail. */
  function Rotated<T>(s: seq<T>): (r: seq<T>)
    ensures |r| == |s|
    ensures multiset(r) == multiset(s)
  {
    if |s| > 1 then
      assert s == [s[0]] + s[1..];
      s[1..] + [s[0]]
    else s
  }

  function RotatedTimes<T>(s: seq<T>, n: nat): seq<T>
    decreases n
  {
    if n == 0 then s else RotatedTimes(Rotated(s), n - 1)
  }

  /** `k` rounds over a list of at least two symbols move its first `k` symbols, in
      order, behind the others; a full cycle gives the list back. */
  lemma {:induction false} RotatedTimesSplit<T>(s: seq<T>, k: nat)
    requires |s| > 1 && k <= |s|
    ensures RotatedTimes(s, k) == s[k..] + s[..k]
  {
    if k > 0 {
      RotatedTimesShift(s, k - 1);
      RotatedSplitStep(s, k);
    }
  }

  /** One more rotation of a split list moves the split point one place on. */
  lemma RotatedSplitStep<T>(s: seq<T>, k: nat)
    requires |s| > 1 && 0 < k <= |s|
    ensures Rotated(s[k - 1..] + s[..k - 1]) == s[k..] + s[..k]
  {
    var t := s[k - 1..] + s[..k - 1];
    assert |t| == |s| && t[0] == s[k - 1];
    assert t[1..] == s[k..] + s[..k - 1];
    assert s[..k - 1] + [s[k - 1]] == s[..k];
  }

  lemma {:induction false} RotatedTimesShift<T>(s: seq<T>, n: nat)
    requires |s| > 1 && n < |s|
    ensures RotatedTimes(s, n + 1) == Rotated(s[n..] + s[..n])
    decreases n
  {
    if n == 0 {
      assert s[0..] + s[..0] == s;
    } else {
      RotatedTimesShift(Rotated(s), n - 1);
      RotatedTimesSplitLow(s, n);
    }
  }

  lemma {:induction false} RotatedTimesSplitLow<T>(s: seq<T>, n: nat)
    requires |s| > 1 && 0 < n < |s|
    ensures Rotated(s)[n - 1..] + Rotated(s)[..n - 1] == s[n..] + s[..n]
  {
    var r := Rotated(s);
    assert r == s[1..] + [s[0]];
    assert r[n - 1..] == s[n..] + [s[0]];
    assert r[..n - 1] == s[1..n];
    assert s[..n] == [s[0]] + s[1..n];
  }

  lemma FullCycle<T>(s: seq<T>)
    ensures RotatedTimes(s, |s|) == s
  {
    if |s| > 1 {
      RotatedTimesSplit(s, |s|);
      assert s[|s|..] + s[..|s|] == s;
    } else {
      RotatedTimesFixed(s, |s|);
    }
  }

  lemma {:induction false} RotatedTimesFixed<T>(s: seq<T>, n: nat)
    requires |s| <= 1
    ensures RotatedTimes(s, n) == s
  {
    if n > 0 {
      RotatedTimesFixed(Rotated(s), n - 1);
    }
  }

  /** Rotation keeps a list free of duplicates. */
  lemma RotatedDistinct<T>(s: seq<T>)
    requires Distinct(s)
    ensures Distinct(Rotated(s))
  {
    if |s| > 1 {
      var r := Rotated(s);
      forall i, j | 0 <= i < j < |r| ensures r[i] != r[j] {
        if j == |r| - 1 {
          assert r[i] == s[i + 1] && r[j] == s[0];
        } else {
          assert r[i] == s[i + 1] && r[j] == s[j + 1];
        }
      }
    }
  }

  /** `list.remove` of an element just appended to a list without it undoes the append. */
  lemma {:induction false} RemoveAppended<T>(s: seq<T>, x: T)
    requires x !in s
    ensures RemoveFirst(s + [x], x) == s
  {
    if s != [] {
      assert (s + [x])[0] == s[0];
      assert (s + [x])[1..] == s[1..] + [x];
      RemoveAppended(s[1..], x);
    }
  }

  /** What one pass of the `_run` loop does after the periodic global check. */
  datatype RunAction =
    | CoolingDown     // less than 3 s since the last trade: sleep
    | AddedCoin       // below `max_coins` and a coin was found and added
    | ProcessHead     // process the first symbol, check the others, rotate
    | Idle            // no symbol: sleep

  /** The gates of one `_run` pass; `found` is what the coin search reports. */
  function RunStep(now: real, lastTradeCompletion: real, activeCount: nat, maxCoins: nat, found: bool): (r: RunAction)
    ensures r == CoolingDown <==> now - lastTradeCompletion < TradeCooldown
    ensures r == AddedCoin ==> activeCount < maxCoins && found
    ensures r == ProcessHead ==> activeCount > 0 && !(activeCount < maxCoins && found)
  {
    if now - lastTradeCompletion < TradeCooldown then CoolingDown
    else if activeCount < maxCoins && found then AddedCoin
    else if activeCount > 0 then ProcessHead
    else Idle
  }

  /** The global check runs when more than 10 s passed since the last one. */
  predicate GlobalCheckDue(now: real, lastCheck: real) {
    now - lastCheck > GlobalCheckInterval
  }

  /** No symbol is processed within 3 s of the last trade, and a full bot never
      searches. */
  lemma RunGates(now: real, lastTradeCompletion: real, activeCount: nat, maxCoins: nat, found: bool)
    ensures now < lastTradeCompletion + TradeCooldown ==> RunStep(now, lastTradeCompletion, activeCount, maxCoins, found) == CoolingDown
    ensures activeCount >= maxCoins ==> RunStep(now, lastTradeCompletion, activeCount, maxCoins, found) != AddedCoin
  {
  }

  /** Exactly one well-formed record for each symbol of the list. */
  ghost predicate RecordsMatch(active: seq<string>, data: map<string, SymbolState>) {
    (forall s :: s in data <==> s in active) &&
    (forall s :: s in data ==> WellFormed(data[s]))
  }

  lemma RecordsUpdate(active: seq<string>, data: map<string, SymbolState>, symbol: string, rec: SymbolState)
    requires RecordsMatch(active, data) && symbol in data && WellFormed(rec)
    ensures RecordsMatch(active, data[symbol := rec])
  {
  }

  lemma RecordsRemove(active: seq<string>, data: map<string, SymbolState>, symbol: string)
    requires RecordsMatch(active, data) && Distinct(active)
    ensures RecordsMatch(RemoveFirst(active, symbol), data - {symbol})
  {
  }

  lemma RecordsAppend(active: seq<string>, data: map<string, SymbolState>, symbol: string, rec: SymbolState)
    requires RecordsMatch(active, data) && WellFormed(rec)
    ensures RecordsMatch(active + [symbol], data[symbol := rec])
  {
  }

  class BaseBot {
    const cfg: Config
    /** The process-wide registry of claimed symbols, shared by every bot. */
    const coins: CoinManager
    var activeSymbols: seq<string>
    var symbolData: map<string, SymbolState>
    var global: Tally
    var lastTradeCompletionTime: real
    var lastGlobalPositionCheck: real

    /** At most `max_coins` distinct symbols, exactly one well-formed record for each. */
    ghost predicate Valid()
      reads this, coins
    {
      Distinct(activeSymbols) &&
      |activeSymbols| <= cfg.maxCoins &&
      RecordsMatch(activeSymbols, symbolData) &&
      coins.Valid()
    }

    constructor (cfg: Config, coins: CoinManager)
      requires coins.Valid()
      ensures Valid()
      ensures this.cfg == cfg && this.coins == coins
      ensures activeSymbols == [] && symbolData == map[] && global == Tally(0, 0, 0.0, 0.0)
      ensures lastTradeCompletionTime == 0.0 && lastGlobalPositionCheck == 0.0
    {
      this.cfg := cfg;
      this.coins := coins;
      activeSymbols := [];
      symbolData := map[];
      global := Tally(0, 0, 0.0, 0.0);
      lastTradeCompletionTime := 0.0;
      lastGlobalPositionCheck := 0.0;
    }

    /** `_check_symbol_position`: a symbol without a record is left alone. */
    method CheckSymbolPosition(symbol: string, positions: seq<ExchangePosition>, price: real)
      modifies this
      ensures symbolData == if symbol in old(symbolData)
                            then old(symbolData)[symbol := Sync(old(symbolData)[symbol], symbol, positions, price, cfg)]
                            else old(symbolData)
      ensures activeSymbols == old(activeSymbols) && global == old(global)
      ensures lastTradeCompletionTime == old(lastTradeCompletionTime) && lastGlobalPositionCheck == old(lastGlobalPositionCheck)
    {
      if symbol !in symbolData {
        return;
      }
      var found := FirstFor(positions, symbol);
      if found.None? || Abs(found.value.amount) <= 0.0 {
        ResetSymbolPosition(symbol);
        return;
      }
      var p := found.value;
      var st := symbolData[symbol].(positionOpen := true, side := Some(if p.amount > 0.0 then Buy else Sell),
                                    qty := p.amount, entry := p.entryPrice);
      symbolData := symbolData[symbol := st];
      if price > 0.0 {
        var roi := Roi(st.side, st.entry, st.qty, price, cfg.lev);
        if roi.Some? && cfg.roiTrigger.Some? && roi.value >= cfg.roiTrigger.value {
          symbolData := symbolData[symbol := st.(roiCheckActivated := true)];
        }
      }
    }

    /** `_reset_symbol_position`: a symbol without a record is left alone. */
    method ResetSymbolPosition(symbol: string)
      modifies this
      ensures symbolData == if symbol in old(symbolData) then old(symbolData)[symbol := Reset(old(symbolData)[symbol])] else old(symbolData)
      ensures activeSymbols == old(activeSymbols) && global == old(global)
      ensures lastTradeCompletionTime == old(lastTradeCompletionTime) && lastGlobalPositionCheck == old(lastGlobalPositionCheck)
    {
      if symbol in symbolData {
        var st := symbolData[symbol];
        st := st.(positionOpen := false, side := None, qty := 0.0, entry := 0.0);
        st := st.(closeAttempted := false, lastCloseAttempt := 0.0);
        st := st.(entryBase := 0.0, averageDownCount := 0, highWaterMarkRoi := 0.0, roiCheckActivated := false);
        symbolData := symbolData[symbol := st];
      }
    }

    /** `_close_symbol_position`; returns whether nothing is left to close. */
    method CloseSymbolPosition(symbol: string, env: CloseEnv) returns (ok: bool, order: Option<Order>)
      requires Valid() && symbol in symbolData
      modifies this
      ensures Valid()
      ensures var r := Close(old(symbolData)[symbol], symbol, cfg, env);
              ok == r.0 && symbolData == old(symbolData)[symbol := r.1]
      ensures order == CloseOrder(old(symbolData)[symbol], symbol, cfg, env)
      ensures activeSymbols == old(activeSymbols) && global == old(global)
      ensures lastTradeCompletionTime == old(lastTradeCompletionTime) && lastGlobalPositionCheck == old(lastGlobalPositionCheck)
    {
      CloseWellFormed(symbolData[symbol], symbol, cfg, env);
      CheckSymbolPosition(symbol, env.positions, env.price);
      var st := symbolData[symbol];
      if !st.positionOpen || Abs(st.qty) <= 0.0 {
        return true, None;
      }
      if st.closeAttempted && env.now - st.lastCloseAttempt < CloseRetryDelay {
        return false, None;
      }
      symbolData := symbolData[symbol := st.(closeAttempted := true, lastCloseAttempt := env.now)];
      order := Some(Order(if st.side == Some(Buy) then Sell else Buy, Abs(st.qty)));
      if env.reply.Filled? {
        symbolData := symbolData[symbol := symbolData[symbol].(lastCloseTime := env.now)];
        ResetSymbolPosition(symbol);
        return true, order;
      }
      symbolData := symbolData[symbol := symbolData[symbol].(closeAttempted := false)];
      return false, order;
    }

    /** `_check_symbol_tp_sl`; returns whether TP or SL fired. */
    method CheckSymbolTpSl(symbol: string, price: real, env: CloseEnv) returns (closed: bool)
      requires Valid() && symbol in symbolData
      modifies this
      ensures Valid()
      ensures var r := TpSlCheck(old(symbolData)[symbol], symbol, cfg, price, env);
              closed == r.0 && symbolData == old(symbolData)[symbol := r.1]
      ensures activeSymbols == old(activeSymbols) && global == old(global)
      ensures lastTradeCompletionTime == old(lastTradeCompletionTime) && lastGlobalPositionCheck == old(lastGlobalPositionCheck)
    {
      var st := symbolData[symbol];
      if !st.positionOpen || st.entry <= 0.0 || st.closeAttempted {
        return false;
      }
      if price <= 0.0 {
        return false;
      }
      var r := Roi(st.side, st.entry, st.qty, price, cfg.lev);
      if r.None? {
        return false;
      }
      var roi := r.value;
      TrackSymbolRoi(symbol, roi);
      // Take-profit, else stop-loss; either one closes the position.
      closed := (cfg.tp.Some? && roi >= cfg.tp.value) || (cfg.sl.Some? && cfg.sl.value > 0.0 && roi <= -cfg.sl.value);
      assert closed <==> TpSlDecision(roi, cfg) != NoExit;
      if closed {
        var _, _ := CloseSymbolPosition(symbol, env);
      }
    }

    /** The high-water-mark and activation step of `_check_symbol_tp_sl`. */
    method TrackSymbolRoi(symbol: string, roi: real)
      requires Valid() && symbol in symbolData && symbolData[symbol].positionOpen
      modifies this
      ensures Valid()
      ensures symbolData == old(symbolData)[symbol := TrackRoi(old(symbolData)[symbol], roi, cfg)]
      ensures activeSymbols == old(activeSymbols) && global == old(global)
      ensures lastTradeCompletionTime == old(lastTradeCompletionTime) && lastGlobalPositionCheck == old(lastGlobalPositionCheck)
    {
      ghost var st := symbolData[symbol];
      if roi > symbolData[symbol].highWaterMarkRoi {
        symbolData := symbolData[symbol := symbolData[symbol].(highWaterMarkRoi := roi)];
      }
      if cfg.roiTrigger.Some? && symbolData[symbol].highWaterMarkRoi >= cfg.roiTrigger.value &&
         !symbolData[symbol].roiCheckActivated {
        symbolData := symbolData[symbol := symbolData[symbol].(roiCheckActivated := true)];
      }
      assert symbolData[symbol] == TrackRoi(st, roi, cfg);
      assert WellFormed(symbolData[symbol]);
    }

    /** `_check_smart_exit_condition`; a symbol without a record gives false. */
    method CheckSmartExitCondition(symbol: string, price: real, exitKlines: Option<seq<Candle>>, env: CloseEnv)
      returns (exited: bool)
      requires Valid()
      modifies this
      ensures Valid()
      ensures symbol !in old(symbolData) ==> !exited && symbolData == old(symbolData)
      ensures symbol in old(symbolData) ==>
              var r := SmartExit(old(symbolData)[symbol], symbol, cfg, price, exitKlines, env);
              exited == r.0 && symbolData == old(symbolData)[symbol := r.1]
      ensures activeSymbols == old(activeSymbols) && global == old(global)
      ensures lastTradeCompletionTime == old(lastTradeCompletionTime) && lastGlobalPositionCheck == old(lastGlobalPositionCheck)
    {
      if symbol !in symbolData {
        return false;
      }
      var st := symbolData[symbol];
      if !st.positionOpen || !st.roiCheckActivated || price <= 0.0 {
        return false;
      }
      var r := Roi(st.side, st.entry, st.qty, price, cfg.lev);
      if r.None? || cfg.roiTrigger.None? {
        return false;
      }
      if r.value >= cfg.roiTrigger.value && ExitSignal(exitKlines).Some? {
        var _, _ := CloseSymbolPosition(symbol, env);
        return true;
      }
      return false;
    }

    /** `_execute_symbol_average_down`, on an open position (its only caller
        checks that). */
    method ExecuteSymbolAverageDown(symbol: string, env: ExecEnv) returns (ok: bool, order: Option<Order>)
      requires Valid() && symbol in symbolData && symbolData[symbol].positionOpen
      modifies this
      ensures Valid()
      ensures var r := ExecuteAverageDown(old(symbolData)[symbol], cfg, env);
              ok == r.0 && symbolData == old(symbolData)[symbol := r.1]
      ensures old(symbolData)[symbol].side.Some? && order == AverageDownOrder(old(symbolData)[symbol], cfg, env)
      ensures activeSymbols == old(activeSymbols) && global == old(global)
      ensures lastTradeCompletionTime == old(lastTradeCompletionTime) && lastGlobalPositionCheck == old(lastGlobalPositionCheck)
    {
      var st := symbolData[symbol];
      assert WellFormed(st);
      ghost var e := ExecuteAverageDown(st, cfg, env);
      order := None;
      if env.balance.None? || env.balance.value <= 0.0 || env.price <= 0.0 {
        return false, order;
      }
      var qty := AverageDownSize(env.balance.value, st.averageDownCount, cfg, env.price, env.step);
      if qty < env.step {
        return false, order;
      }
      order := Some(Order(st.side.value, qty));
      if env.reply.Refused? {
        return false, order;
      }
      var executed := env.reply.executedQty;
      var fillPrice := env.reply.avgPrice.GetOr(env.price);
      if executed < 0.0 || Abs(st.qty) + executed == 0.0 {
        assert e == (false, st);
        return false, order;
      }
      var total := Abs(st.qty) + executed;
      var rec := st.(entry := WeightedEntry(Abs(st.qty), st.entry, executed, fillPrice),
                     qty := if st.side == Some(Buy) then total else -total);
      assert e == (true, rec);
      RecordsUpdate(activeSymbols, symbolData, symbol, rec);
      symbolData := symbolData[symbol := rec];
      return true, order;
    }

    /** `_check_symbol_averaging_down`; returns whether an averaging went through. */
    method CheckSymbolAveragingDown(symbol: string, now: real, price: real, env: ExecEnv) returns (averaged: bool)
      requires Valid() && symbol in symbolData
      modifies this
      ensures Valid()
      ensures var r := AverageDownCheck(old(symbolData)[symbol], cfg, now, price, env);
              averaged == r.0 && symbolData == old(symbolData)[symbol := r.1]
      ensures activeSymbols == old(activeSymbols) && global == old(global)
      ensures lastTradeCompletionTime == old(lastTradeCompletionTime) && lastGlobalPositionCheck == old(lastGlobalPositionCheck)
    {
      var st := symbolData[symbol];
      if !st.positionOpen || st.entryBase == 0.0 || st.averageDownCount >= MaxAverageDowns {
        return false;
      }
      if now - st.lastAverageDownTime < AverageDownDelay || price <= 0.0 {
        return false;
      }
      var r := Roi(st.side, st.entryBase, st.qty, price, cfg.lev);
      if r.None? || r.value >= 0.0 {
        return false;
      }
      var loss := Abs(r.value);
      if st.averageDownCount < |Fib| && loss >= Fib[st.averageDownCount] as real {
        ghost var e := ExecuteAverageDown(st, cfg, env);
        assert AverageDownCheck(st, cfg, now, price, env) ==
               if e.0 then (true, e.1.(lastAverageDownTime := now, averageDownCount := st.averageDownCount + 1))
               else (false, e.1);
        var ok, _ := ExecuteSymbolAverageDown(symbol, env);
        AverageDownWellFormed(st, cfg, now, price, env);
        if ok {
          var rec := symbolData[symbol].(lastAverageDownTime := now, averageDownCount := st.averageDownCount + 1);
          assert rec == AverageDownCheck(st, cfg, now, price, env).1;
          RecordsUpdate(activeSymbols, symbolData, symbol, rec);
          symbolData := symbolData[symbol := rec];
          return true;
        }
        return false;
      }
      assert AverageDownCheck(st, cfg, now, price, env) == (false, st);
      return false;
    }

    /** `_open_symbol_position` for a symbol of the bot; `stopEnv` is what the
        close inside `stop_symbol` would meet. */
    method OpenSymbolPosition(symbol: string, side: Side, env: OpenEnv, stopEnv: CloseEnv)
      returns (entered: bool, order: Option<Order>)
      requires Valid() && symbol in activeSymbols
      modifies this, coins
      ensures Valid()
      ensures order == OpeningOrder(old(symbolData)[symbol], symbol, side, cfg, env)
      ensures var r := OpenPosition(old(symbolData)[symbol], symbol, side, cfg, env);
              entered == (r.Keep? && r.entered) &&
              (r.Abandon? ==> activeSymbols == RemoveFirst(old(activeSymbols), symbol) &&
                              symbolData == old(symbolData) - {symbol} &&
                              coins.activeCoins == Unregistered(old(coins.activeCoins), symbol)) &&
              (r.Keep? ==> activeSymbols == old(activeSymbols) &&
                           symbolData == old(symbolData)[symbol := r.record] &&
                           coins.activeCoins == old(coins.activeCoins))
      ensures global == old(global)
      ensures lastTradeCompletionTime == old(lastTradeCompletionTime) && lastGlobalPositionCheck == old(lastGlobalPositionCheck)
    {
      ghost var synced := Sync(old(symbolData)[symbol], symbol, env.before, env.price, cfg);
      ghost var r := OpenPosition(old(symbolData)[symbol], symbol, side, cfg, env);
      // Every branch that drops the symbol ends in the one `stop_symbol` call below.
      if !env.holdsPosition {
        CheckSymbolPosition(symbol, env.before, env.price);
        SyncWellFormed(old(symbolData)[symbol], symbol, env.before, env.price, cfg);
        RecordsUpdate(activeSymbols, old(symbolData), symbol, synced);
        assert symbolData - {symbol} == old(symbolData) - {symbol};
        if symbolData[symbol].positionOpen {
          assert r == Keep(synced, false);
          return false, None;
        }
        if env.maxLeverage >= cfg.lev && env.leverageSet {
          if env.balance.None? || env.balance.value <= 0.0 {
            assert r == Keep(synced, false);
            return false, None;
          }
          if env.price > 0.0 {
            assert r == PlaceOpening(synced, symbol, side, cfg, env);
            entered, order := PlaceOpeningOrder(symbol, side, env, stopEnv);
            return;
          }
        }
      }
      assert r == Abandon;
      var _, _ := StopSymbol(symbol, stopEnv);
      return false, None;
    }

    /** The order part of `_open_symbol_position`: size the order, place it, and
        adopt the fill once the exchange confirms the position. */
    method PlaceOpeningOrder(symbol: string, side: Side, env: OpenEnv, stopEnv: CloseEnv)
      returns (entered: bool, order: Option<Order>)
      requires Valid() && symbol in activeSymbols && env.balance.Some? && env.price > 0.0
      modifies this, coins
      ensures Valid()
      ensures order == OpeningLot(side, cfg, env)
      ensures var r := PlaceOpening(old(symbolData)[symbol], symbol, side, cfg, env);
              entered == (r.Keep? && r.entered) &&
              (r.Abandon? ==> activeSymbols == RemoveFirst(old(activeSymbols), symbol) &&
                              symbolData == old(symbolData) - {symbol} &&
                              coins.activeCoins == Unregistered(old(coins.activeCoins), symbol)) &&
              (r.Keep? ==> activeSymbols == old(activeSymbols) &&
                           symbolData == old(symbolData)[symbol := r.record] &&
                           coins.activeCoins == old(coins.activeCoins))
      ensures global == old(global)
      ensures lastTradeCompletionTime == old(lastTradeCompletionTime) && lastGlobalPositionCheck == old(lastGlobalPositionCheck)
    {
      ghost var r := PlaceOpening(old(symbolData)[symbol], symbol, side, cfg, env);
      var qty := LotQuantity(env.balance.value, cfg.percent, cfg.lev, env.price, env.step);
      order := if qty > 0.0 && qty >= env.step then Some(Order(side, qty)) else None;
      // Every branch that drops the symbol ends in the one `stop_symbol` call below.
      if !(qty > 0.0 && qty >= env.step && env.reply.Filled? && env.reply.executedQty >= 0.0) {
        assert r == Abandon;
      } else {
        var confirmed := ConfirmOpening(symbol, side, env.after, env.price, env.reply.executedQty,
                                        env.reply.avgPrice.GetOr(env.price));
        if confirmed {
          assert r == Keep(symbolData[symbol], true);
          return true, order;
        }
        assert r == Abandon;
        assert symbolData - {symbol} == old(symbolData) - {symbol};
      }
      var _, _ := StopSymbol(symbol, stopEnv);
      return false, order;
    }

    /** The last check of `_open_symbol_position` after a fill of `executed` at
        `fill`: re-sync with the exchange and, when the position is there, adopt
        the fill as a fresh position on `side`; otherwise keep the re-synced record. */
    method ConfirmOpening(symbol: string, side: Side, after: seq<ExchangePosition>, price: real,
                          executed: real, fill: real) returns (confirmed: bool)
      requires Valid() && symbol in symbolData && executed >= 0.0
      modifies this
      ensures Valid()
      ensures var c := Sync(old(symbolData)[symbol], symbol, after, price, cfg);
              confirmed == c.positionOpen &&
              symbolData == old(symbolData)[symbol := if confirmed then c.(entry := fill, entryBase := fill, averageDownCount := 0,
                                                                           side := Some(side), qty := if side == Buy then executed else -executed,
                                                                           positionOpen := true, highWaterMarkRoi := 0.0,
                                                                           roiCheckActivated := false)
                                                      else c]
      ensures activeSymbols == old(activeSymbols) && global == old(global)
      ensures lastTradeCompletionTime == old(lastTradeCompletionTime) && lastGlobalPositionCheck == old(lastGlobalPositionCheck)
    {
      CheckSymbolPosition(symbol, after, price);
      confirmed := symbolData[symbol].positionOpen;
      if confirmed {
        var st := symbolData[symbol].(entry := fill, entryBase := fill, averageDownCount := 0, side := Some(side),
                                      qty := if side == Buy then executed else -executed, positionOpen := true,
                                      highWaterMarkRoi := 0.0, roiCheckActivated := false);
        RecordsUpdate(activeSymbols, symbolData, symbol, st);
        symbolData := symbolData[symbol := st];
      }
    }

    /** `stop_symbol`: an unknown symbol gives false; otherwise an open position
        is closed first (`closeResult` is what the close reported, `None` when
        nothing was open), then the symbol is released from the registry, its
        record deleted and the symbol removed from the list. */
    method StopSymbol(symbol: string, env: CloseEnv) returns (stopped: bool, closeResult: Option<bool>)
      requires Valid()
      modifies this, coins
      ensures Valid()
      ensures stopped <==> symbol in old(activeSymbols)
      ensures !stopped ==> activeSymbols == old(activeSymbols) && symbolData == old(symbolData) &&
                           coins.activeCoins == old(coins.activeCoins) && closeResult.None?
      ensures stopped ==> activeSymbols == RemoveFirst(old(activeSymbols), symbol) &&
                          symbolData == old(symbolData) - {symbol} &&
                          coins.activeCoins == Unregistered(old(coins.activeCoins), symbol) &&
                          closeResult == (if old(symbolData)[symbol].positionOpen
                                          then Some(Close(old(symbolData)[symbol], symbol, cfg, env).0) else None)
      ensures global == old(global)
      ensures lastTradeCompletionTime == old(lastTradeCompletionTime) && lastGlobalPositionCheck == old(lastGlobalPositionCheck)
    {
      if symbol !in activeSymbols {
        return false, None;
      }
      closeResult := None;
      if symbolData[symbol].positionOpen {
        var ok, _ := CloseSymbolPosition(symbol, env);
        closeResult := Some(ok);
      }
      assert symbolData - {symbol} == old(symbolData) - {symbol};
      RecordsRemove(activeSymbols, symbolData, symbol);
      coins.UnregisterCoin(symbol);
      symbolData := symbolData - {symbol};
      activeSymbols := RemoveFirst(activeSymbols, symbol);
      stopped := true;
    }

    /** `_add_symbol`: refuse a symbol already held, a full bot, or a symbol the
        exchange reports a position on (`holdsPosition`); otherwise create its
        zeroed record, append it, claim it in the registry and sync it with the
        exchange; a position found there makes the bot stop the symbol again. */
    method AddSymbol(symbol: string, holdsPosition: bool, positions: seq<ExchangePosition>, price: real, env: CloseEnv)
      returns (added: bool)
      requires Valid()
      modifies this, coins
      ensures Valid()
      ensures added <==> symbol !in old(activeSymbols) && |old(activeSymbols)| < cfg.maxCoins && !holdsPosition &&
                         !Sync(NewRecord, symbol, positions, price, cfg).positionOpen
      ensures added ==> activeSymbols == old(activeSymbols) + [symbol] &&
                        symbolData == old(symbolData)[symbol := Sync(NewRecord, symbol, positions, price, cfg)] &&
                        coins.activeCoins == Registered(old(coins.activeCoins), symbol)
      ensures !added ==> activeSymbols == old(activeSymbols) && symbolData == old(symbolData)
      ensures !added && (symbol in old(activeSymbols) || |old(activeSymbols)| >= cfg.maxCoins || holdsPosition) ==>
              coins.activeCoins == old(coins.activeCoins)
      ensures !added && !(symbol in old(activeSymbols) || |old(activeSymbols)| >= cfg.maxCoins || holdsPosition) ==>
              coins.activeCoins == Unregistered(Registered(old(coins.activeCoins), symbol), symbol)
      ensures global == old(global)
      ensures lastTradeCompletionTime == old(lastTradeCompletionTime) && lastGlobalPositionCheck == old(lastGlobalPositionCheck)
    {
      if symbol in activeSymbols {
        return false;
      }
      if |activeSymbols| >= cfg.maxCoins {
        return false;
      }
      if holdsPosition {
        return false;
      }
      NewRecordWellFormed();
      DistinctSnoc(activeSymbols, symbol);
      symbolData := symbolData[symbol := NewRecord];
      activeSymbols := activeSymbols + [symbol];
      coins.RegisterCoin(symbol);
      CheckSymbolPosition(symbol, positions, price);
      SyncWellFormed(NewRecord, symbol, positions, price, cfg);
      if symbolData[symbol].positionOpen {
        ghost var before := activeSymbols;
        RemoveAppended(old(activeSymbols), symbol);
        var _, _ := StopSymbol(symbol, env);
        assert symbolData == old(symbolData);
        return false;
      }
      return true;
    }

    /** The end of a `_run` round that processed the head symbol: stamp the
        trade-completion time and move the head to the tail. */
    method FinishRound(now: real)
      requires Valid()
      modifies this
      ensures Valid()
      ensures activeSymbols == Rotated(old(activeSymbols)) && lastTradeCompletionTime == now
      ensures symbolData == old(symbolData) && global == old(global)
      ensures lastGlobalPositionCheck == old(lastGlobalPositionCheck)
    {
      lastTradeCompletionTime := now;
      RotatedDistinct(activeSymbols);
      if |activeSymbols| > 1 {
        activeSymbols := activeSymbols[1..] + [activeSymbols[0]];
      }
    }

    /** The start of a `_run` round: recount the account when the last count is
        more than 10 s old. */
    method PeriodicGlobalCheck(now: real, positions: seq<AccountPosition>)
      modifies this
      ensures GlobalCheckDue(now, old(lastGlobalPositionCheck)) ==>
              global == TallyOf(positions) && lastGlobalPositionCheck == now
      ensures !GlobalCheckDue(now, old(lastGlobalPositionCheck)) ==>
              global == old(global) && lastGlobalPositionCheck == old(lastGlobalPositionCheck)
      ensures activeSymbols == old(activeSymbols) && symbolData == old(symbolData)
      ensures lastTradeCompletionTime == old(lastTradeCompletionTime)
    {
      if now - lastGlobalPositionCheck > GlobalCheckInterval {
        CheckGlobalPositions(positions);
        lastGlobalPositionCheck := now;
      }
    }

    /** `check_global_positions`: recount the account's long and short positions. */
    method CheckGlobalPositions(positions: seq<AccountPosition>)
      modifies this
      ensures global == TallyOf(positions)
      ensures activeSymbols == old(activeSymbols) && symbolData == old(symbolData)
      ensures lastTradeCompletionTime == old(lastTradeCompletionTime) && lastGlobalPositionCheck == old(lastGlobalPositionCheck)
    {
      global := Aggregate(positions);
    }

    /** `get_next_side_based_on_comprehensive_analysis`: refresh the statistics,
        then follow the side with the higher PnL; `tie` is the random pick on
        equal PnL. */
    method GetNextSide(positions: seq<AccountPosition>, tie: Side) returns (side: Side)
      modifies this
      ensures global == TallyOf(positions)
      ensures side == NextSide(global.longPnl, global.shortPnl, tie)
      ensures activeSymbols == old(activeSymbols) && symbolData == old(symbolData)
      ensures lastTradeCompletionTime == old(lastTradeCompletionTime) && lastGlobalPositionCheck == old(lastGlobalPositionCheck)
    {
      CheckGlobalPositions(positions);
      if global.longPnl > global.shortPnl {
        return Buy;
      } else if global.shortPnl > global.longPnl {
        return Sell;
      }
      side := tie;
    }
  }
}
