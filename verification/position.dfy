/** The per-symbol position record of `BaseBot.symbol_data` and the operations
    that move it: the sync with the exchange, reset, close with its throttle,
    the TP/SL check with its ROI high-water mark, the smart exit, averaging down
    and the entry cool-down. Each operation is a function from the old record and
    the exchange's answers to the new record; `Bot.BaseBot` applies them in place. */
module Position {
  import opened Common
  import opened Signal

  /** A leverage the bot can divide by. */
  type Leverage = x: int | x >= 1 witness 1

  /** The bot settings the record operations read. */
  datatype Config = Config(
    lev: Leverage,
    percent: real,                // share of the balance per entry, in percent
    tp: Option<real>,             // take-profit ROI, in percent
    sl: Option<real>,             // stop-loss ROI, in percent
    roiTrigger: Option<real>,     // ROI that arms the smart exit, in percent
    maxCoins: nat)

  /** One entry of `symbol_data`. `side == None` is the source's empty side. */
  datatype SymbolState = SymbolState(
    positionOpen: bool,
    side: Option<Side>,
    qty: real,                    // signed: negative for a short position
    entry: real,                  // average entry price
    entryBase: real,              // price of the first fill, the averaging reference
    averageDownCount: nat,
    lastTradeTime: real,
    lastCloseTime: real,
    lastAverageDownTime: real,
    highWaterMarkRoi: real,
    roiCheckActivated: bool,
    closeAttempted: bool,
    lastCloseAttempt: real)

  /** The record `_add_symbol` creates: nothing open, every field zero. */
  const NewRecord: SymbolState :=
    SymbolState(false, None, 0.0, 0.0, 0.0, 0, 0.0, 0.0, 0.0, 0.0, false, false, 0.0)

  const MaxAverageDowns: nat := 7
  /** The loss, in percent of the margin, at which the n-th averaging fires. */
  const Fib: seq<int> := [200, 300, 500, 800, 1300, 2100, 3400]
  const CloseRetryDelay: real := 30.0
  const AverageDownDelay: real := 60.0
  const TradeDelay: real := 60.0
  const ReentryDelay: real := 3600.0

  /** `_reset_symbol_position`: the position fields are cleared; the three
      timestamps are kept. */
  function Reset(st: SymbolState): (r: SymbolState)
    ensures !r.positionOpen && r.side.None? && r.qty == 0.0 && r.entry == 0.0 && r.entryBase == 0.0
    ensures r.averageDownCount == 0 && r.highWaterMarkRoi == 0.0 && !r.roiCheckActivated
    ensures !r.closeAttempted && r.lastCloseAttempt == 0.0
    ensures r.lastTradeTime == st.lastTradeTime && r.lastCloseTime == st.lastCloseTime
    ensures r.lastAverageDownTime == st.lastAverageDownTime
  {
    st.(positionOpen := false, side := None, qty := 0.0, entry := 0.0, closeAttempted := false,
        lastCloseAttempt := 0.0, entryBase := 0.0, averageDownCount := 0, highWaterMarkRoi := 0.0,
        roiCheckActivated := false)
  }

  /** The records the operations keep: at most seven averagings, no close left
      half-done between operations, an open position has a side that agrees with
      the sign of its quantity, and a closed one has every position field zero. */
  predicate WellFormed(st: SymbolState) {
    st.averageDownCount <= MaxAverageDowns &&
    !st.closeAttempted &&
    st.highWaterMarkRoi >= 0.0 &&
    (st.positionOpen ==>
       st.side.Some? && (st.side == Some(Buy) ==> st.qty >= 0.0) && (st.side == Some(Sell) ==> st.qty <= 0.0)) &&
    (!st.positionOpen ==> st == Reset(st))
  }

  lemma NewRecordWellFormed()
    ensures WellFormed(NewRecord)
  {
  }

  /** Profit of a position of `qty` entered at `base`, at `price`; any side other
      than BUY counts as short. */
  function Profit(side: Option<Side>, base: real, qty: real, price: real): real {
    if side == Some(Buy) then (price - base) * Abs(qty) else (base - price) * Abs(qty)
  }

  /** ROI in percent of the margin `base * |qty| / lev`; `None` when that margin
      is not positive (the source gives up then). */
  function Roi(side: Option<Side>, base: real, qty: real, price: real, lev: Leverage): (r: Option<real>)
    ensures r.Some? <==> base * Abs(qty) > 0.0
  {
    var invested := base * Abs(qty) / lev as real;
    if invested <= 0.0 then None else Some(Profit(side, base, qty, price) / invested * 100.0)
  }

  /** The ROI is the price move relative to the entry, times the leverage. */
  lemma RoiIsLeveragedMove(side: Option<Side>, base: real, qty: real, price: real, lev: Leverage)
    requires base > 0.0 && qty != 0.0
    ensures side == Some(Buy) ==> Roi(side, base, qty, price, lev) == Some((price - base) / base * lev as real * 100.0)
    ensures side != Some(Buy) ==> Roi(side, base, qty, price, lev) == Some((base - price) / base * lev as real * 100.0)
  {
    RoiUnfold(side, base, qty, price, lev);
    var roi := Some(Profit(side, base, qty, price) / (base * Abs(qty) / lev as real) * 100.0);
    if side == Some(Buy) {
      LeverageAlgebra(Profit(side, base, qty, price), price - base, Abs(qty), base, lev as real);
      assert Roi(side, base, qty, price, lev) == roi;
      assert Profit(side, base, qty, price) / (base * Abs(qty) / lev as real) * 100.0 == (price - base) / base * lev as real * 100.0;
    } else {
      LeverageAlgebra(Profit(side, base, qty, price), base - price, Abs(qty), base, lev as real);
      assert Roi(side, base, qty, price, lev) == roi;
      assert Profit(side, base, qty, price) / (base * Abs(qty) / lev as real) * 100.0 == (base - price) / base * lev as real * 100.0;
    }
  }

  lemma RoiUnfold(side: Option<Side>, base: real, qty: real, price: real, lev: Leverage)
    requires base > 0.0 && qty != 0.0
    ensures Roi(side, base, qty, price, lev) == Some(Profit(side, base, qty, price) / (base * Abs(qty) / lev as real) * 100.0)
  {
    assert base * Abs(qty) / lev as real > 0.0;
  }

  lemma LeverageAlgebra(p: real, d: real, a: real, base: real, l: real)
    requires a > 0.0 && base > 0.0 && l > 0.0 && p == d * a
    ensures p / (base * a / l) * 100.0 == d / base * l * 100.0
  {
    var v := base * a / l;
    var u := d / base;
    assert v * l == base * a;
    assert u * base == d;
    calc {
      (u * l) * v;
      u * (v * l);
      u * (base * a);
      (u * base) * a;
      d * a;
    }
  }

  /** What the exchange reports for one position (`get_positions`). */
  datatype ExchangePosition = ExchangePosition(symbol: string, amount: real, entryPrice: real)

  /** The first reported position for exactly this symbol. */
  function FirstFor(positions: seq<ExchangePosition>, symbol: string): (r: Option<ExchangePosition>)
    ensures r.Some? ==> exists i :: 0 <= i < |positions| && positions[i] == r.value && r.value.symbol == symbol &&
                                    forall j :: 0 <= j < i ==> positions[j].symbol != symbol
    ensures r.None? ==> forall p :: p in positions ==> p.symbol != symbol
  {
    if positions == [] then None
    else if positions[0].symbol == symbol then Some(positions[0])
    else
      var r := FirstFor(positions[1..], symbol);
      assert forall i :: 0 < i < |positions| ==> positions[i] == positions[1..][i - 1];
      r
  }

  /** `_check_symbol_position`: adopt the exchange's position for the symbol, or
      reset the record when there is none (or its amount is 0). Adopting keeps the
      averaging state and the high-water mark, and arms the smart exit when the
      position is already at the ROI trigger (`price` is the current price, 0 when
      unknown). */
  function Sync(st: SymbolState, symbol: string, positions: seq<ExchangePosition>, price: real, cfg: Config): (r: SymbolState)
    ensures r.positionOpen <==> FirstFor(positions, symbol).Some? && FirstFor(positions, symbol).value.amount != 0.0
    ensures r.positionOpen ==> r.qty == FirstFor(positions, symbol).value.amount && r.entry == FirstFor(positions, symbol).value.entryPrice &&
                               r.side == Some(if r.qty > 0.0 then Buy else Sell)
    ensures r.positionOpen ==> r.averageDownCount == st.averageDownCount && r.entryBase == st.entryBase &&
                               r.highWaterMarkRoi == st.highWaterMarkRoi && r.closeAttempted == st.closeAttempted &&
                               r.lastAverageDownTime == st.lastAverageDownTime && r.lastCloseAttempt == st.lastCloseAttempt
    ensures r.positionOpen ==>
              (r.roiCheckActivated <==>
                 st.roiCheckActivated ||
                 (price > 0.0 && cfg.roiTrigger.Some? && Roi(r.side, r.entry, r.qty, price, cfg.lev).Some? &&
                  Roi(r.side, r.entry, r.qty, price, cfg.lev).value >= cfg.roiTrigger.value))
    ensures !r.positionOpen ==> r == Reset(st)
    ensures r.lastTradeTime == st.lastTradeTime && r.lastCloseTime == st.lastCloseTime
  {
    match FirstFor(positions, symbol)
    case None => Reset(st)
    case Some(p) =>
      if Abs(p.amount) > 0.0 then
        var adopted := st.(positionOpen := true, side := Some(if p.amount > 0.0 then Buy else Sell),
                          qty := p.amount, entry := p.entryPrice);
        if price > 0.0 then
          match Roi(adopted.side, adopted.entry, adopted.qty, price, cfg.lev)
          case Some(roi) =>
            if cfg.roiTrigger.Some? && roi >= cfg.roiTrigger.value then adopted.(roiCheckActivated := true) else adopted
          case None => adopted
        else adopted
      else Reset(st)
  }

  /** An order placed on the exchange: refused (no reply or no order id) or
      filled for `executedQty` at `avgPrice` (absent: the current price is used). */
  datatype OrderReply = Refused | Filled(executedQty: real, avgPrice: Option<real>)

  /** A market order sent to the exchange: its direction and its size in coins. */
  datatype Order = Order(side: Side, qty: real)

  /** What a fill of `o` adds to a signed position amount. */
  function Signed(o: Order): real {
    if o.side == Buy then o.qty else -o.qty
  }

  /** What `_close_symbol_position` learns from the exchange. */
  datatype CloseEnv = CloseEnv(positions: seq<ExchangePosition>, price: real, reply: OrderReply, now: real)

  /** `_close_symbol_position`: re-sync; nothing open is a success; an attempt
      still in flight for less than 30 s refuses; otherwise mark the attempt and
      send the opposite order: a fill records the close time and resets the
      record, a refusal clears the attempt mark. */
  function Close(st: SymbolState, symbol: string, cfg: Config, env: CloseEnv): (bool, SymbolState) {
    var synced := Sync(st, symbol, env.positions, env.price, cfg);
    if !synced.positionOpen || Abs(synced.qty) <= 0.0 then (true, synced)
    else if synced.closeAttempted && env.now - synced.lastCloseAttempt < CloseRetryDelay then (false, synced)
    else
      var marked := synced.(closeAttempted := true, lastCloseAttempt := env.now);
      if env.reply.Filled? then (true, Reset(marked.(lastCloseTime := env.now)))
      else (false, marked.(closeAttempted := false))
  }

  /** The order `_close_symbol_position` sends once the re-sync found a position
      and the throttle let the attempt through: the direction opposite to the
      position's, for its whole size, so that a fill leaves nothing open. */
  function CloseOrder(st: SymbolState, symbol: string, cfg: Config, env: CloseEnv): (r: Option<Order>)
    ensures r.Some? ==> r.value.qty > 0.0 &&
                        Sync(st, symbol, env.positions, env.price, cfg).side == Some(Opposite(r.value.side)) &&
                        Sync(st, symbol, env.positions, env.price, cfg).qty + Signed(r.value) == 0.0
  {
    var synced := Sync(st, symbol, env.positions, env.price, cfg);
    if !synced.positionOpen || Abs(synced.qty) <= 0.0 then None
    else if synced.closeAttempted && env.now - synced.lastCloseAttempt < CloseRetryDelay then None
    else Some(Order(if synced.side == Some(Buy) then Sell else Buy, Abs(synced.qty)))
  }

  /** The exchange's reply matters only when the close sends its order, and then
      the close succeeds exactly when the order is filled. */
  lemma CloseSendsOrder(st: SymbolState, symbol: string, cfg: Config, env: CloseEnv)
    ensures CloseOrder(st, symbol, cfg, env).None? ==>
            Close(st, symbol, cfg, env) == Close(st, symbol, cfg, env.(reply := Refused))
    ensures CloseOrder(st, symbol, cfg, env).Some? ==> (Close(st, symbol, cfg, env).0 <==> env.reply.Filled?)
  {
  }

  /** A close never leaves the attempt mark set behind it unless it was refused
      by the throttle, which needs the mark to be set already: run one call at a
      time, the throttle never refuses. */
  lemma CloseClearsAttempt(st: SymbolState, symbol: string, cfg: Config, env: CloseEnv)
    ensures Close(st, symbol, cfg, env).1.closeAttempted ==> st.closeAttempted
    ensures !st.closeAttempted ==> !Close(st, symbol, cfg, env).1.closeAttempted
  {
  }

  /** The throttle: with an attempt marked less than 30 s ago and the position
      still open, the close refuses and changes nothing but the sync. */
  lemma CloseThrottled(st: SymbolState, symbol: string, cfg: Config, env: CloseEnv)
    requires st.closeAttempted && env.now - st.lastCloseAttempt < CloseRetryDelay
    requires Sync(st, symbol, env.positions, env.price, cfg).positionOpen && Sync(st, symbol, env.positions, env.price, cfg).qty != 0.0
    ensures Close(st, symbol, cfg, env) == (false, Sync(st, symbol, env.positions, env.price, cfg))
  {
  }

  /** A close that goes through records the close time and leaves nothing open;
      a refused order leaves the position open and unmarked. */
  lemma CloseOutcome(st: SymbolState, symbol: string, cfg: Config, env: CloseEnv)
    requires !st.closeAttempted
    requires Sync(st, symbol, env.positions, env.price, cfg).positionOpen && Sync(st, symbol, env.positions, env.price, cfg).qty != 0.0
    ensures env.reply.Filled? ==> Close(st, symbol, cfg, env) == (true, Reset(Sync(st, symbol, env.positions, env.price, cfg)).(lastCloseTime := env.now))
    ensures env.reply.Refused? ==> !Close(st, symbol, cfg, env).0 && Close(st, symbol, cfg, env).1.positionOpen &&
                                   Close(st, symbol, cfg, env).1.lastCloseAttempt == env.now
  {
  }

  /** Which exit the traditional TP/SL rules take at this ROI. */
  datatype Exit = NoExit | TakeProfit | StopLoss

  function TpSlDecision(roi: real, cfg: Config): (r: Exit)
    ensures r == TakeProfit <==> cfg.tp.Some? && roi >= cfg.tp.value
    ensures r == StopLoss <==> !(cfg.tp.Some? && roi >= cfg.tp.value) && cfg.sl.Some? && cfg.sl.value > 0.0 && roi <= -cfg.sl.value
  {
    if cfg.tp.Some? && roi >= cfg.tp.value then TakeProfit
    else if cfg.sl.Some? && cfg.sl.value > 0.0 && roi <= -cfg.sl.value then StopLoss
    else NoExit
  }

  /** The ROI bookkeeping of `_check_symbol_tp_sl`: raise the high-water mark,
      and arm the smart exit once the mark reaches the trigger. */
  function TrackRoi(st: SymbolState, roi: real, cfg: Config): (r: SymbolState)
    ensures r.highWaterMarkRoi == Max(st.highWaterMarkRoi, roi)
    ensures r.roiCheckActivated <==> st.roiCheckActivated || (cfg.roiTrigger.Some? && Max(st.highWaterMarkRoi, roi) >= cfg.roiTrigger.value)
    ensures r == st.(highWaterMarkRoi := r.highWaterMarkRoi, roiCheckActivated := r.roiCheckActivated)
  {
    var raised := if roi > st.highWaterMarkRoi then st.(highWaterMarkRoi := roi) else st;
    if cfg.roiTrigger.Some? && raised.highWaterMarkRoi >= cfg.roiTrigger.value && !raised.roiCheckActivated then
      raised.(roiCheckActivated := true)
    else raised
  }

  /** `_check_symbol_tp_sl`: nothing happens unless the position is open, entered
      at a positive price, not being closed, and the price and margin are positive;
      then the ROI is tracked and a take profit or stop loss closes the position. */
  function TpSlCheck(st: SymbolState, symbol: string, cfg: Config, price: real, env: CloseEnv): (bool, SymbolState) {
    if !st.positionOpen || st.entry <= 0.0 || st.closeAttempted || price <= 0.0 then (false, st)
    else
      match Roi(st.side, st.entry, st.qty, price, cfg.lev)
      case None => (false, st)
      case Some(roi) =>
        var tracked := TrackRoi(st, roi, cfg);
        if TpSlDecision(roi, cfg) != NoExit then (true, Close(tracked, symbol, cfg, env).1)
        else (false, tracked)
  }

  /** While the position stays open the high-water mark never falls and an armed
      smart exit stays armed; a close is reported exactly when TP or SL fired. */
  lemma TpSlMonotone(st: SymbolState, symbol: string, cfg: Config, price: real, env: CloseEnv)
    ensures var r := TpSlCheck(st, symbol, cfg, price, env);
            r.1.positionOpen ==> r.1.highWaterMarkRoi >= st.highWaterMarkRoi && (st.roiCheckActivated ==> r.1.roiCheckActivated)
    ensures TpSlCheck(st, symbol, cfg, price, env).0 <==>
            st.positionOpen && st.entry > 0.0 && !st.closeAttempted && price > 0.0 &&
            Roi(st.side, st.entry, st.qty, price, cfg.lev).Some? &&
            TpSlDecision(Roi(st.side, st.entry, st.qty, price, cfg.lev).value, cfg) != NoExit
  {
    if st.positionOpen && st.entry > 0.0 && !st.closeAttempted && price > 0.0 {
      var roi := Roi(st.side, st.entry, st.qty, price, cfg.lev);
      if roi.Some? {
        var tracked := TrackRoi(st, roi.value, cfg);
        var closed := Close(tracked, symbol, cfg, env).1;
        if TpSlDecision(roi.value, cfg) != NoExit && closed.positionOpen {
          CloseKeepsTracking(tracked, symbol, cfg, env);
        }
      }
    }
  }

  /** A close that leaves the position open keeps its high-water mark and its armed trigger. */
  lemma CloseKeepsTracking(st: SymbolState, symbol: string, cfg: Config, env: CloseEnv)
    requires Close(st, symbol, cfg, env).1.positionOpen
    ensures Close(st, symbol, cfg, env).1.highWaterMarkRoi == st.highWaterMarkRoi
    ensures st.roiCheckActivated ==> Close(st, symbol, cfg, env).1.roiCheckActivated
  {
  }

  /** `_check_smart_exit_condition`: once armed, an open position at or above the
      ROI trigger is closed when the exit signal (40 percent volume) gives any
      direction; the check reports true whether or not the close went through. A
      missing trigger makes the source's comparison fail, which it reports as false. */
  function SmartExit(st: SymbolState, symbol: string, cfg: Config, price: real,
                     exitKlines: Option<seq<Candle>>, env: CloseEnv): (bool, SymbolState) {
    if !st.positionOpen || !st.roiCheckActivated || price <= 0.0 then (false, st)
    else
      match Roi(st.side, st.entry, st.qty, price, cfg.lev)
      case None => (false, st)
      case Some(roi) =>
        if cfg.roiTrigger.Some? && roi >= cfg.roiTrigger.value && ExitSignal(exitKlines).Some? then
          (true, Close(st, symbol, cfg, env).1)
        else (false, st)
  }

  /** The smart exit acts only on an armed, open position whose ROI reached the
      trigger and whose exit signal fired; otherwise it changes nothing. */
  lemma SmartExitOnlyWhenArmed(st: SymbolState, symbol: string, cfg: Config, price: real,
                               exitKlines: Option<seq<Candle>>, env: CloseEnv)
    ensures SmartExit(st, symbol, cfg, price, exitKlines, env).0 <==>
            st.positionOpen && st.roiCheckActivated && price > 0.0 && cfg.roiTrigger.Some? &&
            Roi(st.side, st.entry, st.qty, price, cfg.lev).Some? &&
            Roi(st.side, st.entry, st.qty, price, cfg.lev).value >= cfg.roiTrigger.value &&
            ExitSignal(exitKlines).Some?
    ensures !SmartExit(st, symbol, cfg, price, exitKlines, env).0 ==> SmartExit(st, symbol, cfg, price, exitKlines, env).1 == st
  {
  }

  /** `q` rounded down to a whole number of lot steps. */
  function FloorToStep(q: real, step: real): (r: real)
    requires step > 0.0
    ensures r <= q < r + step
    ensures (r / step).Floor as real == r / step
  {
    var k := (q / step).Floor;
    assert k as real <= q / step < k as real + 1.0;
    FloorBounds(q, step, k as real);
    MulDivCancel(k as real, step);
    assert (k as real * step) / step == k as real;
    assert (k as real).Floor == k;
    k as real * step
  }

  lemma MulDivCancel(k: real, step: real)
    requires step > 0.0
    ensures (k * step) / step == k
  {
  }

  lemma FloorBounds(q: real, step: real, k: real)
    requires step > 0.0 && k <= q / step < k + 1.0
    ensures k * step <= q < k * step + step
  {
    FloorBelow(q, step, k);
    FloorAbove(q, step, k);
  }

  lemma FloorBelow(q: real, step: real, k: real)
    requires step > 0.0 && k <= q / step
    ensures k * step <= q
  {
    MulMonotone(k, q / step, step);
    assert q / step * step == q;
  }

  lemma FloorAbove(q: real, step: real, k: real)
    requires step > 0.0 && q / step < k + 1.0
    ensures q < k * step + step
  {
    var u := q / step;
    MulStrict(u, k + 1.0, step);
    assert u * step == q;
    assert (k + 1.0) * step == k * step + step;
  }

  lemma MulMonotone(u: real, v: real, c: real)
    requires u <= v && c >= 0.0
    ensures u * c <= v * c
  {
  }

  lemma MulStrict(u: real, v: real, c: real)
    requires u < v && c > 0.0
    ensures u * c < v * c
  {
  }

  lemma MulCancel(u: real, v: real, c: real)
    requires u * c <= v * c && c > 0.0
    ensures u <= v
  {
    if u > v {
      MulStrict(v, u, c);
    }
  }

  /** The order size of the quantity sizing: `percent` of the balance, times the
      leverage, in coins at `price`, floored to the lot step when there is one. */
  function LotQuantity(balance: real, percent: real, lev: Leverage, price: real, step: real): (r: real)
    requires price > 0.0
    ensures step > 0.0 ==> r <= balance * (percent / 100.0) * lev as real / price < r + step
    ensures step <= 0.0 ==> r == balance * (percent / 100.0) * lev as real / price
  {
    var raw := balance * (percent / 100.0) * lev as real / price;
    if step > 0.0 then FloorToStep(raw, step) else raw
  }

  /** Flooring an already whole number of steps changes nothing. */
  lemma FloorToStepIdempotent(q: real, step: real)
    requires step > 0.0
    ensures FloorToStep(FloorToStep(q, step), step) == FloorToStep(q, step)
  {
    var r := FloorToStep(q, step);
    var k: int :| r == k as real * step;
    assert r / step == k as real;
  }

  /** What `_execute_symbol_average_down` learns from the exchange. */
  datatype ExecEnv = ExecEnv(balance: Option<real>, price: real, step: real, reply: OrderReply)

  /** The order size of averaging number `count + 1`: `percent * (count + 1)`
      percent of the balance, leveraged and floored to the lot step. */
  function AverageDownSize(balance: real, count: nat, cfg: Config, price: real, step: real): real
    requires price > 0.0
  {
    LotQuantity(balance, cfg.percent * (count + 1) as real, cfg.lev, price, step)
  }

  /** The volume-weighted entry after adding `x` at `p` to `a` held at `e`. */
  function WeightedEntry(a: real, e: real, x: real, p: real): real
    requires a + x != 0.0
  {
    (a * e + x * p) / (a + x)
  }

  /** `_execute_symbol_average_down`: with a positive balance and price, order
      `percent * (count + 1)` percent of the balance, floored to the lot step; a
      fill moves the entry to the volume-weighted average and grows the quantity
      (a fill that leaves the total at 0 fails on the division, as in the source). */
  function ExecuteAverageDown(st: SymbolState, cfg: Config, env: ExecEnv): (bool, SymbolState) {
    if env.balance.None? || env.balance.value <= 0.0 || env.price <= 0.0 then (false, st)
    else
      if AverageDownSize(env.balance.value, st.averageDownCount, cfg, env.price, env.step) < env.step then (false, st)
      else
        match env.reply
        case Refused => (false, st)
        case Filled(executed, avg) =>
          var fillPrice := avg.GetOr(env.price);
          var total := Abs(st.qty) + executed;
          if executed < 0.0 || total == 0.0 then (false, st)
          else
            var newEntry := WeightedEntry(Abs(st.qty), st.entry, executed, fillPrice);
            (true, st.(entry := newEntry, qty := if st.side == Some(Buy) then total else -total))
  }

  /** The order `_execute_symbol_average_down` sends: on the position's own side,
      at least one lot step, and at most `percent * (count + 1)` percent of the
      balance, leveraged, in coins at the current price. */
  function AverageDownOrder(st: SymbolState, cfg: Config, env: ExecEnv): (r: Option<Order>)
    requires st.side.Some?
    ensures r.Some? ==> env.balance.Some? && env.price > 0.0 &&
                        r.value.side == st.side.value && env.step <= r.value.qty &&
                        r.value.qty <= env.balance.value * (cfg.percent * (st.averageDownCount + 1) as real / 100.0) * cfg.lev as real / env.price
  {
    if env.balance.None? || env.balance.value <= 0.0 || env.price <= 0.0 then None
    else
      var size := AverageDownSize(env.balance.value, st.averageDownCount, cfg, env.price, env.step);
      if size < env.step then None else Some(Order(st.side.value, size))
  }

  /** Without an order the averaging fails and changes nothing; a successful one
      did send its order, and on a well-formed open position it adds the executed
      amount in the order's direction. */
  lemma AverageDownSendsOrder(st: SymbolState, cfg: Config, env: ExecEnv)
    requires st.side.Some?
    ensures AverageDownOrder(st, cfg, env).None? ==> ExecuteAverageDown(st, cfg, env) == (false, st)
    ensures ExecuteAverageDown(st, cfg, env).0 ==> AverageDownOrder(st, cfg, env).Some?
    ensures WellFormed(st) && st.positionOpen && ExecuteAverageDown(st, cfg, env).0 ==>
            ExecuteAverageDown(st, cfg, env).1.qty ==
              st.qty + Signed(Order(AverageDownOrder(st, cfg, env).value.side, env.reply.executedQty))
  {
    if WellFormed(st) && st.positionOpen && ExecuteAverageDown(st, cfg, env).0 {
      AverageDownFill(st, cfg, env);
    }
  }

  /** A successful averaging adds the fill to the position: the quantity grows by
      the executed amount on the position's side, and the entry moves to the
      volume-weighted average, between the old entry and the fill price. Nothing
      else changes. */
  lemma AverageDownFill(st: SymbolState, cfg: Config, env: ExecEnv)
    requires ExecuteAverageDown(st, cfg, env).0
    ensures var r := ExecuteAverageDown(st, cfg, env).1;
            var x := env.reply.executedQty;
            var p := env.reply.avgPrice.GetOr(env.price);
            env.reply.Filled? && x >= 0.0 &&
            Abs(r.qty) == Abs(st.qty) + x &&
            (st.side == Some(Buy) ==> r.qty >= 0.0) && (st.side != Some(Buy) ==> r.qty <= 0.0) &&
            r.entry * (Abs(st.qty) + x) == Abs(st.qty) * st.entry + x * p &&
            (st.entry <= r.entry <= p || p <= r.entry <= st.entry) &&
            r == st.(entry := r.entry, qty := r.qty)
  {
    assert env.reply.Filled?;
    var x := env.reply.executedQty;
    var p := env.reply.avgPrice.GetOr(env.price);
    var a := Abs(st.qty);
    assert x >= 0.0 && a + x != 0.0;
    var r := ExecuteAverageDown(st, cfg, env).1;
    assert r == st.(entry := WeightedEntry(a, st.entry, x, p), qty := if st.side == Some(Buy) then a + x else -(a + x));
    WeightedMeanBetween(a, st.entry, x, p);
  }

  lemma WeightedMeanBetween(a: real, e: real, x: real, p: real)
    requires a >= 0.0 && x >= 0.0 && a + x != 0.0
    ensures WeightedEntry(a, e, x, p) * (a + x) == a * e + x * p
    ensures var m := WeightedEntry(a, e, x, p); e <= m <= p || p <= m <= e
  {
    var m := WeightedEntry(a, e, x, p);
    assert m == (a * e + x * p) / (a + x);
    assert m * (a + x) == a * e + x * p;
    if e <= p {
      MeanBounds(a, e, x, p, m);
    } else {
      MeanBounds(x, p, a, e, m);
    }
  }

  /** A mean of `lo` and `hi` with non-negative weights lies between them. */
  lemma MeanBounds(a: real, lo: real, x: real, hi: real, m: real)
    requires a >= 0.0 && x >= 0.0 && a + x > 0.0 && lo <= hi
    requires m * (a + x) == a * lo + x * hi
    ensures lo <= m <= hi
  {
    MulMonotone(lo, hi, x);
    MulMonotone(lo, hi, a);
    assert lo * (a + x) == a * lo + x * lo;
    assert hi * (a + x) == a * hi + x * hi;
    MulCancel(lo, m, a + x);
    MulCancel(m, hi, a + x);
  }

  /** 10 coins at 100 averaged with 5 coins at 90: 15 coins at 290/3. */
  lemma AverageDownExample(st: SymbolState, cfg: Config)
    requires st.side == Some(Buy) && st.qty == 10.0 && st.entry == 100.0 && st.averageDownCount == 0
    requires cfg.percent == 10.0 && cfg.lev == 1
    ensures ExecuteAverageDown(st, cfg, ExecEnv(Some(4500.0), 90.0, 1.0, Filled(5.0, Some(90.0)))) ==
            (true, st.(entry := 290.0 / 3.0, qty := 15.0))
  {
    assert LotQuantity(4500.0, 10.0, cfg.lev, 90.0, 1.0) == 5.0;
  }

  /** `_check_symbol_averaging_down`: an open position with a base price, fewer
      than seven averagings, none in the last 60 s, and a loss against the base
      price of at least the next Fibonacci level is averaged down; success counts
      the averaging and records its time. */
  function AverageDownCheck(st: SymbolState, cfg: Config, now: real, price: real, env: ExecEnv): (bool, SymbolState) {
    if !st.positionOpen || st.entryBase == 0.0 || st.averageDownCount >= MaxAverageDowns then (false, st)
    else if now - st.lastAverageDownTime < AverageDownDelay || price <= 0.0 then (false, st)
    else
      match Roi(st.side, st.entryBase, st.qty, price, cfg.lev)
      case None => (false, st)
      case Some(roi) =>
        if roi >= 0.0 then (false, st)
        else if st.averageDownCount < |Fib| && Abs(roi) >= Fib[st.averageDownCount] as real then
          var (ok, filled) := ExecuteAverageDown(st, cfg, env);
          if ok then (true, filled.(lastAverageDownTime := now, averageDownCount := st.averageDownCount + 1))
          else (false, filled)
        else (false, st)
  }

  /** Averaging fires exactly when all of its conditions hold (the loss reaches
      the next level and the order fills), and then the count rises by exactly
      one; when it does not fire, nothing changes. */
  lemma AverageDownOnlyWhen(st: SymbolState, cfg: Config, now: real, price: real, env: ExecEnv)
    ensures var r := AverageDownCheck(st, cfg, now, price, env);
            r.0 <==> st.positionOpen && st.entryBase != 0.0 && st.averageDownCount < MaxAverageDowns &&
                     now - st.lastAverageDownTime >= AverageDownDelay && price > 0.0 &&
                     Roi(st.side, st.entryBase, st.qty, price, cfg.lev).Some? &&
                     Roi(st.side, st.entryBase, st.qty, price, cfg.lev).value < 0.0 &&
                     -Roi(st.side, st.entryBase, st.qty, price, cfg.lev).value >= Fib[st.averageDownCount] as real &&
                     ExecuteAverageDown(st, cfg, env).0
    ensures var r := AverageDownCheck(st, cfg, now, price, env);
            r.0 ==> r.1.averageDownCount == st.averageDownCount + 1 && r.1.lastAverageDownTime == now
    ensures !AverageDownCheck(st, cfg, now, price, env).0 ==> AverageDownCheck(st, cfg, now, price, env).1 == st
  {
  }

  /** The Fibonacci levels rise strictly, so each averaging needs a deeper loss. */
  lemma FibIncreasing(i: nat, j: nat)
    requires i < j < |Fib|
    ensures Fib[i] < Fib[j]
  {
  }

  /** What `_open_symbol_position` learns from the exchange, in the order it asks. */
  datatype OpenEnv = OpenEnv(
    holdsPosition: bool,                // `has_existing_position`, asked first
    before: seq<ExchangePosition>,      // the positions at the first re-sync
    maxLeverage: int,                   // the symbol's leverage cap
    leverageSet: bool,                  // whether `set_leverage` succeeded
    balance: Option<real>,
    price: real,
    step: real,
    reply: OrderReply,
    after: seq<ExchangePosition>)       // the positions at the check after the fill

  /** How an opening attempt ends: the bot drops the symbol (`stop_symbol`), or it
      keeps the symbol with this record, `entered` telling whether a position was
      opened. */
  datatype OpenOutcome = Abandon | Keep(record: SymbolState, entered: bool)

  /** `_open_symbol_position`: a symbol already held on the exchange is dropped; a
      record the re-sync finds open is kept as it is; too little leverage, a
      leverage that cannot be set, no price, a quantity below the lot step, a
      refused order, a negative fill or a fill the exchange does not confirm drop
      the symbol; a missing balance keeps it untouched. A confirmed fill makes the
      record an open position on `side` entered at the fill price, with the
      averaging and ROI tracking started afresh. */
  function OpenPosition(st: SymbolState, symbol: string, side: Side, cfg: Config, env: OpenEnv): OpenOutcome {
    if env.holdsPosition then Abandon
    else
      var synced := Sync(st, symbol, env.before, env.price, cfg);
      if synced.positionOpen then Keep(synced, false)
      else if env.maxLeverage < cfg.lev || !env.leverageSet then Abandon
      else if env.balance.None? || env.balance.value <= 0.0 then Keep(synced, false)
      else if env.price <= 0.0 then Abandon
      else PlaceOpening(synced, symbol, side, cfg, env)
  }

  /** The order part of `_open_symbol_position`, once the checks before it passed. */
  function PlaceOpening(synced: SymbolState, symbol: string, side: Side, cfg: Config, env: OpenEnv): OpenOutcome
    requires env.balance.Some? && env.price > 0.0
  {
    if LotQuantity(env.balance.value, cfg.percent, cfg.lev, env.price, env.step) <= 0.0 ||
       LotQuantity(env.balance.value, cfg.percent, cfg.lev, env.price, env.step) < env.step then Abandon
    else
      match env.reply
      case Refused => Abandon
      case Filled(executed, avg) =>
        if executed < 0.0 then Abandon
        else
          var confirmed := Sync(synced, symbol, env.after, env.price, cfg);
          if !confirmed.positionOpen then Abandon
          else
            var fill := avg.GetOr(env.price);
            Keep(confirmed.(entry := fill, entryBase := fill, averageDownCount := 0, side := Some(side),
                            qty := if side == Buy then executed else -executed, positionOpen := true,
                            highWaterMarkRoi := 0.0, roiCheckActivated := false), true)
  }

  /** The order `_open_symbol_position` sends once every check before it passed:
      on the wanted side, at least one lot step, and at most `percent` percent of
      the balance, leveraged, in coins at the current price. */
  function OpeningOrder(st: SymbolState, symbol: string, side: Side, cfg: Config, env: OpenEnv): (r: Option<Order>)
    ensures r.Some? ==> env.balance.Some? && env.price > 0.0 &&
                        r.value.side == side && r.value.qty > 0.0 && env.step <= r.value.qty &&
                        r.value.qty <= env.balance.value * (cfg.percent / 100.0) * cfg.lev as real / env.price
  {
    if env.holdsPosition then None
    else if Sync(st, symbol, env.before, env.price, cfg).positionOpen then None
    else if env.maxLeverage < cfg.lev || !env.leverageSet then None
    else if env.balance.None? || env.balance.value <= 0.0 || env.price <= 0.0 then None
    else OpeningLot(side, cfg, env)
  }

  /** The sizing step of the opening order: `percent` percent of the balance,
      leveraged, in coins, floored to the lot step; no order below one step. */
  function OpeningLot(side: Side, cfg: Config, env: OpenEnv): (r: Option<Order>)
    requires env.balance.Some? && env.price > 0.0
    ensures r.Some? ==> r.value.side == side && r.value.qty > 0.0 && env.step <= r.value.qty &&
                        r.value.qty <= env.balance.value * (cfg.percent / 100.0) * cfg.lev as real / env.price
  {
    var size := LotQuantity(env.balance.value, cfg.percent, cfg.lev, env.price, env.step);
    if size <= 0.0 || size < env.step then None else Some(Order(side, size))
  }

  /** The exchange's reply matters only when the opening order is sent, and an
      opened position holds the executed amount in the order's direction. */
  lemma OpeningSendsOrder(st: SymbolState, symbol: string, side: Side, cfg: Config, env: OpenEnv)
    ensures OpeningOrder(st, symbol, side, cfg, env).None? ==>
            OpenPosition(st, symbol, side, cfg, env) == OpenPosition(st, symbol, side, cfg, env.(reply := Refused))
    ensures var r := OpenPosition(st, symbol, side, cfg, env);
            r.Keep? && r.entered ==>
              OpeningOrder(st, symbol, side, cfg, env).Some? &&
              r.record.qty == Signed(Order(OpeningOrder(st, symbol, side, cfg, env).value.side, env.reply.executedQty))
  {
  }

  /** A position is opened only after every check passed and the exchange
      confirmed the fill; it then sits on `side` with the fill as both its entry
      and its averaging reference, the executed amount as its size, and no
      averaging or ROI history. When the attempt keeps the symbol without
      opening, the record is the re-synced one. A symbol held on the exchange is
      always dropped. */
  lemma OpenPositionOutcome(st: SymbolState, symbol: string, side: Side, cfg: Config, env: OpenEnv)
    ensures env.holdsPosition ==> OpenPosition(st, symbol, side, cfg, env) == Abandon
    ensures var r := OpenPosition(st, symbol, side, cfg, env);
            r.Keep? && r.entered ==>
              !env.holdsPosition && env.maxLeverage >= cfg.lev && env.leverageSet &&
              env.balance.Some? && env.balance.value > 0.0 && env.price > 0.0 &&
              env.step <= LotQuantity(env.balance.value, cfg.percent, cfg.lev, env.price, env.step) &&
              env.reply.Filled? && env.reply.executedQty >= 0.0 &&
              !Sync(st, symbol, env.before, env.price, cfg).positionOpen &&
              r.record.positionOpen && r.record.side == Some(side) &&
              r.record.entry == env.reply.avgPrice.GetOr(env.price) && r.record.entryBase == r.record.entry &&
              Abs(r.record.qty) == env.reply.executedQty &&
              r.record.averageDownCount == 0 && r.record.highWaterMarkRoi == 0.0 && !r.record.roiCheckActivated
    ensures var r := OpenPosition(st, symbol, side, cfg, env);
            r.Keep? && !r.entered ==> r.record == Sync(st, symbol, env.before, env.price, cfg)
  {
  }

  /** Opening keeps records well formed. */
  lemma OpenWellFormed(st: SymbolState, symbol: string, side: Side, cfg: Config, env: OpenEnv)
    requires WellFormed(st)
    ensures OpenPosition(st, symbol, side, cfg, env).Keep? ==> WellFormed(OpenPosition(st, symbol, side, cfg, env).record)
  {
    var synced := Sync(st, symbol, env.before, env.price, cfg);
    SyncWellFormed(st, symbol, env.before, env.price, cfg);
    SyncWellFormed(synced, symbol, env.after, env.price, cfg);
  }

  /** `_process_single_symbol`'s entry cool-down: more than 60 s since the last
      entry and more than an hour since the last close. */
  predicate EntryAllowed(st: SymbolState, now: real) {
    now - st.lastTradeTime > TradeDelay && now - st.lastCloseTime > ReentryDelay
  }

  /** After a close that went through, the symbol cannot be entered again for an hour. */
  lemma NoReentryWithinHour(st: SymbolState, symbol: string, cfg: Config, env: CloseEnv, later: real)
    requires !st.closeAttempted
    requires Sync(st, symbol, env.positions, env.price, cfg).positionOpen && Sync(st, symbol, env.positions, env.price, cfg).qty != 0.0
    requires env.reply.Filled? && later <= env.now + ReentryDelay
    ensures !EntryAllowed(Close(st, symbol, cfg, env).1, later)
  {
  }

  lemma EntryGateExamples(st: SymbolState)
    requires st.lastTradeTime == 0.0 && st.lastCloseTime == 0.0
    ensures !EntryAllowed(st, 1800.0) && EntryAllowed(st, 3601.0)
  {
  }

  /** Every record operation keeps records well formed. */
  lemma SyncWellFormed(st: SymbolState, symbol: string, positions: seq<ExchangePosition>, price: real, cfg: Config)
    requires WellFormed(st)
    ensures WellFormed(Sync(st, symbol, positions, price, cfg))
  {
  }

  lemma ResetWellFormed(st: SymbolState)
    requires WellFormed(st)
    ensures WellFormed(Reset(st))
  {
  }

  lemma CloseWellFormed(st: SymbolState, symbol: string, cfg: Config, env: CloseEnv)
    requires WellFormed(st)
    ensures WellFormed(Close(st, symbol, cfg, env).1)
  {
    SyncWellFormed(st, symbol, env.positions, env.price, cfg);
  }

  lemma TpSlWellFormed(st: SymbolState, symbol: string, cfg: Config, price: real, env: CloseEnv)
    requires WellFormed(st)
    ensures WellFormed(TpSlCheck(st, symbol, cfg, price, env).1)
  {
    if st.positionOpen && st.entry > 0.0 && price > 0.0 {
      var roi := Roi(st.side, st.entry, st.qty, price, cfg.lev);
      if roi.Some? {
        var tracked := TrackRoi(st, roi.value, cfg);
        assert WellFormed(tracked);
        CloseWellFormed(tracked, symbol, cfg, env);
      }
    }
  }

  lemma SmartExitWellFormed(st: SymbolState, symbol: string, cfg: Config, price: real,
                            exitKlines: Option<seq<Candle>>, env: CloseEnv)
    requires WellFormed(st)
    ensures WellFormed(SmartExit(st, symbol, cfg, price, exitKlines, env).1)
  {
    CloseWellFormed(st, symbol, cfg, env);
  }

  lemma AverageDownWellFormed(st: SymbolState, cfg: Config, now: real, price: real, env: ExecEnv)
    requires WellFormed(st)
    ensures WellFormed(AverageDownCheck(st, cfg, now, price, env).1)
  {
    if AverageDownCheck(st, cfg, now, price, env).0 {
      AverageDownFill(st, cfg, env);
    }
  }
}
