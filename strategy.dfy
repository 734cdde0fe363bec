/** The backtest simulator and its commission model (strategy/outcome.go).
    Each simulator folds paired (price, action) inputs over an account that
    it updates in place, and emits a normalised equity value at every step.
    Money is `real`; the fee model and the trade configuration are explicit
    values instead of process-wide variables. */
module Strategy {
  import opened Base
  import opened Asset

  /** A strategy's decision for one step. */
  datatype Action = Sell | Hold | Buy

  // ---------------------------------------------------------------------
  // Commission model
  // ---------------------------------------------------------------------

  /** `AStockCommissionFee`: rates and the minimum commission. */
  datatype CommissionFee = AStockCommissionFee(commission: real, minCommission: real, slippage: real, stampDuty: real) {

    /** The commission part of a fee: proportional, never below the minimum. */
    function Commission(price: real, size: real): real {
      var c := size * price * commission;
      if c < minCommission then minCommission else c
    }

    /** Stamp duty: charged on sells only. */
    function Duty(price: real, size: real, action: Action): real {
      if action == Sell then size * price * stampDuty else 0.0
    }

    /** `Calculate`: commission plus slippage plus stamp duty. */
    function Calculate(price: real, size: real, action: Action): real {
      Commission(price, size) + size * price * slippage + Duty(price, size, action)
    }

    predicate NonNegativeRates() {
      commission >= 0.0 && minCommission >= 0.0 && slippage >= 0.0 && stampDuty >= 0.0
    }
  }

  /** The default fee model. */
  const DefaultFee: CommissionFee := AStockCommissionFee(0.0003, 5.0, 0.001, 0.0005)

  /** The commission is the larger of the proportional commission and the
      minimum. */
  lemma CommissionIsMax(fees: CommissionFee, price: real, size: real)
    ensures var c := fees.Commission(price, size);
      && c >= fees.minCommission && c >= size * price * fees.commission
      && (c == fees.minCommission || c == size * price * fees.commission)
  {
  }

  /** With non-negative rates, price and size, no fee is below the minimum
      commission. */
  lemma FeeAtLeastMinimum(fees: CommissionFee, price: real, size: real, action: Action)
    requires fees.NonNegativeRates() && price >= 0.0 && size >= 0.0
    ensures fees.Calculate(price, size, action) >= fees.minCommission
  {
    assert size * price >= 0.0;
    assert size * price * fees.slippage >= 0.0;
    assert size * price * fees.stampDuty >= 0.0;
  }

  /** A sell costs exactly the stamp duty more than a buy of the same size;
      a hold is charged as a buy. */
  lemma StampDutyOnSellsOnly(fees: CommissionFee, price: real, size: real)
    ensures fees.Calculate(price, size, Sell) == fees.Calculate(price, size, Buy) + size * price * fees.stampDuty
    ensures fees.Calculate(price, size, Hold) == fees.Calculate(price, size, Buy)
  {
  }

  /** 100 shares at 10 under the default model: commission 5 (the floor),
      slippage 1, and on a sell 0.5 stamp duty. */
  lemma DefaultFeeExample()
    ensures DefaultFee.Calculate(10.0, 100.0, Buy) == 6.0
    ensures DefaultFee.Calculate(10.0, 100.0, Sell) == 6.5
  {
  }

  // ---------------------------------------------------------------------
  // Trade configuration and lot selection
  // ---------------------------------------------------------------------

  /** `TradeConfig`: starting balance and minimum tradable lot. */
  datatype TradeConfig = TradeConfig(balance: real, minSize: real) {
    /** The returns are divided by the balance and lots are counted in
        multiples of the minimum size. */
    predicate Usable() {
      balance != 0.0 && minSize > 0.0
    }
  }

  /** The default trade configuration. */
  const DefaultTradeConfig: TradeConfig := TradeConfig(10000.0, 100.0)

  /** The quantity of `k` lots. */
  function Lot(cfg: TradeConfig, k: int): real {
    k as real * cfg.minSize
  }

  /** The theoretical maximum number of lots: `floor(balance / price / minSize)`. */
  function MaxLots(cfg: TradeConfig, balance: real, price: real): int
    requires cfg.minSize > 0.0 && price != 0.0
  {
    (balance / price / cfg.minSize).Floor
  }

  /** What buying `qty` shares at `price` costs: the fee, and the total
      taken from the balance, shares and fee together. */
  function Costs(fees: CommissionFee, price: real, qty: real): (real, real) {
    var fee := fees.Calculate(price, qty, Buy);
    (fee, price * qty + fee)
  }

  /** The two parts of `Costs`: the buy fee, and the shares' price plus
      that fee. */
  lemma CostsParts(fees: CommissionFee, price: real, qty: real)
    ensures Costs(fees, price, qty).0 == fees.Calculate(price, qty, Buy)
    ensures Costs(fees, price, qty).1 == price * qty + fees.Calculate(price, qty, Buy)
  {
  }

  /** Buying `qty` shares, fee included, costs no more than `balance`. */
  predicate Affordable(fees: CommissionFee, balance: real, price: real, qty: real) {
    Costs(fees, price, qty).1 <= balance
  }

  /** The search from `k` lots downwards: the largest affordable lot count
      in `1..k`, or 0 when none is affordable. */
  function LotsFrom(cfg: TradeConfig, fees: CommissionFee, balance: real, price: real, k: int): (r: int)
    decreases k
    ensures 0 <= r && (r == 0 || r <= k)
  {
    if k < 1 then 0
    else if Affordable(fees, balance, price, Lot(cfg, k)) then k
    else LotsFrom(cfg, fees, balance, price, k - 1)
  }

  /** The search finds an affordable count, and no count between it and its
      starting point is affordable. */
  lemma {:induction false} LotsFromIsLargest(cfg: TradeConfig, fees: CommissionFee, balance: real, price: real, k: int)
    decreases k
    ensures var r := LotsFrom(cfg, fees, balance, price, k);
      && (r > 0 ==> Affordable(fees, balance, price, Lot(cfg, r)))
      && forall j :: r < j <= k ==> !Affordable(fees, balance, price, Lot(cfg, j))
  {
    if k >= 1 && !Affordable(fees, balance, price, Lot(cfg, k)) {
      LotsFromIsLargest(cfg, fees, balance, price, k - 1);
    }
  }

  /** The number of lots a buy commits to. */
  function Lots(cfg: TradeConfig, fees: CommissionFee, balance: real, price: real): int
    requires cfg.minSize > 0.0 && price != 0.0
  {
    LotsFrom(cfg, fees, balance, price, MaxLots(cfg, balance, price))
  }

  /** The loop guard `buyStocks >= MinSize` holds exactly when at least one
      lot is left. */
  lemma LotGuard(cfg: TradeConfig, k: int)
    requires cfg.minSize > 0.0
    ensures (Lot(cfg, k) >= cfg.minSize) == (k >= 1)
  {
    if k >= 1 {
      assert Lot(cfg, k) - cfg.minSize == (k - 1) as real * cfg.minSize;
      assert (k - 1) as real * cfg.minSize >= 0.0;
    } else {
      assert (1 - k) as real * cfg.minSize > 0.0;
    }
  }

  /** Stepping down one lot removes `minSize` shares. */
  lemma LotStep(cfg: TradeConfig, k: int)
    ensures Lot(cfg, k - 1) == Lot(cfg, k) - cfg.minSize
  {
    assert (k - 1) as real == k as real - 1.0;
  }

  /** One round of the search at `k` lots, whose purchase costs `cost`:
      if that exceeds the balance, the search continues one lot lower;
      otherwise it ends at `k`. */
  lemma SearchStep(cfg: TradeConfig, fees: CommissionFee, balance: real, price: real, k: int, qty: real, fee: real, cost: real)
    requires k >= 1 && qty == Lot(cfg, k)
    requires (fee, cost) == Costs(fees, price, qty)
    ensures cost > balance ==> LotsFrom(cfg, fees, balance, price, k - 1) == LotsFrom(cfg, fees, balance, price, k)
    ensures cost <= balance ==> LotsFrom(cfg, fees, balance, price, k) == k
  {
    assert Affordable(fees, balance, price, qty) == (cost <= balance);
  }

  /** No more than the theoretical maximum is ever bought: the shares of
      `k <= MaxLots` lots cost at most the balance before fees. */
  lemma LotWithinBalance(cfg: TradeConfig, balance: real, price: real, k: int)
    requires cfg.minSize > 0.0 && price > 0.0 && k <= MaxLots(cfg, balance, price)
    ensures price * Lot(cfg, k) <= balance
  {
    var m := cfg.minSize;
    var x := balance / price / m;
    assert k as real <= x;
    assert (x - k as real) * m >= 0.0;
    assert x * m == balance / price;
    assert Lot(cfg, k) <= balance / price;
    assert price * (balance / price - Lot(cfg, k)) >= 0.0;
  }

  /** The lot-selection loop: start at the theoretical maximum and step down
      one lot at a time until the lot and its fee fit in the balance. */
  method LargestAffordableLot(cfg: TradeConfig, fees: CommissionFee, balance: real, price: real)
    returns (lots: int, qty: real, fee: real, cost: real)
    requires cfg.minSize > 0.0 && price != 0.0
    ensures lots == Lots(cfg, fees, balance, price)
    ensures qty == Lot(cfg, lots)
    ensures lots > 0 ==> (fee, cost) == Costs(fees, price, qty) && cost <= balance
  {
    var maxHands := MaxLots(cfg, balance, price);
    lots, qty, fee, cost := SearchDown(cfg, fees, balance, price, maxHands);
  }

  /** The loop itself, from `top` lots down to one. */
  method SearchDown(cfg: TradeConfig, fees: CommissionFee, balance: real, price: real, top: int)
    returns (lots: int, qty: real, fee: real, cost: real)
    requires cfg.minSize > 0.0
    ensures lots == LotsFrom(cfg, fees, balance, price, top)
    ensures qty == Lot(cfg, lots)
    ensures lots > 0 ==> (fee, cost) == Costs(fees, price, qty) && cost <= balance
  {
    fee, cost := 0.0, 0.0;
    var buyStocks := Lot(cfg, top);
    lots := top;
    ghost var target := LotsFrom(cfg, fees, balance, price, top);
    while buyStocks >= cfg.minSize
      invariant buyStocks == Lot(cfg, lots)
      invariant LotsFrom(cfg, fees, balance, price, lots) == target
      decreases lots
    {
      LotGuard(cfg, lots);
      qty := buyStocks;
      fee := fees.Calculate(price, qty, Buy);
      cost := price * qty + fee;
      CostsParts(fees, price, qty);
      SearchStep(cfg, fees, balance, price, lots, qty, fee, cost);
      if cost > balance {
        LotStep(cfg, lots);
        buyStocks := buyStocks - cfg.minSize;
        lots := lots - 1;
      } else {
        return;
      }
    }
    LotGuard(cfg, lots);
    lots, qty := 0, 0.0;
  }

  // ---------------------------------------------------------------------
  // Account transitions shared by Outcome and Outcome2
  // ---------------------------------------------------------------------

  /** Cash, shares held, trade counters and fees paid. */
  datatype Position = Position(balance: real, shares: real, buyCount: int, sellCount: int, totalFee: real)

  function Start(cfg: TradeConfig): Position {
    Position(cfg.balance, 0.0, 0, 0, 0.0)
  }

  /** A buy from a flat position: the largest affordable whole lot, or
      nothing when no lot is affordable. */
  function BuyLot(cfg: TradeConfig, fees: CommissionFee, p: Position, price: real): Position
    requires cfg.minSize > 0.0 && price != 0.0
  {
    var k := Lots(cfg, fees, p.balance, price);
    if k == 0 then p
    else
      var qty := Lot(cfg, k);
      var c := Costs(fees, price, qty);
      p.(balance := p.balance - c.1, shares := p.shares + qty,
         buyCount := p.buyCount + 1, totalFee := p.totalFee + c.0)
  }

  /** `BuyLot` in terms of what the lot-selection loop returns. */
  lemma BuyLotOfLoop(cfg: TradeConfig, fees: CommissionFee, p: Position, price: real, lots: int, qty: real, fee: real, cost: real)
    requires cfg.minSize > 0.0 && price != 0.0
    requires lots == Lots(cfg, fees, p.balance, price) && qty == Lot(cfg, lots)
    requires lots > 0 ==> (fee, cost) == Costs(fees, price, qty)
    ensures BuyLot(cfg, fees, p, price) ==
      if lots == 0 then p
      else p.(balance := p.balance - cost, shares := p.shares + qty, buyCount := p.buyCount + 1, totalFee := p.totalFee + fee)
  {
  }

  /** A sale of the whole position at `price`, net of its fee. */
  function Liquidate(fees: CommissionFee, p: Position, price: real): Position {
    var fee := fees.Calculate(price, p.shares, Sell);
    p.(balance := p.balance + (price * p.shares - fee), shares := 0.0,
       sellCount := p.sellCount + 1, totalFee := p.totalFee + fee)
  }

  /** The normalised return: cash plus holdings at `price`, relative to the
      starting balance. */
  function Equity(cfg: TradeConfig, p: Position, price: real): real
    requires cfg.Usable()
  {
    (p.balance + p.shares * price - cfg.balance) / cfg.balance
  }

  // ---------------------------------------------------------------------
  // Outcome: snapshots, with the same-day sell rule
  // ---------------------------------------------------------------------

  /** The account of `Outcome`: a position and the date of the last buy. */
  datatype Ledger = Ledger(position: Position, lastBuyDate: Time)

  /** One step of `Outcome`. A sell is refused when the snapshot's day of
      the month equals that of the last buy, whatever month it is in. */
  function SnapshotStep(cfg: TradeConfig, fees: CommissionFee, l: Ledger, s: Snapshot, action: Action): Ledger
    requires cfg.minSize > 0.0 && (action == Buy ==> s.close != 0.0)
  {
    match action
    case Buy =>
      if l.position.shares != 0.0 || Lots(cfg, fees, l.position.balance, s.close) == 0 then l
      else Ledger(BuyLot(cfg, fees, l.position, s.close), s.date)
    case Sell =>
      if l.position.shares > 0.0 && s.date.Day() != l.lastBuyDate.Day()
      then l.(position := Liquidate(fees, l.position, s.close))
      else l
    case Hold => l
  }

  /** The inputs `Outcome` can replay: paired, with a nonzero close on every
      buy. */
  predicate SnapshotInputs(cfg: TradeConfig, values: seq<Snapshot>, actions: seq<Action>) {
    cfg.Usable() && |values| == |actions| &&
    forall i :: 0 <= i < |values| ==> actions[i] == Buy ==> values[i].close != 0.0
  }

  /** The account after the first `n` steps. */
  function LedgerAfter(cfg: TradeConfig, fees: CommissionFee, values: seq<Snapshot>, actions: seq<Action>, n: nat): Ledger
    requires SnapshotInputs(cfg, values, actions) && n <= |values|
  {
    if n == 0 then Ledger(Start(cfg), ZeroTime)
    else SnapshotStep(cfg, fees, LedgerAfter(cfg, fees, values, actions, n - 1), values[n - 1], actions[n - 1])
  }

  /** The first `n` outputs of `Outcome`. */
  function Curve(cfg: TradeConfig, fees: CommissionFee, values: seq<Snapshot>, actions: seq<Action>, n: nat): seq<real>
    requires SnapshotInputs(cfg, values, actions) && n <= |values|
  {
    if n == 0 then []
    else
      Curve(cfg, fees, values, actions, n - 1) +
      [Equity(cfg, LedgerAfter(cfg, fees, values, actions, n).position, values[n - 1].close)]
  }

  /** The simulator of `Outcome`, one per run. */
  class Backtest {
    const config: TradeConfig
    const fees: CommissionFee
    var balance: real
    var shares: real
    var buyCount: int
    var sellCount: int
    var totalFee: real
    var lastBuyDate: Time

    function State(): Ledger
      reads this
    {
      Ledger(Position(balance, shares, buyCount, sellCount, totalFee), lastBuyDate)
    }

    constructor (config: TradeConfig, fees: CommissionFee)
      ensures this.config == config && this.fees == fees
      ensures State() == Ledger(Start(config), ZeroTime)
    {
      this.config := config;
      this.fees := fees;
      balance := config.balance;
      shares := 0.0;
      buyCount, sellCount := 0, 0;
      totalFee := 0.0;
      lastBuyDate := ZeroTime;
    }

    /** Applies one (snapshot, action) pair and returns the step's return. */
    method Step(value: Snapshot, action: Action) returns (outcome: real)
      requires config.Usable() && (action == Buy ==> value.close != 0.0)
      modifies this
      ensures State() == SnapshotStep(config, fees, old(State()), value, action)
      ensures outcome == Equity(config, State().position, value.close)
    {
      match action {
        case Buy => Purchase(value);
        case Sell => Sale(value);
        case Hold =>
      }
      outcome := Equity(config, State().position, value.close);
    }

    /** The buy branch: only from a flat position, the largest affordable
        whole lot, dated by the snapshot. */
    method Purchase(value: Snapshot)
      requires config.minSize > 0.0 && value.close != 0.0
      modifies this
      ensures State() == SnapshotStep(config, fees, old(State()), value, Buy)
    {
      if shares != 0.0 {
        return;
      }
      var lots, buyStocks, fee, cost := LargestAffordableLot(config, fees, balance, value.close);
      BuyLotOfLoop(config, fees, State().position, value.close, lots, buyStocks, fee, cost);
      assert SnapshotStep(config, fees, State(), value, Buy) ==
        if lots == 0 then State() else Ledger(BuyLot(config, fees, State().position, value.close), value.date);
      if lots > 0 {
        balance := balance - cost;
        shares := shares + buyStocks;
        buyCount := buyCount + 1;
        totalFee := totalFee + fee;
        lastBuyDate := value.date;
      }
    }

    /** The sell branch: the whole position, unless its day of the month is
        that of the last buy. */
    method Sale(value: Snapshot)
      requires config.minSize > 0.0
      modifies this
      ensures State() == SnapshotStep(config, fees, old(State()), value, Sell)
    {
      if shares > 0.0 && value.date.Day() != lastBuyDate.Day() {
        var fee := fees.Calculate(value.close, shares, Sell);
        var cost := value.close * shares - fee;
        balance := balance + cost;
        shares := 0.0;
        sellCount := sellCount + 1;
        totalFee := totalFee + fee;
      }
    }
  }

  /** `Outcome`: replays the paired inputs on a fresh simulator and collects
      one return per step. */
  method Outcome(config: TradeConfig, fees: CommissionFee, values: seq<Snapshot>, actions: seq<Action>)
    returns (outcomes: seq<real>)
    requires SnapshotInputs(config, values, actions)
    ensures outcomes == Curve(config, fees, values, actions, |values|)
  {
    var run := new Backtest(config, fees);
    outcomes := [];
    for i := 0 to |values|
      invariant run.State() == LedgerAfter(config, fees, values, actions, i)
      invariant outcomes == Curve(config, fees, values, actions, i)
    {
      var outcome := run.Step(values[i], actions[i]);
      outcomes := outcomes + [outcome];
    }
  }

  /** Every input pair yields exactly one output: the return after that
      step, marked to market at that step's close. */
  lemma {:induction false} CurveShape(cfg: TradeConfig, fees: CommissionFee, values: seq<Snapshot>, actions: seq<Action>, n: nat)
    requires SnapshotInputs(cfg, values, actions) && n <= |values|
    ensures |Curve(cfg, fees, values, actions, n)| == n
    ensures forall k :: 0 <= k < n ==>
      Curve(cfg, fees, values, actions, n)[k] ==
      Equity(cfg, LedgerAfter(cfg, fees, values, actions, k + 1).position, values[k].close)
    decreases n
  {
    if n > 0 {
      CurveShape(cfg, fees, values, actions, n - 1);
    }
  }

  /** A buy while holding shares changes nothing. */
  lemma BuyWhileHoldingIsNoOp(cfg: TradeConfig, fees: CommissionFee, l: Ledger, s: Snapshot)
    requires cfg.minSize > 0.0 && s.close != 0.0 && l.position.shares != 0.0
    ensures SnapshotStep(cfg, fees, l, s, Buy) == l
  {
  }

  /** The lot count a buy commits to is the largest `k` in
      `1..MaxLots` whose shares and fee fit the balance; its shares alone
      never exceed the balance; it is 0 exactly when no such `k` exists. */
  lemma LargestAffordable(cfg: TradeConfig, fees: CommissionFee, balance: real, price: real)
    requires cfg.minSize > 0.0 && price > 0.0
    ensures var k, top := Lots(cfg, fees, balance, price), MaxLots(cfg, balance, price);
      && (k > 0 ==>
            && 1 <= k <= top
            && Affordable(fees, balance, price, Lot(cfg, k))
            && price * Lot(cfg, k) <= balance
            && forall j :: k < j <= top ==> !Affordable(fees, balance, price, Lot(cfg, j)))
      && (k == 0 <==> forall j :: 1 <= j <= top ==> !Affordable(fees, balance, price, Lot(cfg, j)))
  {
    var k := Lots(cfg, fees, balance, price);
    LotsFromIsLargest(cfg, fees, balance, price, MaxLots(cfg, balance, price));
    if k > 0 {
      LotWithinBalance(cfg, balance, price, k);
    }
  }

  /** A buy from a flat position that finds an affordable lot pays exactly
      the lot's price and fee, never overdraws, adds the lot to the shares,
      counts the buy and records its date. When no lot is affordable,
      nothing changes. */
  lemma BuyFromFlat(cfg: TradeConfig, fees: CommissionFee, l: Ledger, s: Snapshot)
    requires cfg.minSize > 0.0 && s.close != 0.0 && l.position.shares == 0.0
    ensures var p, k := l.position, Lots(cfg, fees, l.position.balance, s.close);
      var qty, after := Lot(cfg, k), SnapshotStep(cfg, fees, l, s, Buy);
      var fee := fees.Calculate(s.close, qty, Buy);
      && (k == 0 ==> after == l)
      && (k > 0 ==>
            && after.position.balance == p.balance - (s.close * qty + fee)
            && after.position.balance >= 0.0
            && after.position.shares == qty
            && after.position.buyCount == p.buyCount + 1
            && after.position.sellCount == p.sellCount
            && after.position.totalFee == p.totalFee + fee
            && after.lastBuyDate == s.date)
  {
    var p, k := l.position, Lots(cfg, fees, l.position.balance, s.close);
    PriceBuyFromFlat(cfg, fees, p, s.close);
    if k > 0 {
      assert SnapshotStep(cfg, fees, l, s, Buy) == Ledger(PriceStep(cfg, fees, p, s.close, Buy), s.date);
    }
  }

  /** A sell of a held position on another day of the month liquidates it
      net of the sell fee; on the same day of the month, or when flat, it
      changes nothing. */
  lemma SellRules(cfg: TradeConfig, fees: CommissionFee, l: Ledger, s: Snapshot)
    requires cfg.minSize > 0.0
    ensures var p, after := l.position, SnapshotStep(cfg, fees, l, s, Sell);
      var fee := fees.Calculate(s.close, p.shares, Sell);
      && (p.shares > 0.0 && s.date.Day() != l.lastBuyDate.Day() ==>
            && after.position.balance == p.balance + (s.close * p.shares - fee)
            && after.position.shares == 0.0
            && after.position.sellCount == p.sellCount + 1
            && after.position.buyCount == p.buyCount
            && after.position.totalFee == p.totalFee + fee
            && after.lastBuyDate == l.lastBuyDate)
      && (s.date.Day() == l.lastBuyDate.Day() ==> after == l)
      && (p.shares <= 0.0 ==> after == l)
  {
  }

  /** A buy followed by a sale at the same price on another day of the
      month returns the position to cash, poorer by exactly the two fees. */
  lemma RoundTripCostsTheFees(cfg: TradeConfig, fees: CommissionFee, l: Ledger, s1: Snapshot, s2: Snapshot)
    requires cfg.minSize > 0.0 && s1.close != 0.0 && s2.close == s1.close
    requires l.position.shares == 0.0 && Lots(cfg, fees, l.position.balance, s1.close) > 0
    requires s2.date.Day() != s1.date.Day()
    ensures var after := SnapshotStep(cfg, fees, SnapshotStep(cfg, fees, l, s1, Buy), s2, Sell);
      && after.position.shares == 0.0
      && after.position.balance == l.position.balance - (after.position.totalFee - l.position.totalFee)
  {
    var mid := SnapshotStep(cfg, fees, l, s1, Buy);
    var qty := Lot(cfg, Lots(cfg, fees, l.position.balance, s1.close));
    assert mid.position.shares == qty > 0.0 by {
      LotGuard(cfg, Lots(cfg, fees, l.position.balance, s1.close));
    }
    assert mid.lastBuyDate == s1.date;
  }

  /** The default configuration on prices 10, 10, 10 with Buy, Hold, Sell on
      three different days: nine lots are bought (ten would cost 10015), and
      the run ends flat, poorer by the two fees 14 and 18.5. */
  lemma EndToEndExample()
    ensures var values := [Snapshot(Time(86400, 2), 10.0, 10.0, 10.0, 10.0, 0.0),
                           Snapshot(Time(172800, 3), 10.0, 10.0, 10.0, 10.0, 0.0),
                           Snapshot(Time(259200, 4), 10.0, 10.0, 10.0, 10.0, 0.0)];
      var actions := [Buy, Hold, Sell];
      var end := LedgerAfter(DefaultTradeConfig, DefaultFee, values, actions, 3).position;
      && end == Position(9967.5, 0.0, 1, 1, 32.5)
      && Curve(DefaultTradeConfig, DefaultFee, values, actions, 3) == [-0.0014, -0.0014, -0.00325]
  {
    var cfg, fees := DefaultTradeConfig, DefaultFee;
    assert MaxLots(cfg, 10000.0, 10.0) == 10;
    assert !Affordable(fees, 10000.0, 10.0, Lot(cfg, 10));
    assert Affordable(fees, 10000.0, 10.0, Lot(cfg, 9));
    assert Lots(cfg, fees, 10000.0, 10.0) == 9;
    assert fees.Calculate(10.0, 900.0, Buy) == 14.0;
    assert fees.Calculate(10.0, 900.0, Sell) == 18.5;
  }

  /** The same-day rule compares days of the month only: a sale one month
      after the buy, on the same day of the month, is refused. */
  lemma SaleAMonthLaterIsRefused()
    ensures var values := [Snapshot(Time(86400 * 4, 5), 10.0, 10.0, 10.0, 10.0, 0.0),
                           Snapshot(Time(86400 * 35, 5), 10.0, 10.0, 10.0, 10.0, 0.0)];
      var actions := [Buy, Sell];
      var afterBuy := LedgerAfter(DefaultTradeConfig, DefaultFee, values, actions, 1);
      && afterBuy.position.shares == 900.0
      && LedgerAfter(DefaultTradeConfig, DefaultFee, values, actions, 2) == afterBuy
  {
    var cfg, fees := DefaultTradeConfig, DefaultFee;
    assert MaxLots(cfg, 10000.0, 10.0) == 10;
    assert !Affordable(fees, 10000.0, 10.0, Lot(cfg, 10));
    assert Affordable(fees, 10000.0, 10.0, Lot(cfg, 9));
  }

  /** Cash is not always positive while flat: a one-lot buy that spends the
      whole balance, followed by a sale whose fee exceeds its proceeds,
      leaves negative cash and no shares. */
  lemma CashCanTurnNegative()
    ensures var cfg := TradeConfig(1006.0, 100.0);
      var values := [Snapshot(Time(86400, 2), 10.0, 10.0, 10.0, 10.0, 0.0),
                     Snapshot(Time(172800, 3), 0.01, 0.01, 0.01, 0.01, 0.0)];
      var end := LedgerAfter(cfg, DefaultFee, values, [Buy, Sell], 2).position;
      end.balance < 0.0 && end.shares == 0.0
  {
    var cfg, fees := TradeConfig(1006.0, 100.0), DefaultFee;
    assert MaxLots(cfg, 1006.0, 10.0) == 1;
    assert Affordable(fees, 1006.0, 10.0, Lot(cfg, 1));
    assert Lots(cfg, fees, 1006.0, 10.0) == 1;
    assert fees.Calculate(0.01, 100.0, Sell) == 5.0015;
  }

  // ---------------------------------------------------------------------
  // Outcome2: bare prices, no date rule
  // ---------------------------------------------------------------------

  /** One step of `Outcome2`. */
  function PriceStep(cfg: TradeConfig, fees: CommissionFee, p: Position, price: real, action: Action): Position
    requires cfg.minSize > 0.0 && (action == Buy ==> price != 0.0)
  {
    match action
    case Buy => if p.shares != 0.0 then p else BuyLot(cfg, fees, p, price)
    case Sell => if p.shares > 0.0 then Liquidate(fees, p, price) else p
    case Hold => p
  }

  /** The inputs `Outcome2` can replay. */
  predicate PriceInputs(cfg: TradeConfig, values: seq<real>, actions: seq<Action>) {
    cfg.Usable() && |values| == |actions| &&
    forall i :: 0 <= i < |values| ==> actions[i] == Buy ==> values[i] != 0.0
  }

  function PositionAfter(cfg: TradeConfig, fees: CommissionFee, values: seq<real>, actions: seq<Action>, n: nat): Position
    requires PriceInputs(cfg, values, actions) && n <= |values|
  {
    if n == 0 then Start(cfg)
    else PriceStep(cfg, fees, PositionAfter(cfg, fees, values, actions, n - 1), values[n - 1], actions[n - 1])
  }

  function PriceCurve(cfg: TradeConfig, fees: CommissionFee, values: seq<real>, actions: seq<Action>, n: nat): seq<real>
    requires PriceInputs(cfg, values, actions) && n <= |values|
  {
    if n == 0 then []
    else
      PriceCurve(cfg, fees, values, actions, n - 1) +
      [Equity(cfg, PositionAfter(cfg, fees, values, actions, n), values[n - 1])]
  }

  /** The simulator of `Outcome2`, one per run. */
  class PriceBacktest {
    const config: TradeConfig
    const fees: CommissionFee
    var balance: real
    var shares: real
    var buyCount: int
    var sellCount: int
    var totalFee: real

    function State(): Position
      reads this
    {
      Position(balance, shares, buyCount, sellCount, totalFee)
    }

    constructor (config: TradeConfig, fees: CommissionFee)
      ensures this.config == config && this.fees == fees
      ensures State() == Start(config)
    {
      this.config := config;
      this.fees := fees;
      balance := config.balance;
      shares := 0.0;
      buyCount, sellCount := 0, 0;
      totalFee := 0.0;
    }

    /** Applies one (price, action) pair and returns the step's return. */
    method Step(value: real, action: Action) returns (outcome: real)
      requires config.Usable() && (action == Buy ==> value != 0.0)
      modifies this
      ensures State() == PriceStep(config, fees, old(State()), value, action)
      ensures outcome == Equity(config, State(), value)
    {
      match action {
        case Buy => Purchase(value);
        case Sell => Sale(value);
        case Hold =>
      }
      outcome := Equity(config, State(), value);
    }

    /** The buy branch: only from a flat position, the largest affordable
        whole lot. */
    method Purchase(value: real)
      requires config.minSize > 0.0 && value != 0.0
      modifies this
      ensures State() == PriceStep(config, fees, old(State()), value, Buy)
    {
      if shares != 0.0 {
        return;
      }
      var lots, buyStocks, fee, cost := LargestAffordableLot(config, fees, balance, value);
      BuyLotOfLoop(config, fees, State(), value, lots, buyStocks, fee, cost);
      if lots > 0 {
        balance := balance - cost;
        shares := shares + buyStocks;
        buyCount := buyCount + 1;
        totalFee := totalFee + fee;
      }
    }

    /** The sell branch: the whole position, whenever shares are held. */
    method Sale(value: real)
      requires config.minSize > 0.0
      modifies this
      ensures State() == PriceStep(config, fees, old(State()), value, Sell)
    {
      if shares > 0.0 {
        var fee := fees.Calculate(value, shares, Sell);
        var cost := value * shares - fee;
        balance := balance + cost;
        shares := 0.0;
        sellCount := sellCount + 1;
        totalFee := totalFee + fee;
      }
    }
  }

  /** `Outcome2` */
  method Outcome2(config: TradeConfig, fees: CommissionFee, values: seq<real>, actions: seq<Action>)
    returns (outcomes: seq<real>)
    requires PriceInputs(config, values, actions)
    ensures outcomes == PriceCurve(config, fees, values, actions, |values|)
  {
    var run := new PriceBacktest(config, fees);
    outcomes := [];
    for i := 0 to |values|
      invariant run.State() == PositionAfter(config, fees, values, actions, i)
      invariant outcomes == PriceCurve(config, fees, values, actions, i)
    {
      var outcome := run.Step(values[i], actions[i]);
      outcomes := outcomes + [outcome];
    }
  }

  /** One output per input pair, the return after that step. */
  lemma {:induction false} PriceCurveShape(cfg: TradeConfig, fees: CommissionFee, values: seq<real>, actions: seq<Action>, n: nat)
    requires PriceInputs(cfg, values, actions) && n <= |values|
    ensures |PriceCurve(cfg, fees, values, actions, n)| == n
    ensures forall k :: 0 <= k < n ==>
      PriceCurve(cfg, fees, values, actions, n)[k] ==
      Equity(cfg, PositionAfter(cfg, fees, values, actions, k + 1), values[k])
    decreases n
  {
    if n > 0 {
      PriceCurveShape(cfg, fees, values, actions, n - 1);
    }
  }

  /** Without the date rule, a sale always liquidates a held position, even
      on the step right after the buy; a buy while holding changes nothing. */
  lemma PriceStepRules(cfg: TradeConfig, fees: CommissionFee, p: Position, price: real)
    requires cfg.minSize > 0.0 && price != 0.0
    ensures p.shares > 0.0 ==> PriceStep(cfg, fees, p, price, Sell) == Liquidate(fees, p, price)
    ensures p.shares <= 0.0 ==> PriceStep(cfg, fees, p, price, Sell) == p
    ensures p.shares != 0.0 ==> PriceStep(cfg, fees, p, price, Buy) == p
    ensures p.shares == 0.0 ==> PriceStep(cfg, fees, p, price, Buy).balance >= 0.0 || PriceStep(cfg, fees, p, price, Buy) == p
  {
    LotsFromIsLargest(cfg, fees, p.balance, price, MaxLots(cfg, p.balance, price));
  }

  /** A buy of `Outcome2` from a flat position pays exactly the lot's price
      and fee, never overdraws, adds the lot to the shares and counts the
      buy; when no lot is affordable, nothing changes. */
  lemma PriceBuyFromFlat(cfg: TradeConfig, fees: CommissionFee, p: Position, price: real)
    requires cfg.minSize > 0.0 && price != 0.0 && p.shares == 0.0
    ensures var k := Lots(cfg, fees, p.balance, price);
      var qty, after := Lot(cfg, k), PriceStep(cfg, fees, p, price, Buy);
      var fee := fees.Calculate(price, qty, Buy);
      && (k == 0 ==> after == p)
      && (k > 0 ==>
            && after.balance == p.balance - (price * qty + fee)
            && after.balance >= 0.0
            && after.shares == qty
            && after.buyCount == p.buyCount + 1
            && after.sellCount == p.sellCount
            && after.totalFee == p.totalFee + fee)
  {
    var k := Lots(cfg, fees, p.balance, price);
    if k > 0 {
      var qty := Lot(cfg, k);
      CostsParts(fees, price, qty);
      assert Affordable(fees, p.balance, price, qty) by {
        LotsFromIsLargest(cfg, fees, p.balance, price, MaxLots(cfg, p.balance, price));
      }
      assert PriceStep(cfg, fees, p, price, Buy) == BuyLot(cfg, fees, p, price);
    }
  }

  // ---------------------------------------------------------------------
  // Outcome1: all-in, fee-free, starting from a balance of 1
  // ---------------------------------------------------------------------

  /** The account of `Outcome1`. */
  datatype Holding = Holding(balance: real, shares: real)

  /** One step of `Outcome1`: a buy puts all cash into shares, a sale turns
      all shares back into cash. */
  function AllInStep(h: Holding, value: real, action: Action): Holding
    requires action == Buy ==> value != 0.0
  {
    if h.balance > 0.0 && action == Buy then Holding(0.0, h.balance / value)
    else if h.shares > 0.0 && action == Sell then Holding(h.shares * value, 0.0)
    else h
  }

  /** The return of `Outcome1`: holdings at `value`, minus the unit stake. */
  function AllInReturn(h: Holding, value: real): real {
    h.balance + h.shares * value - 1.0
  }

  predicate AllInInputs(values: seq<real>, actions: seq<Action>) {
    |values| == |actions| &&
    forall i :: 0 <= i < |values| ==> actions[i] == Buy ==> values[i] != 0.0
  }

  function HoldingAfter(values: seq<real>, actions: seq<Action>, n: nat): Holding
    requires AllInInputs(values, actions) && n <= |values|
  {
    if n == 0 then Holding(1.0, 0.0)
    else AllInStep(HoldingAfter(values, actions, n - 1), values[n - 1], actions[n - 1])
  }

  function AllInCurve(values: seq<real>, actions: seq<Action>, n: nat): seq<real>
    requires AllInInputs(values, actions) && n <= |values|
  {
    if n == 0 then []
    else AllInCurve(values, actions, n - 1) + [AllInReturn(HoldingAfter(values, actions, n), values[n - 1])]
  }

  /** The simulator of `Outcome1`, one per run. */
  class AllInBacktest {
    var balance: real
    var shares: real

    function State(): Holding
      reads this
    {
      Holding(balance, shares)
    }

    constructor ()
      ensures State() == Holding(1.0, 0.0)
    {
      balance, shares := 1.0, 0.0;
    }

    method Step(value: real, action: Action) returns (outcome: real)
      requires action == Buy ==> value != 0.0
      modifies this
      ensures State() == AllInStep(old(State()), value, action)
      ensures outcome == AllInReturn(State(), value)
    {
      if balance > 0.0 && action == Buy {
        shares := balance / value;
        balance := 0.0;
      } else if shares > 0.0 && action == Sell {
        balance := shares * value;
        shares := 0.0;
      }
      outcome := balance + shares * value - 1.0;
    }
  }

  /** `Outcome1` */
  method Outcome1(values: seq<real>, actions: seq<Action>) returns (outcomes: seq<real>)
    requires AllInInputs(values, actions)
    ensures outcomes == AllInCurve(values, actions, |values|)
  {
    var run := new AllInBacktest();
    outcomes := [];
    for i := 0 to |values|
      invariant run.State() == HoldingAfter(values, actions, i)
      invariant outcomes == AllInCurve(values, actions, i)
    {
      var outcome := run.Step(values[i], actions[i]);
      outcomes := outcomes + [outcome];
    }
  }

  /** One output per input pair, the return after that step. */
  lemma {:induction false} AllInCurveShape(values: seq<real>, actions: seq<Action>, n: nat)
    requires AllInInputs(values, actions) && n <= |values|
    ensures |AllInCurve(values, actions, n)| == n
    ensures forall k :: 0 <= k < n ==>
      AllInCurve(values, actions, n)[k] ==
      AllInReturn(HoldingAfter(values, actions, k + 1), values[k])
    decreases n
  {
    if n > 0 {
      AllInCurveShape(values, actions, n - 1);
    }
  }

  /** The run is always fully in cash or fully in shares, never both; with
      positive prices neither side is ever negative. */
  lemma {:induction false} AllInNeverSplit(values: seq<real>, actions: seq<Action>, n: nat)
    requires AllInInputs(values, actions) && n <= |values|
    ensures HoldingAfter(values, actions, n).balance * HoldingAfter(values, actions, n).shares == 0.0
    ensures (forall i :: 0 <= i < n ==> values[i] > 0.0) ==>
      HoldingAfter(values, actions, n).balance >= 0.0 && HoldingAfter(values, actions, n).shares >= 0.0
    decreases n
  {
    if n > 0 {
      AllInNeverSplit(values, actions, n - 1);
      var h := HoldingAfter(values, actions, n - 1);
      if (forall i :: 0 <= i < n ==> values[i] > 0.0) && h.shares > 0.0 {
        assert h.shares * values[n - 1] > 0.0;
      }
    }
  }
}
