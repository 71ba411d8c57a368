/** The accounting pot as an object, its methods proved against the functions of `Pot`. */
module AccountingPots {
  import opened Common
  import opened CostBasisCalculator
  import opened SwapPricing
  import opened Pot

  class AccountingPot {
    var cfg: PotConfig
    const calculator: Calculator
    var pnls: map<EventType, PNL>
    var processed: seq<ProcessedEvent>
    var queries: nat

    ghost predicate Valid()
      reads this, calculator
    {
      calculator.settings == cfg.costs
    }

    function State(): PotState
      reads this, calculator
    {
      PotState(calculator.State(), pnls, processed, queries)
    }

    constructor (cfg: PotConfig)
      ensures Valid() && this.cfg == cfg && State() == EMPTY_POT && fresh(calculator)
    {
      this.cfg := cfg;
      calculator := new Calculator(cfg.costs);
      pnls, processed, queries := map[], [], 0;
    }

    /** Forgets the previous report and takes the settings of the next one. */
    method Reset(cfg: PotConfig)
      modifies this, calculator
      ensures Valid() && this.cfg == cfg && State() == EMPTY_POT
    {
      this.cfg := cfg;
      pnls, processed, queries := map[], [], 0;
      calculator.Reset(cfg.costs);
    }

    method GetRateInProfitCurrency(asset: Asset, now: Timestamp) returns (reply: PriceReply)
      requires Valid()
      modifies this
      ensures Valid() && cfg == old(cfg)
      ensures reply == Asked(cfg, old(State()), asset, now) && State() == AfterAsking(cfg, old(State()), asset)
    {
      if asset == cfg.profitCurrency {
        return Rate(1.0);
      }
      reply := cfg.price(queries, asset, now);
      queries := queries + 1;
    }

    method AddProcessedEvent(e: ProcessedEvent, pnl: PNL, counts: bool)
      modifies this
      ensures cfg == old(cfg) && State() == Record(old(State()), e, pnl, counts)
    {
      if counts {
        pnls := pnls[e.kind := TotalOf(pnls, e.kind).Add(pnl)];
      }
      processed := processed + [e.(pnl := if counts then pnl else NO_PNL)];
    }

    method HandlePreforkAcquisitions(a: In, price: real)
      requires Valid()
      modifies this, calculator
      ensures Valid() && cfg == old(cfg)
      ensures State() == AddPreforks(cfg, old(State()), PreforkAssets(a.asset, a.timestamp), a, price)
    {
      var forks := PreforkAssets(a.asset, a.timestamp);
      var i := 0;
      while i < |forks|
        invariant 0 <= i <= |forks| && Valid() && cfg == old(cfg)
        invariant AddPreforks(cfg, old(State()), forks, a, price) == AddPreforks(cfg, State(), forks[i..], a, price)
      {
        assert forks[i..][1..] == forks[i + 1..];
        if forks[i] !in cfg.ignored {
          var e := ProcessedEvent(PreforkAcquisition, a.timestamp, forks[i], a.amount, 0.0, price, NO_PNL, |processed|);
          AddProcessedEvent(e, NO_PNL, false);
          calculator.ObtainAsset(forks[i], a.amount, a.timestamp, price, e.index);
        }
        i := i + 1;
      }
    }

    method AddInEvent(a: In) returns (error: Option<Error>)
      requires Valid()
      modifies this, calculator
      ensures Valid() && cfg == old(cfg)
      ensures State() == AddIn(cfg, old(State()), a).state && error == AddIn(cfg, old(State()), a).error
    {
      if a.amount == 0.0 {
        return None;
      }
      var price;
      if a.given.Some? {
        price := a.given.value;
      } else {
        var reply := GetRateInProfitCurrency(a.asset, a.timestamp);
        match reply {
          case Rate(p) => price := p;
          case Fails(e) =>
            if !(e.PriceQueryUnsupportedAsset? || e.RemoteError? || e == NoPriceForGivenTimestamp(false)) {
              return Some(e);
            }
            price := 0.0;
        }
      }
      HandlePreforkAcquisitions(a, price);
      var taxable, free := if a.taxable then a.amount else 0.0, if a.taxable then 0.0 else a.amount;
      var e := ProcessedEvent(a.kind, a.timestamp, a.asset, taxable, free, price, NO_PNL, |processed|);
      calculator.ObtainAsset(a.asset, taxable + free, a.timestamp, price, e.index);
      var pnl := CalculatePnl(e, None, a.asset in cfg.fiats, false, true);
      AddProcessedEvent(e, pnl, a.timestamp >= cfg.startTs && a.taxable);
      return None;
    }

    method HandlePreforkSpends(asset: Asset, amount: real, now: Timestamp) returns (error: Option<Error>)
      requires Valid()
      modifies calculator
      ensures Valid()
      ensures var r := ReducePreforks(cfg, old(State()).cost, PreforkSpends(asset, now), amount, now);
              State() == old(State()).(cost := r.state) && error == r.error
    {
      var forks := PreforkSpends(asset, now);
      var i := 0;
      while i < |forks|
        invariant 0 <= i <= |forks| && Valid()
        invariant ReducePreforks(cfg, old(State()).cost, forks, amount, now)
               == ReducePreforks(cfg, State().cost, forks[i..], amount, now)
      {
        assert forks[i..][1..] == forks[i + 1..];
        var _, e := calculator.ReduceAssetAmount(forks[i] in cfg.fiats, forks[i], amount, now);
        if e.Some? {
          return e;
        }
        i := i + 1;
      }
      return None;
    }

    method SpendAtPrice(a: Out, price: real) returns (free: real, taxable: real, error: Option<Error>)
      requires Valid()
      modifies this, calculator
      ensures Valid() && cfg == old(cfg)
      ensures PotResult(State(), free, taxable, error) == OutAtPrice(cfg, old(State()), a, price)
    {
      hide OutPnl, Spend, OutEvent;
      free, taxable, error := 0.0, 0.0, None;
      var info := None;
      if OutBasis(a) {
        info, error := calculator.SpendAsset(a.asset in cfg.fiats, a.asset, a.amount, a.timestamp, OutTaxable(cfg, a));
        if error.Some? {
          return;
        }
      }
      var e := OutEvent(a, info, price, |processed|);
      AddProcessedEvent(e, OutPnl(cfg, a, e, info), OutCounts(cfg, a));
      free, taxable := e.free, e.taxable;
    }

    method AddOutEvent(a: Out) returns (free: real, taxable: real, error: Option<Error>)
      requires Valid()
      modifies this, calculator
      ensures Valid() && cfg == old(cfg)
      ensures PotResult(State(), free, taxable, error) == AddOut(cfg, old(State()), a)
    {
      hide OutAtPrice, ReducePreforks, PreforkSpends;
      free, taxable, error := 0.0, 0.0, None;
      if a.amount == 0.0 {
        return;
      }
      error := HandlePreforkSpends(a.asset, a.amount, a.timestamp);
      if error.Some? {
        return;
      }
      var price;
      if a.given.Some? {
        price := a.given.value;
      } else {
        var reply := GetRateInProfitCurrency(a.asset, a.timestamp);
        if reply.Fails? {
          return free, taxable, Some(reply.error);
        }
        price := reply.price;
      }
      free, taxable, error := SpendAtPrice(a, price);
    }

    method GetPricesForSwap(now: Timestamp, amountIn: real, assetIn: Asset, amountOut: real, assetOut: Asset,
                            fee: Option<(real, Asset)>) returns (prices: SwapPrices)
      requires Valid()
      modifies this
      ensures Valid() && cfg == old(cfg)
      ensures (prices, State()) == PotSwapPrices(cfg, old(State()), now, amountIn, assetIn, amountOut, assetOut, fee)
    {
      hide PricesForSwap;
      if amountIn == 0.0 || amountOut == 0.0 {
        return NoPrices;
      }
      var outReply := GetRateInProfitCurrency(assetOut, now);
      var inReply, feeReply := Rate(0.0), Rate(0.0);
      if !LegRaises(outReply, false) {
        inReply := GetRateInProfitCurrency(assetIn, now);
        if fee.Some? && cfg.includeFees && !LegRaises(inReply, outReply.Fails?) {
          feeReply := GetRateInProfitCurrency(fee.value.1, now);
        }
      }
      prices := PricesForSwap(Exact(),
        Swap(amountIn, assetIn in cfg.fiats, inReply, amountOut, assetOut in cfg.fiats, outReply,
             if fee.Some? then Some(fee.value.0) else None, cfg.includeFees, feeReply));
    }

    /** `PnlTotals.taxable` and `PnlTotals.free`: the loop over all totals. */
    method OverallPnl() returns (overall: PNL)
      ensures overall == Overall(pnls)
    {
      var left := pnls;
      var taxable, free := 0.0, 0.0;
      OverallNothing();
      while left != map[]
        invariant left.Keys <= pnls.Keys && forall k :: k in left ==> left[k] == pnls[k]
        invariant PNL(free, taxable).Add(Overall(left)) == Overall(pnls)
        decreases |left|
      {
        var k :| k in left;
        OverallWithout(left, k);
        taxable, free := taxable + left[k].taxable, free + left[k].free;
        assert (left - {k}).Keys == left.Keys - {k};
        left := left - {k};
      }
      overall := PNL(free, taxable);
    }
  }
}
