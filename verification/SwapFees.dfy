/** What the order inside a swap does to a fee paid in the acquired asset: whether the lots the swap
    itself brings in can pay for it. */
module SwapFees {
  import opened Common
  import opened CostBasis
  import opened CostBasisCalculator
  import opened SwapPricing
  import opened Pot
  import opened Events
  import opened EventsAccounting

  /** The amounts reported as missing for an asset, in order. */
  function Shortfalls(missing: seq<MissingAcquisition>, asset: Asset): seq<real> {
    if missing == [] then []
    else
      var last := missing[|missing| - 1];
      Shortfalls(missing[..|missing| - 1], asset) + if last.asset == asset then [last.missing] else []
  }

  lemma ShortfallsMore(missing: seq<MissingAcquisition>, m: MissingAcquisition, asset: Asset)
    ensures Shortfalls(missing + [m], asset)
         == Shortfalls(missing, asset) + if m.asset == asset then [m.missing] else []
  {
    assert (missing + [m])[..|missing|] == missing;
  }

  function HeldOf(cost: CostState, s: Settings, asset: Asset): real {
    Held(BookOf(cost, s, asset).lots)
  }

  /** Two cost bases agree on an asset: same book, same missing acquisitions. */
  ghost predicate Agree(a: CostState, b: CostState, s: Settings, asset: Asset) {
    BookOf(a, s, asset) == BookOf(b, s, asset) && Shortfalls(a.missing, asset) == Shortfalls(b.missing, asset)
  }

  /** The assets an asset's forks lead to have books of their own. */
  ghost predicate Elsewhere(forks: seq<Asset>, asset: Asset) {
    forall i :: 0 <= i < |forks| ==> forks[i] != asset && Alias(forks[i]) != Alias(asset)
  }

  lemma ForksElsewhere(asset: Asset, now: Timestamp)
    ensures Elsewhere(PreforkAssets(asset, now), asset) && Elsewhere(PreforkSpends(asset, now), asset)
  {
  }

  lemma ReduceElsewhere(cost: CostState, s: Settings, fiat: bool, fork: Asset, amount: real, now: Timestamp,
                        asset: Asset)
    requires fork != asset && Alias(fork) != Alias(asset)
    ensures Agree(Reduce(cost, s, fiat, fork, amount, now).state, cost, s, asset)
  {
    hide Take, Shortfalls, Alias;
    var t := Take(BookOf(cost, s, fork), amount);
    ShortfallsMore(cost.missing, MissingAcquisition(fork, now, amount - t.missing, t.missing), asset);
  }

  lemma {:induction false} ReducesElsewhere(cfg: PotConfig, cost: CostState, forks: seq<Asset>, amount: real,
                                            now: Timestamp, asset: Asset)
    requires Elsewhere(forks, asset)
    ensures Agree(ReducePreforks(cfg, cost, forks, amount, now).state, cost, cfg.costs, asset)
    decreases |forks|
  {
    hide Reduce, Shortfalls, Alias;
    if forks != [] {
      ReduceElsewhere(cost, cfg.costs, forks[0] in cfg.fiats, forks[0], amount, now, asset);
      var r := Reduce(cost, cfg.costs, forks[0] in cfg.fiats, forks[0], amount, now);
      ReducesElsewhere(cfg, r.state, forks[1..], amount, now, asset);
    }
  }

  lemma {:induction false} PreforksElsewhere(cfg: PotConfig, st: PotState, forks: seq<Asset>, a: In, price: real,
                                             asset: Asset)
    requires Elsewhere(forks, asset)
    ensures Agree(AddPreforks(cfg, st, forks, a, price).cost, st.cost, cfg.costs, asset)
    decreases |forks|
  {
    hide Shortfalls, Alias, AddLot;
    if forks != [] {
      if forks[0] in cfg.ignored {
        PreforksElsewhere(cfg, st, forks[1..], a, price, asset);
      } else {
        var e := ProcessedEvent(PreforkAcquisition, a.timestamp, forks[0], a.amount, 0.0, price, NO_PNL,
                                |st.processed|);
        var st1 := Record(st, e, NO_PNL, false);
        var cost := Obtain(st1.cost, cfg.costs, forks[0], a.amount, a.timestamp, price, e.index);
        PreforksElsewhere(cfg, st1.(cost := cost), forks[1..], a, price, asset);
      }
    }
  }

  /** A priced acquisition adds its amount to what is held and reports nothing. */
  lemma AcquisitionHeld(cfg: PotConfig, st: PotState, a: In)
    requires AllHealthy(st.cost, cfg.costs) && a.amount > 0.0 && a.given.Some?
    ensures var r := AddIn(cfg, st, a);
            && r.error.None?
            && HeldOf(r.state.cost, cfg.costs, a.asset) == HeldOf(st.cost, cfg.costs, a.asset) + a.amount
            && Shortfalls(r.state.cost.missing, a.asset) == Shortfalls(st.cost.missing, a.asset)
  {
    hide AllHealthy, Shortfalls, AddPreforks, CalculatePnl, Held, Obtain, PreforkAssets;
    var price := a.given.value;
    var forks := PreforkAssets(a.asset, a.timestamp);
    ForksElsewhere(a.asset, a.timestamp);
    PreforksElsewhere(cfg, st, forks, a, price, a.asset);
    PreforksHealthy(cfg, st, forks, a, price);
    var st1 := AddPreforks(cfg, st, forks, a, price);
    GotConserves(st1.cost, cfg.costs, Got(a.asset, a.amount, a.timestamp, price, |st1.processed|), a.asset);
    ObtainReportsNothing(st1.cost, cfg.costs, a.asset, a.amount, a.timestamp, price, |st1.processed|);
  }

  lemma ObtainReportsNothing(cost: CostState, s: Settings, asset: Asset, amount: real, now: Timestamp, rate: real,
                             index: int)
    ensures Obtain(cost, s, asset, amount, now, rate, index).missing == cost.missing
  {
  }

  /** A priced taxable spend with a cost basis reports exactly what the holdings do not cover. */
  lemma SpendReports(cfg: PotConfig, st: PotState, a: Out)
    requires AllHealthy(st.cost, cfg.costs) && a.amount > 0.0 && a.given.Some?
    requires OutBasis(a) && OutTaxable(cfg, a) && a.asset !in cfg.fiats
    ensures var r := AddOut(cfg, st, a);
            var held := HeldOf(st.cost, cfg.costs, a.asset);
            && r.error.None?
            && Shortfalls(r.state.cost.missing, a.asset) == Shortfalls(st.cost.missing, a.asset)
               + if held < a.amount then [a.amount - held] else []
  {
    hide AllHealthy, Healthy, Shortfalls, ReducePreforks, PreforkSpends, Held, Calculate, OutTaxable, Record, OutPnl,
         Select;
    var forks := PreforkSpends(a.asset, a.timestamp);
    ForksElsewhere(a.asset, a.timestamp);
    ReducesElsewhere(cfg, st.cost, forks, a.amount, a.timestamp, a.asset);
    ReducePreforksHealthy(cfg, st.cost, forks, a.amount, a.timestamp);
    var cost := ReducePreforks(cfg, st.cost, forks, a.amount, a.timestamp).state;
    HealthyHere(cost, cfg.costs, a.asset);
    CalculateAccounts(cost, cfg.costs, a.asset, a.amount, a.timestamp);
    var held := HeldOf(st.cost, cfg.costs, a.asset);
    ShortfallsMore(cost.missing, MissingAcquisition(a.asset, a.timestamp, held, a.amount - held), a.asset);
    assert cost.missing + [] == cost.missing;
    SpendCost(cfg, st, a);
  }

  lemma HealthyHere(cost: CostState, s: Settings, asset: Asset)
    requires AllHealthy(cost, s)
    ensures Healthy(BookOf(cost, s, asset))
  {
  }

  lemma SpendCost(cfg: PotConfig, st: PotState, a: Out)
    requires a.amount != 0.0 && a.given.Some? && OutBasis(a) && OutTaxable(cfg, a) && a.asset !in cfg.fiats
    ensures var r := AddOut(cfg, st, a);
            var pre := ReducePreforks(cfg, st.cost, PreforkSpends(a.asset, a.timestamp), a.amount, a.timestamp);
            var spent := Calculate(pre.state, cfg.costs, a.asset, a.amount, a.timestamp);
            pre.error.None? ==> r.error == spent.error && r.state.cost == spent.state
  {
    hide ReducePreforks, PreforkSpends, Calculate, OutTaxable, OutPnl;
  }

  /** A fee paid in the acquired asset, as a taxable expense. What is reported missing for the asset is
      what the fee exceeds the holdings by, and the lots of the swap itself count among these exactly
      when the fee is queued after the acquisition. So a fee with the smaller sequence index is
      reported missing on an empty book, although the swap covers it. */
  lemma FeeShortfall(cfg: PotConfig, st: PotState, now: Timestamp, out: Event, inn: Event, fee: Event, p: SwapPrices,
                     taxed: real)
    requires AllHealthy(st.cost, cfg.costs) && p.Prices? && out.amount != 0.0
    requires fee.asset == inn.asset && fee.amount > 0.0 && inn.amount > 0.0
    requires !cfg.includeFees && fee.asset !in cfg.fiats && fee.asset != A_KFEE
    ensures var r := RunScript(cfg, st, SwapQueue(cfg, now, out, inn, Some(fee), p, taxed), None);
            var own := if fee.asset == out.asset || fee.sequenceIndex < inn.sequenceIndex then 0.0 else inn.amount;
            var held := HeldOf(st.cost, cfg.costs, fee.asset) + own;
            && r.error.None?
            && Shortfalls(r.state.cost.missing, fee.asset) == Shortfalls(st.cost.missing, fee.asset)
               + if held < fee.amount then [fee.amount - held] else []
  {
    hide AllHealthy, Shortfalls, AddIn, AddOut, HeldOf;
    var acquire := SwapIn(now, inn, p.inPrice);
    var pay := SwapFee(cfg, now, out, inn, fee, p, taxed);
    if FeeFirst(out, inn, fee) {
      SpendReports(cfg, st, pay);
      SpendStaysHealthy(cfg, st, pay);
      var st1 := AddOut(cfg, st, pay).state;
      AcquisitionHeld(cfg, st1, acquire);
      TwoCalls(cfg, st, OutOp(pay), InOp(acquire));
    } else {
      AcquisitionHeld(cfg, st, acquire);
      AcquisitionHealthy(cfg, st, acquire);
      var st1 := AddIn(cfg, st, acquire).state;
      SpendReports(cfg, st1, pay);
      TwoCalls(cfg, st, InOp(acquire), OutOp(pay));
    }
  }

  lemma TwoCalls(cfg: PotConfig, st: PotState, first: PotOp, second: PotOp)
    requires ApplyOp(cfg, st, first).error.None?
    ensures var r := ApplyOp(cfg, ApplyOp(cfg, st, first).state, second);
            RunScript(cfg, st, [first, second], None) == ScriptResult(r.state, r.error)
  {
    hide ApplyOp;
    assert [first, second][1..] == [second] && [second][1..] == [];
    var r := ApplyOp(cfg, ApplyOp(cfg, st, first).state, second);
    assert r.error.None? ==> RunScript(cfg, r.state, [], None) == ScriptResult(r.state, None);
    assert RunScript(cfg, ApplyOp(cfg, st, first).state, [second], None) == ScriptResult(r.state, r.error);
  }

  lemma SpendStaysHealthy(cfg: PotConfig, st: PotState, a: Out)
    requires AllHealthy(st.cost, cfg.costs) && a.amount > 0.0
    ensures AllHealthy(AddOut(cfg, st, a).state.cost, cfg.costs)
  {
    hide AddOut, AllHealthy, ReducePreforks, Spend, PreforkSpends, Asked, OutTaxable;
    var pre := ReducePreforks(cfg, st.cost, PreforkSpends(a.asset, a.timestamp), a.amount, a.timestamp);
    ReducePreforksHealthy(cfg, st.cost, PreforkSpends(a.asset, a.timestamp), a.amount, a.timestamp);
    SpendHealthy(pre.state, cfg.costs, a.asset in cfg.fiats, a.asset, a.amount, a.timestamp, OutTaxable(cfg, a));
    OutCost(cfg, st, a);
  }

  lemma AcquisitionHealthy(cfg: PotConfig, st: PotState, a: In)
    requires AllHealthy(st.cost, cfg.costs) && a.amount > 0.0 && a.given.Some?
    ensures AllHealthy(AddIn(cfg, st, a).state.cost, cfg.costs)
  {
    hide AllHealthy, Obtain, AddPreforks, CalculatePnl, PreforkAssets;
    var forks := PreforkAssets(a.asset, a.timestamp);
    PreforksHealthy(cfg, st, forks, a, a.given.value);
    var st1 := AddPreforks(cfg, st, forks, a, a.given.value);
    ObtainHealthy(st1.cost, cfg.costs, a.asset, a.amount, a.timestamp, a.given.value, |st1.processed|);
  }
}
