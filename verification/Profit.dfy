/** Profit and loss: what one pot call contributes, and the law that ties the contributions of a whole run
    to proceeds, cost acquired and cost still held. */
module Profit {
  import opened Common
  import opened CostBasis
  import opened CostBasisCalculator
  import opened SwapPricing
  import opened Pot
  import opened Events
  import opened EventsAccounting
  import opened SwapFees
  import opened Movements

  /** The cost of what is still held of an asset. */
  function StockOf(cost: CostState, s: Settings, asset: Asset): real {
    Stock(BookOf(cost, s, asset))
  }

  /** Whether a spend contributes at all: taxable, in the query period, neither fiat spent in a trade nor
      kraken fee credits. */
  predicate SpendCounts(cfg: PotConfig, a: Out) {
    a.taxable && a.timestamp >= cfg.startTs && a.asset != A_KFEE && !(a.asset in cfg.fiats && a.kind == TradeEvent)
  }

  /** Whether a spend is charged with the cost of the lots it uses up. */
  predicate Charged(cfg: PotConfig, a: Out) {
    SpendCounts(cfg, a) && a.basis && a.asset !in cfg.fiats
  }

  // ----- One call -----

  /** A product, kept apart from linear arithmetic. */
  function Value(price: real, amount: real): real {
    price * amount
  }

  lemma ValueOfParts(price: real, taxable: real, free: real, amount: real)
    requires taxable + free == amount
    ensures taxable * price == Value(price, taxable) && free * price == Value(price, free)
    ensures Value(price, taxable) + Value(price, free) == Value(price, amount)
    ensures Value(price, 0.0) == 0.0
  {
  }

  /** `calculate_pnl`, both sides: value minus bought cost, and for an entire spend minus the whole value
      on the taxable side. Fiat and spends without cost basis have only the latter. */
  lemma PnlSides(e: ProcessedEvent, info: Option<CostBasisInfo>, fiat: bool, entire: bool, basis: bool)
    ensures var pnl := CalculatePnl(e, info, fiat, entire, basis);
            var spent := if entire then Value(e.price, e.taxable + e.free) else 0.0;
            if fiat || !basis then pnl == PNL(0.0, -spent)
            else
              && pnl.free == Value(e.price, e.free) - (if info.Some? then info.value.taxfreeCost else 0.0)
              && pnl.taxable == Value(e.price, e.taxable) - (if info.Some? then info.value.taxableCost else 0.0) - spent
  {
    ValueOfParts(e.price, e.taxable, e.free, e.taxable + e.free);
  }

  /** What `Calculate` finds depends on the asset's own book only. */
  lemma SameBasis(a: CostState, b: CostState, s: Settings, asset: Asset, amount: real, now: Timestamp)
    requires BookOf(a, s, asset) == BookOf(b, s, asset)
    ensures Calculate(a, s, asset, amount, now).info == Calculate(b, s, asset, amount, now).info
    ensures StockOf(Calculate(a, s, asset, amount, now).state, s, asset)
         == StockOf(Calculate(b, s, asset, amount, now).state, s, asset)
  {
    hide Take, Info, Stock;
  }

  /** The event of a spend, with its amounts and PnL. */
  lemma SpendEvent(cfg: PotConfig, st: PotState, a: Out)
    requires AllHealthy(st.cost, cfg.costs) && a.amount > 0.0 && PriceOf(cfg, st, OutOp(a)).Some?
    ensures var r := AddOut(cfg, st, a);
            var pre := ReducePreforks(cfg, st.cost, PreforkSpends(a.asset, a.timestamp), a.amount, a.timestamp);
            var spent := CostOfOut(cfg, pre.state, a);
            var e := OutEvent(a, spent.info, PriceOf(cfg, st, OutOp(a)).value, |st.processed|);
            && r.error.None? && r.state.cost == spent.state
            && r.state.processed == st.processed + [Booking(e, OutPnl(cfg, a, e, spent.info), OutCounts(cfg, a))]
  {
    hide AllHealthy, ReducePreforks, PreforkSpends, CostOfOut, OutEvent, OutPnl, OutCounts;
    var forks := PreforkSpends(a.asset, a.timestamp);
    ReducePreforksHealthy(cfg, st.cost, forks, a.amount, a.timestamp);
    var cost := ReducePreforks(cfg, st.cost, forks, a.amount, a.timestamp).state;
    CostOfOutFine(cfg, cost, a);
  }

  lemma CostOfOutFine(cfg: PotConfig, cost: CostState, a: Out)
    requires AllHealthy(cost, cfg.costs) && a.amount > 0.0
    ensures CostOfOut(cfg, cost, a).error.None?
  {
    hide AllHealthy, Spend, OutTaxable;
    SpendHealthy(cost, cfg.costs, a.asset in cfg.fiats, a.asset, a.amount, a.timestamp, OutTaxable(cfg, a));
  }

  /** A spend that is charged: both sides of its gain are value minus the cost of the lots used, by age,
      less the whole value if the spend counts entirely; together that is the proceeds minus the cost
      that left the book. */
  lemma ChargedPnl(cfg: PotConfig, st: PotState, a: Out)
    requires AllHealthy(st.cost, cfg.costs) && a.amount > 0.0 && PriceOf(cfg, st, OutOp(a)).Some? && Charged(cfg, a)
    ensures var r := AddOut(cfg, st, a);
            var price := PriceOf(cfg, st, OutOp(a)).value;
            var info := Calculate(st.cost, cfg.costs, a.asset, a.amount, a.timestamp).info;
            var value := Value(price, a.amount);
            && |r.state.processed| == |st.processed| + 1 && info.Some?
            && var e := r.state.processed[|st.processed|];
            && e.taxable == info.value.taxableAmount && e.free == a.amount - e.taxable && e.price == price
            && e.pnl.free == Value(price, e.free) - info.value.taxfreeCost
            && e.pnl.taxable == Value(price, e.taxable) - info.value.taxableCost - (if a.entire then value else 0.0)
            && e.pnl.free + e.pnl.taxable == (if a.entire then 0.0 else value)
               - (StockOf(st.cost, cfg.costs, a.asset) - StockOf(r.state.cost, cfg.costs, a.asset))
  {
    hide AllHealthy, Healthy, ReducePreforks, PreforkSpends, Calculate, CalculatePnl, Value, Stock, PriceOf, AddOut,
         Shortfalls, Select, AmountUsed, Held;
    var price := PriceOf(cfg, st, OutOp(a)).value;
    SpendEvent(cfg, st, a);
    var forks := PreforkSpends(a.asset, a.timestamp);
    ForksElsewhere(a.asset, a.timestamp);
    ReducesElsewhere(cfg, st.cost, forks, a.amount, a.timestamp, a.asset);
    var cost := ReducePreforks(cfg, st.cost, forks, a.amount, a.timestamp).state;
    SameBasis(cost, st.cost, cfg.costs, a.asset, a.amount, a.timestamp);
    HealthyHere(st.cost, cfg.costs, a.asset);
    CalculateAccounts(st.cost, cfg.costs, a.asset, a.amount, a.timestamp);
    var info := Calculate(st.cost, cfg.costs, a.asset, a.amount, a.timestamp).info;
    var e := OutEvent(a, info, price, |st.processed|);
    PnlSides(e, info, false, a.entire, true);
    ValueOfParts(price, e.taxable, e.free, a.amount);
  }

  /** Any other spend contributes nothing, or only its whole value as an expense. */
  lemma UnchargedPnl(cfg: PotConfig, st: PotState, a: Out)
    requires AllHealthy(st.cost, cfg.costs) && a.amount > 0.0 && PriceOf(cfg, st, OutOp(a)).Some? && !Charged(cfg, a)
    ensures var r := AddOut(cfg, st, a);
            && |r.state.processed| == |st.processed| + 1
            && r.state.processed[|st.processed|].pnl
               == PNL(0.0, if SpendCounts(cfg, a) && a.entire then -Value(PriceOf(cfg, st, OutOp(a)).value, a.amount)
                           else 0.0)
  {
    hide AllHealthy, ReducePreforks, PreforkSpends, CalculatePnl, Value, PriceOf, AddOut, CostOfOut;
    SpendEvent(cfg, st, a);
    var pre := ReducePreforks(cfg, st.cost, PreforkSpends(a.asset, a.timestamp), a.amount, a.timestamp);
    var spent := CostOfOut(cfg, pre.state, a);
    var e := OutEvent(a, spent.info, PriceOf(cfg, st, OutOp(a)).value, |st.processed|);
    PnlSides(e, spent.info, a.asset in cfg.fiats, a.entire, OutBasis(a));
  }

  /** A taxable acquisition in the period contributes its value, unless it is of fiat. */
  lemma AcquisitionPnl(cfg: PotConfig, st: PotState, a: In)
    requires a.amount != 0.0 && PriceOf(cfg, st, InOp(a)).Some?
    ensures var ev := AddIn(cfg, st, a).state.processed;
            var counts := a.taxable && a.timestamp >= cfg.startTs && a.asset !in cfg.fiats;
            && |ev| > |st.processed|
            && ev[|ev| - 1].pnl == PNL(0.0, if counts then Value(PriceOf(cfg, st, InOp(a)).value, a.amount) else 0.0)
  {
    hide Obtain, AddPreforks, CalculatePnl, PreforkAssets, Value;
    var price := PriceOf(cfg, st, InOp(a)).value;
    var st0 := if a.given.Some? then st else AfterAsking(cfg, st, a.asset);
    var forks := PreforkAssets(a.asset, a.timestamp);
    PreforksAppend(cfg, st0, forks, a, price);
    var st1 := AddPreforks(cfg, st0, forks, a, price);
    var taxable, free := if a.taxable then a.amount else 0.0, if a.taxable then 0.0 else a.amount;
    var e := ProcessedEvent(a.kind, a.timestamp, a.asset, taxable, free, price, NO_PNL, |st1.processed|);
    PnlSides(e, None, a.asset in cfg.fiats, false, true);
    ValueOfParts(price, taxable, free, a.amount);
  }

  // ----- What entries and swaps contribute -----

  /** The gain of a charged spend by both sides, from the lots held before it. */
  ghost predicate IsGain(e: ProcessedEvent, info: CostBasisInfo, price: real, amount: real, entire: bool) {
    && e.taxable == info.taxableAmount && e.free == amount - e.taxable
    && e.pnl.free == Value(price, e.free) - info.taxfreeCost
    && e.pnl.taxable == Value(price, e.taxable) - info.taxableCost - if entire then Value(price, amount) else 0.0
  }

  /** A history entry contributes what its rule says: what is received its value if taxable; what is spent
      its gain if taxable with cost basis, less its value if it counts entirely. Nothing counts before the
      query period, and fiat has no gain. */
  lemma EntryPnl(w: World, st: PotState, events: seq<Event>, pos: nat, e: Event, rule: Rule)
    requires pos <= |events| && AllHealthy(st.cost, w.cfg.costs) && e.amount > 0.0
    requires RuleFor(w.rules, w.ident, e) == Some(rule) && !rule.swap && !HasCallback(w, e)
    requires e.direction == Some(Inward) || e.direction == Some(Outward)
    requires KnownPrice(w.cfg, st.queries, e.asset, e.timestamp, None, e.direction == Some(Inward)).Some?
    ensures var ev := Process(w, st, events, pos, e).state.processed;
            var price := KnownPrice(w.cfg, st.queries, e.asset, e.timestamp, None, e.direction == Some(Inward)).value;
            var counts := rule.taxable && e.timestamp >= w.cfg.startTs;
            var info := Calculate(st.cost, w.cfg.costs, e.asset, e.amount, e.timestamp).info;
            && |ev| > |st.processed|
            && var booked := ev[|ev| - 1];
            if e.direction == Some(Inward) then
              booked.pnl == PNL(0.0, if counts && e.asset !in w.cfg.fiats then Value(price, e.amount) else 0.0)
            else if counts && e.asset != A_KFEE && e.asset !in w.cfg.fiats && rule.basis then
              info.Some? && IsGain(booked, info.value, price, e.amount, rule.entire)
            else
              booked.pnl
              == PNL(0.0, if counts && e.asset != A_KFEE && rule.entire then -Value(price, e.amount) else 0.0)
  {
    hide AllHealthy, AddIn, AddOut, KnownPrice, Calculate, Value, RuleFor, StockOf;
    match ChangeOp(e, rule)
    case InOp(a) => AcquisitionPnl(w.cfg, st, a);
    case OutOp(o) =>
      if Charged(w.cfg, o) {
        ChargedPnl(w.cfg, st, o);
      } else {
        UnchargedPnl(w.cfg, st, o);
      }
  }

  /** The sale in a taxable swap of crypto inside the period: its gain at the out price. */
  lemma SwapGain(cfg: PotConfig, st: PotState, pos: nat, now: Timestamp, out: Event, inn: Event, fee: Option<Event>,
                 rule: Rule)
    requires AllHealthy(st.cost, cfg.costs) && out.amount > 0.0
    requires SwapPricesFor(cfg, st, now, out, inn, fee).0.Prices?
    requires ProcessSwap(cfg, st, pos, now, out, inn, fee, rule).error.None?
    requires rule.taxable && now >= cfg.startTs && out.asset != A_KFEE && out.asset !in cfg.fiats
    ensures var ev := ProcessSwap(cfg, st, pos, now, out, inn, fee, rule).state.processed;
            var info := Calculate(st.cost, cfg.costs, out.asset, out.amount, now).info;
            && |ev| > |st.processed| && info.Some?
            && IsGain(ev[|st.processed|], info.value, SwapPricesFor(cfg, st, now, out, inn, fee).0.outPrice, out.amount,
                      false)
  {
    hide AllHealthy, SwapPricesFor, AddIn, AddOut, RunScript, Calculate, Value, StockOf;
    var (p, st1) := SwapPricesFor(cfg, st, now, out, inn, fee);
    SameCost(cfg, st, now, out, inn, fee);
    EmptyLegUnpriced(cfg, st, now, out, inn, fee);
    var spend := SwapOut(now, out, rule, p.outPrice);
    Given(cfg, st1, spend);
    ChargedPnl(cfg, st1, spend);
    var spent := AddOut(cfg, st1, spend);
    ScriptKeepsEarlier(cfg, spent.state, SwapQueue(cfg, now, out, inn, fee, p, spent.taxable), |st.processed|);
  }

  lemma {:induction false} ScriptKeepsEarlier(cfg: PotConfig, st: PotState, ops: seq<PotOp>, i: nat)
    requires i < |st.processed|
    ensures var ev := RunScript(cfg, st, ops, None).state.processed;
            i < |ev| && ev[i] == st.processed[i]
    decreases |ops|
  {
    hide ApplyOp;
    if ops != [] {
      KeepsEarlier(cfg, st, ops[0], i);
      if ApplyOp(cfg, st, ops[0]).error.None? {
        ScriptKeepsEarlier(cfg, ApplyOp(cfg, st, ops[0]).state, ops[1..], i);
      }
    }
  }

  /** The fee of a swap, unless it is part of the cost basis, is an expense: it counts the cost of the lots it
      is paid with, or for fiat its whole value, as a loss. */
  lemma SwapFeeIsExpense(cfg: PotConfig, st: PotState, now: Timestamp, out: Event, inn: Event, fee: Event,
                         p: SwapPrices, taxed: real)
    requires AllHealthy(st.cost, cfg.costs) && p.Prices? && out.amount != 0.0 && fee.amount > 0.0
    requires !cfg.includeFees && now >= cfg.startTs && fee.asset != A_KFEE
    requires KnownPrice(cfg, st.queries, fee.asset, now, FeePrice(cfg, out, inn, fee, p), false).Some?
    ensures var price := KnownPrice(cfg, st.queries, fee.asset, now, FeePrice(cfg, out, inn, fee, p), false).value;
            var r := AddOut(cfg, st, SwapFee(cfg, now, out, inn, fee, p, taxed));
            && |r.state.processed| == |st.processed| + 1
            && var e := r.state.processed[|st.processed|];
            e.pnl.free + e.pnl.taxable
            == if fee.asset in cfg.fiats then -Value(price, fee.amount)
               else StockOf(r.state.cost, cfg.costs, fee.asset) - StockOf(st.cost, cfg.costs, fee.asset)
  {
    hide AllHealthy, AddOut, KnownPrice, Calculate, Value, StockOf, FeePrice;
    var pay := SwapFee(cfg, now, out, inn, fee, p, taxed);
    if fee.asset in cfg.fiats {
      UnchargedPnl(cfg, st, pay);
    } else {
      ChargedPnl(cfg, st, pay);
    }
  }

  // ----- Contributions of one asset -----

  /** Sum of both sides of the PnL of all events of an asset, or of one that shares its book. */
  function Gains(events: seq<ProcessedEvent>, x: Asset): real {
    if events == [] then 0.0
    else
      var e := events[|events| - 1];
      Gains(events[..|events| - 1], x) + if SameBook(e.asset, x) then e.pnl.free + e.pnl.taxable else 0.0
  }

  lemma GainsMore(events: seq<ProcessedEvent>, e: ProcessedEvent, x: Asset)
    ensures Gains(events + [e], x)
            == Gains(events, x) + if SameBook(e.asset, x) then e.pnl.free + e.pnl.taxable else 0.0
  {
    assert (events + [e])[..|events|] == events;
  }

  lemma {:induction false} PreforksGainNothing(cfg: PotConfig, st: PotState, forks: seq<Asset>, a: In, price: real,
                                               x: Asset)
    ensures Gains(AddPreforks(cfg, st, forks, a, price).processed, x) == Gains(st.processed, x)
    decreases |forks|
  {
    hide Obtain, Gains, SameBook;
    if forks != [] {
      if forks[0] in cfg.ignored {
        PreforksGainNothing(cfg, st, forks[1..], a, price, x);
      } else {
        var e := ProcessedEvent(PreforkAcquisition, a.timestamp, forks[0], a.amount, 0.0, price, NO_PNL,
                                |st.processed|);
        var st1 := Record(st, e, NO_PNL, false);
        var cost := Obtain(st1.cost, cfg.costs, forks[0], a.amount, a.timestamp, price, e.index);
        GainsMore(st.processed, e, x);
        PreforksGainNothing(cfg, st1.(cost := cost), forks[1..], a, price, x);
      }
    }
  }

  lemma ObtainStocks(cost: CostState, s: Settings, asset: Asset, amount: real, now: Timestamp, rate: real, index: int,
                     x: Asset)
    requires AllHealthy(cost, s) && amount > 0.0
    ensures var cost1 := Obtain(cost, s, asset, amount, now, rate, index);
            && AllHealthy(cost1, s)
            && StockOf(cost1, s, x) == StockOf(cost, s, x) + if SameBook(x, asset) then Value(rate, amount) else 0.0
  {
    hide AllHealthy, Obtain, Held, Stock, Alias;
    GotConserves(cost, s, Got(asset, amount, now, rate, index), x);
    ShareBookIff(asset, x);
  }

  lemma {:induction false} PreforksStock(cfg: PotConfig, st: PotState, forks: seq<Asset>, a: In, price: real, x: Asset)
    requires AllHealthy(st.cost, cfg.costs) && a.amount > 0.0 && ForkList(forks)
    ensures var st1 := AddPreforks(cfg, st, forks, a, price);
            && AllHealthy(st1.cost, cfg.costs)
            && StockOf(st1.cost, cfg.costs, x) == StockOf(st.cost, cfg.costs, x)
               + if x in forks && x !in cfg.ignored then Value(price, a.amount) else 0.0
    decreases |forks|
  {
    hide AllHealthy, Obtain, StockOf, SameBook, ForkList, Value;
    if forks != [] {
      ForkTail(forks, x);
      if forks[0] in cfg.ignored {
        PreforksStock(cfg, st, forks[1..], a, price, x);
      } else {
        var e := ProcessedEvent(PreforkAcquisition, a.timestamp, forks[0], a.amount, 0.0, price, NO_PNL,
                                |st.processed|);
        var st1 := Record(st, e, NO_PNL, false);
        ObtainStocks(st1.cost, cfg.costs, forks[0], a.amount, a.timestamp, price, e.index, x);
        var cost := Obtain(st1.cost, cfg.costs, forks[0], a.amount, a.timestamp, price, e.index);
        PreforksStock(cfg, st1.(cost := cost), forks[1..], a, price, x);
      }
    }
  }

  // ----- The law for one call -----

  /** What a call earns for an asset: the value of a taxable acquisition, the proceeds of a charged spend
      unless it counts entirely, and minus the value of an uncharged spend that does. */
  function Income(cfg: PotConfig, st: PotState, op: PotOp, x: Asset): real {
    var price := PriceOf(cfg, st, op);
    if OpAmount(op) == 0.0 || price.None? then 0.0
    else
      match op
      case InOp(a) =>
        if SameBook(a.asset, x) && a.taxable && a.timestamp >= cfg.startTs && a.asset !in cfg.fiats
        then Value(price.value, a.amount) else 0.0
      case OutOp(a) =>
        if !SameBook(a.asset, x) || !SpendCounts(cfg, a) then 0.0
        else if Charged(cfg, a) then (if a.entire then 0.0 else Value(price.value, a.amount))
        else if a.entire then -Value(price.value, a.amount) else 0.0
  }

  /** The cost a call acquires lots of an asset at, forks included. */
  function Bought(cfg: PotConfig, st: PotState, op: PotOp, x: Asset): real {
    var price := PriceOf(cfg, st, op);
    if op.InOp? && op.a.amount != 0.0 && price.Some?
       && (SameBook(x, op.a.asset) || (ForkedFrom(op.a.asset, x, op.a.timestamp) && x !in cfg.ignored))
    then Value(price.value, op.a.amount) else 0.0
  }

  /** The cost of lots of an asset that are used up without being charged to any gain. */
  function WrittenOff(cfg: PotConfig, st: PotState, op: PotOp, x: Asset): real {
    if op.InOp? || (Charged(cfg, op.o) && SameBook(op.o.asset, x)) then 0.0
    else StockOf(st.cost, cfg.costs, x) - StockOf(ApplyOp(cfg, st, op).state.cost, cfg.costs, x)
  }

  /** Gains so far minus the cost of what is still held. */
  function Balance(cfg: PotConfig, st: PotState, x: Asset): real {
    Gains(st.processed, x) - StockOf(st.cost, cfg.costs, x)
  }

  /** The pot once the forks of an acquisition are booked. */
  function ForksBooked(cfg: PotConfig, st: PotState, a: In, price: real): PotState {
    var st0 := if a.given.Some? then st else AfterAsking(cfg, st, a.asset);
    AddPreforks(cfg, st0, PreforkAssets(a.asset, a.timestamp), a, price)
  }

  lemma InParts(cfg: PotConfig, st: PotState, a: In)
    requires a.amount != 0.0
    ensures var r := AddIn(cfg, st, a);
            var price := PriceOf(cfg, st, InOp(a));
            if price.None? then r.state.cost == st.cost && r.state.processed == st.processed
            else
              var st1 := ForksBooked(cfg, st, a, price.value);
              && r.state.cost
                 == Obtain(st1.cost, cfg.costs, a.asset, a.amount, a.timestamp, price.value, |st1.processed|)
              && |r.state.processed| == |st1.processed| + 1
              && r.state.processed == st1.processed + [r.state.processed[|st1.processed|]]
              && r.state.processed[|st1.processed|].asset == a.asset
  {
    hide Obtain, AddPreforks, CalculatePnl, PreforkAssets;
  }

  lemma ForksLaw(cfg: PotConfig, st: PotState, a: In, price: real, x: Asset)
    requires AllHealthy(st.cost, cfg.costs) && a.amount > 0.0
    ensures var st1 := ForksBooked(cfg, st, a, price);
            && AllHealthy(st1.cost, cfg.costs) && Gains(st1.processed, x) == Gains(st.processed, x)
            && StockOf(st1.cost, cfg.costs, x) == StockOf(st.cost, cfg.costs, x)
               + if ForkedFrom(a.asset, x, a.timestamp) && x !in cfg.ignored then Value(price, a.amount) else 0.0
  {
    hide AllHealthy, AddPreforks, StockOf, PreforkAssets, ForkList, ForkedFrom, Value, Gains;
    var st0 := if a.given.Some? then st else AfterAsking(cfg, st, a.asset);
    var forks := PreforkAssets(a.asset, a.timestamp);
    ForkLists(a.asset, a.timestamp);
    ForksIff(a.asset, x, a.timestamp);
    PreforksStock(cfg, st0, forks, a, price, x);
    PreforksGainNothing(cfg, st0, forks, a, price, x);
  }

  lemma InLaw(cfg: PotConfig, st: PotState, a: In, x: Asset)
    requires AllHealthy(st.cost, cfg.costs) && a.amount > 0.0
    ensures Balance(cfg, AddIn(cfg, st, a).state, x)
         == Balance(cfg, st, x) + Income(cfg, st, InOp(a), x) - Bought(cfg, st, InOp(a), x)
  {
    hide AllHealthy, Obtain, AddIn, StockOf, ForkedFrom, Value, Gains, PriceOf, SameBook, ForksBooked;
    InParts(cfg, st, a);
    if PriceOf(cfg, st, InOp(a)).Some? {
      var price := PriceOf(cfg, st, InOp(a)).value;
      ForksLaw(cfg, st, a, price, x);
      ForksApart(a.asset, x, a.timestamp);
      SameBookSymmetric(x, a.asset);
      var st1 := ForksBooked(cfg, st, a, price);
      ObtainStocks(st1.cost, cfg.costs, a.asset, a.amount, a.timestamp, price, |st1.processed|, x);
      AcquisitionPnl(cfg, st, a);
      GainsMore(st1.processed, AddIn(cfg, st, a).state.processed[|st1.processed|], x);
    }
  }

  lemma OutGains(cfg: PotConfig, st: PotState, a: Out, x: Asset)
    requires AllHealthy(st.cost, cfg.costs) && a.amount > 0.0
    ensures var ev := AddOut(cfg, st, a).state.processed;
            if PriceOf(cfg, st, OutOp(a)).None? then ev == st.processed
            else
              && |ev| == |st.processed| + 1
              && Gains(ev, x) == Gains(st.processed, x)
                 + if SameBook(a.asset, x) then ev[|st.processed|].pnl.free + ev[|st.processed|].pnl.taxable else 0.0
  {
    hide AllHealthy, ReducePreforks, PreforkSpends, CostOfOut, OutPnl, OutCounts, Gains;
    if PriceOf(cfg, st, OutOp(a)).Some? {
      SpendEvent(cfg, st, a);
      var ev := AddOut(cfg, st, a).state.processed;
      GainsMore(st.processed, ev[|st.processed|], x);
    }
  }

  lemma OutLaw(cfg: PotConfig, st: PotState, a: Out, x: Asset)
    requires AllHealthy(st.cost, cfg.costs) && a.amount > 0.0
    ensures Balance(cfg, AddOut(cfg, st, a).state, x)
         == Balance(cfg, st, x) + Income(cfg, st, OutOp(a), x) + WrittenOff(cfg, st, OutOp(a), x)
  {
    hide AllHealthy, AddOut, StockOf, Value, Gains, PriceOf, Charged, SpendCounts, Calculate;
    OutGains(cfg, st, a, x);
    ChargedCounts(cfg, a);
    if PriceOf(cfg, st, OutOp(a)).Some? {
      if Charged(cfg, a) {
        ChargedPnl(cfg, st, a);
        OneStock(st.cost, cfg.costs, a.asset, x);
        OneStock(AddOut(cfg, st, a).state.cost, cfg.costs, a.asset, x);
      } else {
        UnchargedPnl(cfg, st, a);
      }
    } else {
      UnpricedSpend(cfg, st, a, x);
    }
  }

  lemma ChargedCounts(cfg: PotConfig, a: Out)
    ensures Charged(cfg, a) ==> SpendCounts(cfg, a)
  {
  }

  lemma OneStock(cost: CostState, s: Settings, a: Asset, b: Asset)
    ensures SameBook(a, b) ==> StockOf(cost, s, a) == StockOf(cost, s, b)
  {
    ShareBookIff(a, b);
  }

  /** A charged spend without a price leaves its asset's book alone. */
  lemma UnpricedSpend(cfg: PotConfig, st: PotState, a: Out, x: Asset)
    requires AllHealthy(st.cost, cfg.costs) && a.amount > 0.0 && PriceOf(cfg, st, OutOp(a)).None?
    ensures SameBook(a.asset, x) ==>
              StockOf(AddOut(cfg, st, a).state.cost, cfg.costs, x) == StockOf(st.cost, cfg.costs, x)
  {
    hide AllHealthy, ReducePreforks, PreforkSpends, StockOf, Spend, OutTaxable, Shortfalls, AddOut, PriceOf;
    var forks := PreforkSpends(a.asset, a.timestamp);
    ForksElsewhere(a.asset, a.timestamp);
    ReducesElsewhere(cfg, st.cost, forks, a.amount, a.timestamp, a.asset);
    ReducePreforksHealthy(cfg, st.cost, forks, a.amount, a.timestamp);
    OutSteps(cfg, st, a);
    var cost := ReducePreforks(cfg, st.cost, forks, a.amount, a.timestamp).state;
    EqualBooks(cost, st.cost, cfg.costs, a.asset);
    OneStock(cost, cfg.costs, a.asset, x);
    OneStock(st.cost, cfg.costs, a.asset, x);
  }

  lemma EqualBooks(a: CostState, b: CostState, s: Settings, asset: Asset)
    requires BookOf(a, s, asset) == BookOf(b, s, asset)
    ensures StockOf(a, s, asset) == StockOf(b, s, asset)
  {
  }

  /** The law for one call, whether it raises or not. */
  lemma CallLaw(cfg: PotConfig, st: PotState, op: PotOp, x: Asset)
    requires AllHealthy(st.cost, cfg.costs) && OpAmount(op) >= 0.0
    ensures var st1 := ApplyOp(cfg, st, op).state;
            && AllHealthy(st1.cost, cfg.costs)
            && Balance(cfg, st1, x)
               == Balance(cfg, st, x) + Income(cfg, st, op, x) - Bought(cfg, st, op, x) + WrittenOff(cfg, st, op, x)
  {
    hide AllHealthy, AddIn, AddOut, Balance, PriceOf, StockOf, HeldOf, HeldAfter, SameBook, ForkedFrom, Charged,
         SpendCounts, Value;
    CallMoves(cfg, st, op, x);
    if OpAmount(op) == 0.0 {
      EmptyCall(cfg, st, op);
    } else {
      match op
      case InOp(a) => InLaw(cfg, st, a, x);
      case OutOp(o) => OutLaw(cfg, st, o, x);
    }
  }

  // ----- Whole runs -----

  /** The columns of an asset's statement over a run. */
  datatype Statement = Statement(income: real, bought: real, writtenOff: real)

  function StatementOf(cfg: PotConfig, st: PotState, ops: seq<PotOp>, x: Asset): Statement
    decreases |ops|
  {
    if ops == [] then Statement(0.0, 0.0, 0.0)
    else
      var rest := StatementOf(cfg, ApplyOp(cfg, st, ops[0]).state, ops[1..], x);
      Statement(Income(cfg, st, ops[0], x) + rest.income, Bought(cfg, st, ops[0], x) + rest.bought,
                WrittenOff(cfg, st, ops[0], x) + rest.writtenOff)
  }

  /** Over every run of pot calls, raising or not, and for every asset: what the gains change by, plus what
      the cost held falls by, is the income minus the cost acquired plus the cost written off. */
  lemma {:induction false} RunLaw(cfg: PotConfig, st: PotState, ops: seq<PotOp>, x: Asset)
    requires AllHealthy(st.cost, cfg.costs) && forall i :: 0 <= i < |ops| ==> OpAmount(ops[i]) >= 0.0
    ensures var end := RunOps(cfg, st, ops);
            var s := StatementOf(cfg, st, ops, x);
            && AllHealthy(end.cost, cfg.costs)
            && Balance(cfg, end, x) == Balance(cfg, st, x) + s.income - s.bought + s.writtenOff
    decreases |ops|
  {
    hide AllHealthy, ApplyOp, Balance, Income, Bought, WrittenOff, OpAmount;
    if ops != [] {
      CallLaw(cfg, st, ops[0], x);
      RunLaw(cfg, ApplyOp(cfg, st, ops[0]).state, ops[1..], x);
    }
  }

  /** Since the last reset: total gain is income minus cost acquired plus cost still held plus cost written
      off. */
  lemma TotalGain(cfg: PotConfig, ops: seq<PotOp>, x: Asset)
    requires forall i :: 0 <= i < |ops| ==> OpAmount(ops[i]) >= 0.0
    ensures var end := RunOps(cfg, EMPTY_POT, ops);
            var s := StatementOf(cfg, EMPTY_POT, ops, x);
            Gains(end.processed, x) == s.income - s.bought + StockOf(end.cost, cfg.costs, x) + s.writtenOff
  {
    hide AllHealthy, RunOps, StatementOf, StockOf, Gains;
    NothingHeld(cfg, x);
    RunLaw(cfg, EMPTY_POT, ops, x);
  }

  lemma NothingHeld(cfg: PotConfig, x: Asset)
    ensures AllHealthy(EMPTY_POT.cost, cfg.costs) && Gains(EMPTY_POT.processed, x) == 0.0
    ensures StockOf(EMPTY_POT.cost, cfg.costs, x) == 0.0
  {
    assert forall a: Asset :: BookOf(NO_HISTORY, cfg.costs, a).lots == [];
  }

  // ----- When nothing is written off -----

  /** A call that writes off nothing of an asset: an acquisition, a charged spend of it, or a spend of an
      asset that neither shares its book nor forks into it. */
  predicate Clean(cfg: PotConfig, op: PotOp, x: Asset) {
    || op.InOp?
    || (SameBook(op.o.asset, x) && Charged(cfg, op.o))
    || (!SameBook(op.o.asset, x) && !ForkedFrom(op.o.asset, x, op.o.timestamp))
  }

  lemma SpendStocks(cost: CostState, s: Settings, fiat: bool, asset: Asset, amount: real, now: Timestamp,
                    taxable: bool, x: Asset)
    requires AllHealthy(cost, s) && amount > 0.0 && !SameBook(asset, x)
    ensures var r := Spend(cost, s, fiat, asset, amount, now, taxable);
            r.error.None? && AllHealthy(r.state, s) && StockOf(r.state, s, x) == StockOf(cost, s, x)
  {
    hide AllHealthy, Spend, Held, Stock, Alias;
    GoneConserves(cost, s, Gone(asset, amount, now, fiat, taxable), x);
    ShareBookIff(asset, x);
  }

  lemma ReduceStocks(cost: CostState, s: Settings, fiat: bool, asset: Asset, amount: real, now: Timestamp, x: Asset)
    requires AllHealthy(cost, s) && amount > 0.0 && !SameBook(asset, x)
    ensures var r := Reduce(cost, s, fiat, asset, amount, now);
            r.error.None? && AllHealthy(r.state, s) && StockOf(r.state, s, x) == StockOf(cost, s, x)
  {
    hide AllHealthy, StockOf, SameBook, Reduce;
    SpendStocks(cost, s, fiat, asset, amount, now, false, x);
  }

  lemma {:induction false} ReducesStock(cfg: PotConfig, cost: CostState, forks: seq<Asset>, amount: real,
                                        now: Timestamp, x: Asset)
    requires AllHealthy(cost, cfg.costs) && amount > 0.0 && ForkList(forks) && x !in forks
    ensures var r := ReducePreforks(cfg, cost, forks, amount, now);
            && r.error.None? && AllHealthy(r.state, cfg.costs)
            && StockOf(r.state, cfg.costs, x) == StockOf(cost, cfg.costs, x)
    decreases |forks|
  {
    hide AllHealthy, Reduce, StockOf, ForkList, SameBook;
    if forks != [] {
      ForkTail(forks, x);
      SameBookSymmetric(x, forks[0]);
      ReduceStocks(cost, cfg.costs, forks[0] in cfg.fiats, forks[0], amount, now, x);
      ReducesStock(cfg, Reduce(cost, cfg.costs, forks[0] in cfg.fiats, forks[0], amount, now).state, forks[1..], amount,
                   now, x);
    }
  }

  lemma SameBookSymmetric(a: Asset, b: Asset)
    ensures SameBook(a, b) <==> SameBook(b, a)
  {
  }

  lemma CleanWritesOffNothing(cfg: PotConfig, st: PotState, op: PotOp, x: Asset)
    requires AllHealthy(st.cost, cfg.costs) && OpAmount(op) >= 0.0 && Clean(cfg, op, x)
    ensures WrittenOff(cfg, st, op, x) == 0.0
  {
    hide AllHealthy, AddIn, AddOut, StockOf, SameBook, ForkedFrom, Charged;
    if op.OutOp? && !SameBook(op.o.asset, x) {
      if op.o.amount == 0.0 {
        EmptyCall(cfg, st, op);
      } else {
        UnrelatedSpend(cfg, st, op.o, x);
      }
    }
  }

  lemma UnrelatedSpend(cfg: PotConfig, st: PotState, a: Out, x: Asset)
    requires AllHealthy(st.cost, cfg.costs) && a.amount > 0.0
    requires !SameBook(a.asset, x) && !ForkedFrom(a.asset, x, a.timestamp)
    ensures StockOf(AddOut(cfg, st, a).state.cost, cfg.costs, x) == StockOf(st.cost, cfg.costs, x)
  {
    hide AllHealthy, AddOut, StockOf, SameBook, ForkedFrom, ReducePreforks, PreforkSpends, Spend, OutTaxable, PriceOf,
         ForkList;
    var forks := PreforkSpends(a.asset, a.timestamp);
    ForkLists(a.asset, a.timestamp);
    ForksIff(a.asset, x, a.timestamp);
    ReducesStock(cfg, st.cost, forks, a.amount, a.timestamp, x);
    var cost := ReducePreforks(cfg, st.cost, forks, a.amount, a.timestamp).state;
    SpendStocks(cost, cfg.costs, a.asset in cfg.fiats, a.asset, a.amount, a.timestamp, OutTaxable(cfg, a), x);
    OutSteps(cfg, st, a);
  }

  lemma {:induction false} CleanRun(cfg: PotConfig, st: PotState, ops: seq<PotOp>, x: Asset)
    requires AllHealthy(st.cost, cfg.costs)
    requires forall i :: 0 <= i < |ops| ==> OpAmount(ops[i]) >= 0.0 && Clean(cfg, ops[i], x)
    ensures StatementOf(cfg, st, ops, x).writtenOff == 0.0
    decreases |ops|
  {
    hide AllHealthy, ApplyOp, Income, Bought, WrittenOff, OpAmount, Clean, Balance;
    if ops != [] {
      CallLaw(cfg, st, ops[0], x);
      CleanWritesOffNothing(cfg, st, ops[0], x);
      CleanRun(cfg, ApplyOp(cfg, st, ops[0]).state, ops[1..], x);
    }
  }

  /** If every spend of an asset is charged and none of it is lost through a fork, the total gain since the
      last reset is the income minus the cost acquired plus the cost still held. */
  lemma GainIsProceedsMinusCost(cfg: PotConfig, ops: seq<PotOp>, x: Asset)
    requires forall i :: 0 <= i < |ops| ==> OpAmount(ops[i]) >= 0.0 && Clean(cfg, ops[i], x)
    ensures var end := RunOps(cfg, EMPTY_POT, ops);
            var s := StatementOf(cfg, EMPTY_POT, ops, x);
            Gains(end.processed, x) == s.income - s.bought + StockOf(end.cost, cfg.costs, x)
  {
    hide AllHealthy, RunOps, StatementOf, StockOf, Gains, Clean;
    NothingHeld(cfg, x);
    CleanRun(cfg, EMPTY_POT, ops, x);
    TotalGain(cfg, ops, x);
  }
}
