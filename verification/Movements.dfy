/** What pot calls, history entries and swaps do to the holdings, and which events they book, stated
    from their inputs: which asset moves, in which direction, by how much and at which price. */
module Movements {
  import opened Common
  import opened CostBasis
  import opened CostBasisCalculator
  import opened SwapPricing
  import opened Pot
  import opened Events
  import opened EventsAccounting
  import opened SwapFees

  // ----- Reference -----

  /** An asset coming in or going out. `basis` says whether the spend uses up acquisitions. */
  datatype Move =
    | Gain(asset: Asset, amount: real, now: Timestamp)
    | Loss(asset: Asset, amount: real, now: Timestamp, basis: bool)

  /** Whether holding an asset at a time means holding a forked-off asset too. */
  predicate ForkedFrom(asset: Asset, fork: Asset, now: Timestamp) {
    || (asset == A_ETH && fork == A_ETC && now < ETH_DAO_FORK_TS)
    || (asset == A_BTC && (fork == A_BCH || fork == A_BSV) && now < BTC_BCH_FORK_TS)
    || (asset == A_BCH && fork == A_BSV && now < BCH_BSV_FORK_TS)
  }

  predicate SameBook(a: Asset, b: Asset) {
    a == b || (a == A_ETH && b == A_WETH) || (a == A_WETH && b == A_ETH)
  }

  /** What is left after taking out an amount, as far as it is there. */
  function Left(held: real, amount: real): real {
    if held < amount then 0.0 else held - amount
  }

  /** The holding of `x` after a move. Kraken fee credits are never used up. */
  function HeldAfter(ignored: set<Asset>, held: real, m: Move, x: Asset): real {
    match m
    case Gain(asset, amount, now) =>
      if SameBook(x, asset) || (ForkedFrom(asset, x, now) && x !in ignored) then held + amount else held
    case Loss(asset, amount, now, basis) =>
      if ForkedFrom(asset, x, now) || (SameBook(x, asset) && basis && asset != A_KFEE) then Left(held, amount) else held
  }

  function HeldAfterAll(ignored: set<Asset>, held: real, moves: seq<Move>, x: Asset): real
    decreases |moves|
  {
    if moves == [] then held else HeldAfterAll(ignored, HeldAfter(ignored, held, moves[0], x), moves[1..], x)
  }

  /** The price a call is booked at: the given one, one for the profit currency, else the oracle's. An
      acquisition whose price cannot be found is booked at zero unless the oracle was rate limited. */
  function KnownPrice(cfg: PotConfig, queries: nat, asset: Asset, now: Timestamp, given: Option<real>, acquired: bool)
    : Option<real>
  {
    if given.Some? then given
    else if asset == cfg.profitCurrency then Some(1.0)
    else
      match cfg.price(queries, asset, now)
      case Rate(p) => Some(p)
      case Fails(e) =>
        if acquired && (e.PriceQueryUnsupportedAsset? || e.RemoteError? || e == NoPriceForGivenTimestamp(false))
        then Some(0.0) else None
  }

  // ----- Forks -----

  lemma ForksIff(asset: Asset, fork: Asset, now: Timestamp)
    ensures fork in PreforkAssets(asset, now) <==> ForkedFrom(asset, fork, now)
    ensures fork in PreforkSpends(asset, now) <==> ForkedFrom(asset, fork, now)
  {
  }

  /** The forks of an asset are distinct and have books of their own. */
  ghost predicate ForkList(forks: seq<Asset>) {
    && (forall i, j :: 0 <= i < j < |forks| ==> forks[i] != forks[j])
    && (forall i :: 0 <= i < |forks| ==> forks[i] != A_ETH && forks[i] != A_WETH)
  }

  lemma ForkLists(asset: Asset, now: Timestamp)
    ensures ForkList(PreforkAssets(asset, now)) && ForkList(PreforkSpends(asset, now))
  {
  }

  lemma ForkTail(forks: seq<Asset>, x: Asset)
    requires ForkList(forks) && forks != []
    ensures ForkList(forks[1..]) && forks[0] !in forks[1..] && (SameBook(x, forks[0]) <==> x == forks[0])
    ensures x in forks <==> x == forks[0] || x in forks[1..]
  {
    assert forks == [forks[0]] + forks[1..];
  }

  // ----- Holdings under the cost basis operations -----

  lemma HeldOfNonNegative(cost: CostState, s: Settings, x: Asset)
    requires AllHealthy(cost, s)
    ensures HeldOf(cost, s, x) >= 0.0
  {
    hide Held;
    HealthyHere(cost, s, x);
    HeldNonNegative(BookOf(cost, s, x).lots);
  }

  lemma ObtainHolds(cost: CostState, s: Settings, asset: Asset, amount: real, now: Timestamp, rate: real, index: int,
                    x: Asset)
    requires AllHealthy(cost, s) && amount > 0.0
    ensures var cost1 := Obtain(cost, s, asset, amount, now, rate, index);
            && AllHealthy(cost1, s)
            && HeldOf(cost1, s, x) == HeldOf(cost, s, x) + if SameBook(x, asset) then amount else 0.0
  {
    hide AllHealthy, Obtain, Held, Alias;
    GotConserves(cost, s, Got(asset, amount, now, rate, index), x);
    ShareBookIff(asset, x);
  }

  lemma SpendHolds(cost: CostState, s: Settings, fiat: bool, asset: Asset, amount: real, now: Timestamp, taxable: bool,
                   x: Asset)
    requires AllHealthy(cost, s) && amount > 0.0
    ensures var r := Spend(cost, s, fiat, asset, amount, now, taxable);
            && r.error.None? && AllHealthy(r.state, s)
            && HeldOf(r.state, s, x)
               == if SameBook(x, asset) then Left(HeldOf(cost, s, x), amount) else HeldOf(cost, s, x)
  {
    hide AllHealthy, Spend, Held, Alias, Take, AmountUsed, CostUsed, Draw, AverageCost, Stock;
    GoneConserves(cost, s, Gone(asset, amount, now, fiat, taxable), x);
    ShareBookIff(asset, x);
    HealthyHere(cost, s, x);
    var b := BookOf(cost, s, x);
    UsedUp(b, amount);
  }

  lemma UsedUp(b: Book, amount: real)
    requires Healthy(b) && amount > 0.0
    ensures Held(b.lots) - AmountUsed(Take(b, amount).used) == Left(Held(b.lots), amount)
  {
    hide Take, Held, AmountUsed, Draw;
    TakeRefinesDraw(b, amount);
    TakeMissing(b, amount);
    DrawConserves(b.lots, amount);
  }

  lemma {:induction false} PreforksHold(cfg: PotConfig, st: PotState, forks: seq<Asset>, a: In, price: real, x: Asset)
    requires AllHealthy(st.cost, cfg.costs) && a.amount > 0.0 && ForkList(forks)
    ensures var st1 := AddPreforks(cfg, st, forks, a, price);
            && AllHealthy(st1.cost, cfg.costs) && st1.queries == st.queries
            && HeldOf(st1.cost, cfg.costs, x) == HeldOf(st.cost, cfg.costs, x)
               + if x in forks && x !in cfg.ignored then a.amount else 0.0
    decreases |forks|
  {
    hide AllHealthy, Obtain, HeldOf, SameBook, ForkList;
    if forks != [] {
      ForkTail(forks, x);
      if forks[0] in cfg.ignored {
        PreforksHold(cfg, st, forks[1..], a, price, x);
      } else {
        var e := ProcessedEvent(PreforkAcquisition, a.timestamp, forks[0], a.amount, 0.0, price, NO_PNL,
                                |st.processed|);
        var st1 := Record(st, e, NO_PNL, false);
        ObtainHolds(st1.cost, cfg.costs, forks[0], a.amount, a.timestamp, price, e.index, x);
        var cost := Obtain(st1.cost, cfg.costs, forks[0], a.amount, a.timestamp, price, e.index);
        PreforksHold(cfg, st1.(cost := cost), forks[1..], a, price, x);
      }
    }
  }

  lemma ReduceHolds(cost: CostState, s: Settings, fiat: bool, asset: Asset, amount: real, now: Timestamp, x: Asset)
    requires AllHealthy(cost, s) && amount > 0.0
    ensures var r := Reduce(cost, s, fiat, asset, amount, now);
            && r.error.None? && AllHealthy(r.state, s)
            && HeldOf(r.state, s, x)
               == if SameBook(x, asset) then Left(HeldOf(cost, s, x), amount) else HeldOf(cost, s, x)
  {
    hide AllHealthy, HeldOf, SameBook, Reduce;
    SpendHolds(cost, s, fiat, asset, amount, now, false, x);
  }

  lemma {:induction false} ReducesHold(cfg: PotConfig, cost: CostState, forks: seq<Asset>, amount: real, now: Timestamp,
                                       x: Asset)
    requires AllHealthy(cost, cfg.costs) && amount > 0.0 && ForkList(forks)
    ensures var r := ReducePreforks(cfg, cost, forks, amount, now);
            && r.error.None? && AllHealthy(r.state, cfg.costs)
            && HeldOf(r.state, cfg.costs, x)
               == if x in forks then Left(HeldOf(cost, cfg.costs, x), amount) else HeldOf(cost, cfg.costs, x)
    decreases |forks|
  {
    hide AllHealthy, Reduce, HeldOf, SameBook, ForkList;
    if forks != [] {
      ForkTail(forks, x);
      ReduceHolds(cost, cfg.costs, forks[0] in cfg.fiats, forks[0], amount, now, x);
      var r := Reduce(cost, cfg.costs, forks[0] in cfg.fiats, forks[0], amount, now);
      ReducesHold(cfg, r.state, forks[1..], amount, now, x);
    }
  }

  // ----- Pot calls -----

  function MoveOf(op: PotOp): Move {
    match op
    case InOp(a) => Gain(a.asset, a.amount, a.timestamp)
    case OutOp(o) => Loss(o.asset, o.amount, o.timestamp, o.basis)
  }

  function PriceOf(cfg: PotConfig, st: PotState, op: PotOp): Option<real> {
    match op
    case InOp(a) => KnownPrice(cfg, st.queries, a.asset, a.timestamp, a.given, true)
    case OutOp(o) => KnownPrice(cfg, st.queries, o.asset, o.timestamp, o.given, false)
  }

  lemma InMoves(cfg: PotConfig, st: PotState, a: In, x: Asset)
    requires AllHealthy(st.cost, cfg.costs) && a.amount > 0.0
    ensures var r := AddIn(cfg, st, a);
            && (r.error.None? <==> PriceOf(cfg, st, InOp(a)).Some?)
            && AllHealthy(r.state.cost, cfg.costs)
            && HeldOf(r.state.cost, cfg.costs, x)
               == if r.error.Some? then HeldOf(st.cost, cfg.costs, x)
                  else HeldAfter(cfg.ignored, HeldOf(st.cost, cfg.costs, x), MoveOf(InOp(a)), x)
  {
    hide AllHealthy, Obtain, AddPreforks, CalculatePnl, HeldOf, PreforkAssets, ForkList, ForkedFrom;
    var st0 := if a.given.Some? then st else AfterAsking(cfg, st, a.asset);
    var reply := InPrice(cfg, st, a);
    if reply.Rate? {
      var forks := PreforkAssets(a.asset, a.timestamp);
      ForkLists(a.asset, a.timestamp);
      ForksIff(a.asset, x, a.timestamp);
      ForksApart(a.asset, x, a.timestamp);
      PreforksHold(cfg, st0, forks, a, reply.price, x);
      var st1 := AddPreforks(cfg, st0, forks, a, reply.price);
      ObtainHolds(st1.cost, cfg.costs, a.asset, a.amount, a.timestamp, reply.price, |st1.processed|, x);
    }
  }

  lemma ForksApart(asset: Asset, x: Asset, now: Timestamp)
    ensures ForkedFrom(asset, x, now) ==> !SameBook(x, asset)
  {
  }

  lemma OutMoves(cfg: PotConfig, st: PotState, a: Out, x: Asset)
    requires AllHealthy(st.cost, cfg.costs) && a.amount > 0.0
    ensures var r := AddOut(cfg, st, a);
            && (r.error.None? <==> PriceOf(cfg, st, OutOp(a)).Some?)
            && AllHealthy(r.state.cost, cfg.costs)
            && (r.error.None? ==>
                  HeldOf(r.state.cost, cfg.costs, x)
                  == HeldAfter(cfg.ignored, HeldOf(st.cost, cfg.costs, x), MoveOf(OutOp(a)), x))
  {
    hide AllHealthy, ReducePreforks, HeldOf, PreforkSpends, ForkList, ForkedFrom, Spend, OutTaxable, AddOut, Asked,
         PriceOf;
    var forks := PreforkSpends(a.asset, a.timestamp);
    ForkLists(a.asset, a.timestamp);
    ForksIff(a.asset, x, a.timestamp);
    ForksApart(a.asset, x, a.timestamp);
    ReducesHold(cfg, st.cost, forks, a.amount, a.timestamp, x);
    var cost := ReducePreforks(cfg, st.cost, forks, a.amount, a.timestamp).state;
    SpendHolds(cost, cfg.costs, a.asset in cfg.fiats, a.asset, a.amount, a.timestamp, OutTaxable(cfg, a), x);
    OutSteps(cfg, st, a);
  }

  /** The cost basis and error a non-empty spend ends with, by its price. */
  lemma OutSteps(cfg: PotConfig, st: PotState, a: Out)
    requires a.amount != 0.0
    ensures var r := AddOut(cfg, st, a);
            var pre := ReducePreforks(cfg, st.cost, PreforkSpends(a.asset, a.timestamp), a.amount, a.timestamp);
            var spent := Spend(pre.state, cfg.costs, a.asset in cfg.fiats, a.asset, a.amount, a.timestamp,
                               OutTaxable(cfg, a));
            pre.error.None? ==>
              if PriceOf(cfg, st, OutOp(a)).None? then r.error.Some? && r.state.cost == pre.state
              else if a.basis && a.asset != A_KFEE then r.error == spent.error && r.state.cost == spent.state
              else r.error.None? && r.state.cost == pre.state
  {
    hide ReducePreforks, CalculatePnl, Spend, PreforkSpends, OutTaxable;
  }

  /** A pot call raises exactly when its price cannot be found, keeps the books healthy, and otherwise
      moves every holding as its asset, amount and date say. */
  lemma CallMoves(cfg: PotConfig, st: PotState, op: PotOp, x: Asset)
    requires AllHealthy(st.cost, cfg.costs) && OpAmount(op) >= 0.0
    ensures var r := ApplyOp(cfg, st, op);
            && (r.error.None? <==> OpAmount(op) == 0.0 || PriceOf(cfg, st, op).Some?)
            && AllHealthy(r.state.cost, cfg.costs)
            && (r.error.None? ==>
                  HeldOf(r.state.cost, cfg.costs, x)
                  == HeldAfter(cfg.ignored, HeldOf(st.cost, cfg.costs, x), MoveOf(op), x))
  {
    hide AllHealthy, HeldOf, PriceOf, AddIn, AddOut, ForkedFrom, SameBook;
    HeldOfNonNegative(st.cost, cfg.costs, x);
    if OpAmount(op) == 0.0 {
      EmptyCall(cfg, st, op);
    } else {
      match op
      case InOp(a) => InMoves(cfg, st, a, x);
      case OutOp(o) => OutMoves(cfg, st, o, x);
    }
  }

  lemma EmptyCall(cfg: PotConfig, st: PotState, op: PotOp)
    requires OpAmount(op) == 0.0
    ensures ApplyOp(cfg, st, op) == PotResult(st, 0.0, 0.0, None)
  {
  }

  // ----- Booked events -----

  /** The event booked for a call: its asset, date, type, whole amount and price. */
  ghost predicate IsBooking(e: ProcessedEvent, kind: EventType, asset: Asset, amount: real, now: Timestamp,
                            price: real) {
    e.kind == kind && e.asset == asset && e.taxable + e.free == amount && e.timestamp == now && e.price == price
  }

  /** An acquisition books its event last, all of it taxable or all of it free. */
  lemma InBooks(cfg: PotConfig, st: PotState, a: In)
    requires a.amount != 0.0 && PriceOf(cfg, st, InOp(a)).Some?
    ensures var ev := AddIn(cfg, st, a).state.processed;
            && |ev| > |st.processed|
            && IsBooking(ev[|ev| - 1], a.kind, a.asset, a.amount, a.timestamp, PriceOf(cfg, st, InOp(a)).value)
            && ev[|ev| - 1].taxable == if a.taxable then a.amount else 0.0
  {
    hide Obtain, AddPreforks, CalculatePnl, PreforkAssets;
    var st0 := if a.given.Some? then st else AfterAsking(cfg, st, a.asset);
    PreforksAppend(cfg, st0, PreforkAssets(a.asset, a.timestamp), a, InPrice(cfg, st, a).price);
  }

  /** A spend books exactly one event, with the taxable and free amount it returns. */
  lemma OutBooks(cfg: PotConfig, st: PotState, a: Out)
    requires a.amount != 0.0 && PriceOf(cfg, st, OutOp(a)).Some? && AddOut(cfg, st, a).error.None?
    ensures var ev := AddOut(cfg, st, a).state.processed;
            && |ev| == |st.processed| + 1
            && IsBooking(ev[|ev| - 1], a.kind, a.asset, a.amount, a.timestamp, PriceOf(cfg, st, OutOp(a)).value)
            && ev[|ev| - 1].taxable == AddOut(cfg, st, a).taxable && ev[|ev| - 1].free == AddOut(cfg, st, a).free
  {
    hide ReducePreforks, CalculatePnl, Spend, PreforkSpends, OutTaxable;
  }

  // ----- History entries -----

  /** A history entry with a direction and a rule that is no swap, without callback: what comes in is
      acquired, what goes out is spent, at the event's date and amount, and one event is reported. */
  lemma EntryMoves(w: World, st: PotState, events: seq<Event>, pos: nat, e: Event, rule: Rule, x: Asset)
    requires pos <= |events| && AllHealthy(st.cost, w.cfg.costs) && e.amount > 0.0
    requires RuleFor(w.rules, w.ident, e) == Some(rule) && !rule.swap && !HasCallback(w, e)
    requires e.direction == Some(Inward) || e.direction == Some(Outward)
    requires KnownPrice(w.cfg, st.queries, e.asset, e.timestamp, None, e.direction == Some(Inward)).Some?
    ensures var r := Process(w, st, events, pos, e);
            var price := KnownPrice(w.cfg, st.queries, e.asset, e.timestamp, None, e.direction == Some(Inward)).value;
            var move := if e.direction == Some(Inward) then Gain(e.asset, e.amount, e.timestamp)
                        else Loss(e.asset, e.amount, e.timestamp, rule.basis);
            && r.error.None? && r.count == 1 && r.pos == pos
            && HeldOf(r.state.cost, w.cfg.costs, x)
               == HeldAfter(w.cfg.ignored, HeldOf(st.cost, w.cfg.costs, x), move, x)
            && |r.state.processed| > |st.processed|
            && IsBooking(r.state.processed[|r.state.processed| - 1], TransactionEvent, e.asset, e.amount, e.timestamp,
                         price)
  {
    hide AllHealthy, HeldOf, HeldAfter, KnownPrice, AddIn, AddOut, RuleFor, IsBooking;
    var op := ChangeOp(e, rule);
    CallMoves(w.cfg, st, op, x);
    match op
    case InOp(a) => InBooks(w.cfg, st, a);
    case OutOp(o) => OutBooks(w.cfg, st, o);
  }

  /** The plain consequence: an inward event raises the holding of its asset by its amount, an outward
      one with cost basis lowers it by as much of its amount as is held. */
  lemma EntryChangesHolding(w: World, st: PotState, events: seq<Event>, pos: nat, e: Event, rule: Rule)
    requires pos <= |events| && AllHealthy(st.cost, w.cfg.costs) && e.amount > 0.0
    requires RuleFor(w.rules, w.ident, e) == Some(rule) && !rule.swap && !HasCallback(w, e)
    requires KnownPrice(w.cfg, st.queries, e.asset, e.timestamp, None, e.direction == Some(Inward)).Some?
    ensures var before := HeldOf(st.cost, w.cfg.costs, e.asset);
            var after := HeldOf(Process(w, st, events, pos, e).state.cost, w.cfg.costs, e.asset);
            && (e.direction == Some(Inward) ==> after == before + e.amount)
            && (e.direction == Some(Outward) && rule.basis && e.asset != A_KFEE ==>
                  after == if before < e.amount then 0.0 else before - e.amount)
            && (e.direction.None? || e.direction == Some(Neutral) ==> after == before)
  {
    hide AllHealthy, HeldOf, KnownPrice, RuleFor, Process;
    if e.direction == Some(Inward) || e.direction == Some(Outward) {
      EntryMoves(w, st, events, pos, e, rule, e.asset);
    } else {
      Undirected(w, st, events, pos, e);
    }
  }

  lemma Undirected(w: World, st: PotState, events: seq<Event>, pos: nat, e: Event)
    requires pos <= |events| && (e.direction.None? || e.direction.value.Neutral?)
    ensures Process(w, st, events, pos, e) == Processed(st, pos, 1, None)
  {
  }

  // ----- Swaps -----

  /** The moves of a swap, in order: the out leg first, the fee before the in leg exactly if it is paid
      in the asset sold or comes earlier in the transaction. */
  function SwapMoves(now: Timestamp, out: Event, inn: Event, fee: Option<Event>): seq<Move> {
    var sold, bought := Loss(out.asset, out.amount, now, true), Gain(inn.asset, inn.amount, now);
    if fee.None? then [sold, bought]
    else
      var paid := Loss(fee.value.asset, fee.value.amount, now, true);
      if fee.value.asset == out.asset || fee.value.sequenceIndex < inn.sequenceIndex then [sold, paid, bought]
      else [sold, bought, paid]
  }

  lemma {:induction false} ScriptMoves(cfg: PotConfig, st: PotState, ops: seq<PotOp>, moves: seq<Move>, x: Asset)
    requires AllHealthy(st.cost, cfg.costs) && |moves| == |ops|
    requires forall i :: 0 <= i < |ops| ==> OpAmount(ops[i]) >= 0.0 && moves[i] == MoveOf(ops[i])
    requires RunScript(cfg, st, ops, None).error.None?
    ensures HeldOf(RunScript(cfg, st, ops, None).state.cost, cfg.costs, x)
         == HeldAfterAll(cfg.ignored, HeldOf(st.cost, cfg.costs, x), moves, x)
    decreases |ops|
  {
    hide AllHealthy, HeldOf, HeldAfter, PriceOf, ApplyOp, MoveOf, OpAmount;
    if ops != [] {
      CallMoves(cfg, st, ops[0], x);
      ScriptMoves(cfg, ApplyOp(cfg, st, ops[0]).state, ops[1..], moves[1..], x);
    }
  }

  /** A priced swap that does not raise: the out asset falls, the in asset rises, the fee is paid, in this
      order, and every holding follows. */
  lemma SwapChangesHoldings(cfg: PotConfig, st: PotState, pos: nat, now: Timestamp, out: Event, inn: Event,
                            fee: Option<Event>, rule: Rule, x: Asset)
    requires AllHealthy(st.cost, cfg.costs)
    requires out.amount >= 0.0 && inn.amount >= 0.0 && (fee.Some? ==> fee.value.amount >= 0.0)
    requires SwapPricesFor(cfg, st, now, out, inn, fee).0.Prices?
    requires ProcessSwap(cfg, st, pos, now, out, inn, fee, rule).error.None?
    ensures HeldOf(ProcessSwap(cfg, st, pos, now, out, inn, fee, rule).state.cost, cfg.costs, x)
         == HeldAfterAll(cfg.ignored, HeldOf(st.cost, cfg.costs, x), SwapMoves(now, out, inn, fee), x)
  {
    hide AllHealthy, HeldOf, HeldAfter, SwapPricesFor, AddIn, AddOut, RunScript;
    var (p, st1) := SwapPricesFor(cfg, st, now, out, inn, fee);
    SameCost(cfg, st, now, out, inn, fee);
    EmptyLegUnpriced(cfg, st, now, out, inn, fee);
    var spend := SwapOut(now, out, rule, p.outPrice);
    CallMoves(cfg, st1, OutOp(spend), x);
    var spent := AddOut(cfg, st1, spend);
    var queue := SwapQueue(cfg, now, out, inn, fee, p, spent.taxable);
    var moves := SwapMoves(now, out, inn, fee);
    ScriptMoves(cfg, spent.state, queue, moves[1..], x);
  }

  lemma SameCost(cfg: PotConfig, st: PotState, now: Timestamp, out: Event, inn: Event, fee: Option<Event>)
    ensures SwapPricesFor(cfg, st, now, out, inn, fee).1.cost == st.cost
    ensures SwapPricesFor(cfg, st, now, out, inn, fee).1.processed == st.processed
  {
    hide PricesForSwap;
  }

  /** The events of a priced swap: the out leg comes first, at the out price; the in leg comes last, or
      before the fee, at the in price. The acquisition is never taxable, the sale as the rule says. */
  lemma SwapBooks(cfg: PotConfig, st: PotState, pos: nat, now: Timestamp, out: Event, inn: Event, fee: Option<Event>,
                  rule: Rule)
    requires SwapPricesFor(cfg, st, now, out, inn, fee).0.Prices?
    requires ProcessSwap(cfg, st, pos, now, out, inn, fee, rule).error.None?
    ensures var p := SwapPricesFor(cfg, st, now, out, inn, fee).0;
            var ev := ProcessSwap(cfg, st, pos, now, out, inn, fee, rule).state.processed;
            var feeLast := fee.Some? && fee.value.amount != 0.0 && fee.value.asset != out.asset
                           && fee.value.sequenceIndex >= inn.sequenceIndex;
            var last := |ev| - if feeLast then 2 else 1;
            && |st.processed| < last < |ev|
            && IsBooking(ev[|st.processed|], TransactionEvent, out.asset, out.amount, now, p.outPrice)
            && IsBooking(ev[last], TransactionEvent, inn.asset, inn.amount, now, p.inPrice)
            && ev[last].pnl == NO_PNL && ev[last].taxable == 0.0
            && (!rule.taxable ==> ev[|st.processed|].pnl == NO_PNL)
  {
    hide SwapPricesFor, AddIn, AddOut, RunScript, IsBooking, KnownPrice;
    var (p, st1) := SwapPricesFor(cfg, st, now, out, inn, fee);
    SameCost(cfg, st, now, out, inn, fee);
    EmptyLegUnpriced(cfg, st, now, out, inn, fee);
    var spend, acquire := SwapOut(now, out, rule, p.outPrice), SwapIn(now, inn, p.inPrice);
    Given(cfg, st1, spend);
    OutBooks(cfg, st1, spend);
    FeeBooked(cfg, st1, spend);
    var spent := AddOut(cfg, st1, spend);
    if fee.None? {
      InLegBooks(cfg, spent.state, acquire);
      OneCall(cfg, spent.state, InOp(acquire));
      KeepsEarlier(cfg, spent.state, InOp(acquire), |st.processed|);
    } else {
      var pay := SwapFee(cfg, now, out, inn, fee.value, p, spent.taxable);
      if FeeFirst(out, inn, fee.value) {
        CallsInTurn(cfg, spent.state, OutOp(pay), InOp(acquire));
        var st2 := AddOut(cfg, spent.state, pay).state;
        KeepsEarlier(cfg, spent.state, OutOp(pay), |st.processed|);
        InLegBooks(cfg, st2, acquire);
        KeepsEarlier(cfg, st2, InOp(acquire), |st.processed|);
      } else {
        CallsInTurn(cfg, spent.state, InOp(acquire), OutOp(pay));
        var st2 := AddIn(cfg, spent.state, acquire).state;
        InLegBooks(cfg, spent.state, acquire);
        KeepsEarlier(cfg, spent.state, InOp(acquire), |st.processed|);
        KeepsEarlier(cfg, st2, OutOp(pay), |st.processed|);
        KeepsEarlier(cfg, st2, OutOp(pay), |st2.processed| - 1);
        SpendAppends(cfg, st2, pay);
      }
    }
  }

  /** The fee of a swap is booked as a fee, right after the out leg or last: at one for the profit currency,
      at the price of the leg it shares its asset with, else at the oracle's. If fees are part of the cost
      basis it counts nothing; otherwise a fee without cost basis of its own is taxable in the proportion
      in which the asset sold is. */
  lemma SwapFeeBooks(cfg: PotConfig, st: PotState, pos: nat, now: Timestamp, out: Event, inn: Event, fee: Event,
                     rule: Rule)
    requires SwapPricesFor(cfg, st, now, out, inn, Some(fee)).0.Prices? && fee.amount != 0.0
    requires ProcessSwap(cfg, st, pos, now, out, inn, Some(fee), rule).error.None?
    ensures var (p, asked) := SwapPricesFor(cfg, st, now, out, inn, Some(fee));
            var ev := ProcessSwap(cfg, st, pos, now, out, inn, Some(fee), rule).state.processed;
            var feeLast := fee.asset != out.asset && fee.sequenceIndex >= inn.sequenceIndex;
            var given := if fee.asset == cfg.profitCurrency then Some(1.0)
                         else if fee.asset == inn.asset then Some(p.inPrice)
                         else if fee.asset == out.asset then Some(p.outPrice)
                         else None;
            var price := KnownPrice(cfg, asked.queries, fee.asset, now, given, false);
            var at := if feeLast then |ev| - 1 else |st.processed| + 1;
            && price.Some? && |st.processed| < at < |ev|
            && IsBooking(ev[at], FeeEvent, fee.asset, fee.amount, now, price.value)
            && (cfg.includeFees ==> ev[at].pnl == NO_PNL && ev[at].taxable == fee.amount)
            && (!cfg.includeFees && (fee.asset in cfg.fiats || fee.asset == A_KFEE) ==>
                  ev[at].taxable == (ev[|st.processed|].taxable / out.amount) * fee.amount)
  {
    hide SwapPricesFor, AddIn, AddOut, RunScript, IsBooking, KnownPrice, FeeFirst;
    var (p, st1) := SwapPricesFor(cfg, st, now, out, inn, Some(fee));
    SameCost(cfg, st, now, out, inn, Some(fee));
    EmptyLegUnpriced(cfg, st, now, out, inn, Some(fee));
    FeeOrder(out, inn, fee);
    var spend, acquire := SwapOut(now, out, rule, p.outPrice), SwapIn(now, inn, p.inPrice);
    Given(cfg, st1, spend);
    OutBooks(cfg, st1, spend);
    AsksNothing(cfg, st1, OutOp(spend));
    var spent := AddOut(cfg, st1, spend);
    var pay := SwapFee(cfg, now, out, inn, fee, p, spent.taxable);
    if FeeFirst(out, inn, fee) {
      CallsInTurn(cfg, spent.state, OutOp(pay), InOp(acquire));
      FeeBooked(cfg, spent.state, pay);
      var st2 := AddOut(cfg, spent.state, pay).state;
      KeepsEarlier(cfg, st2, InOp(acquire), |st.processed| + 1);
      KeepsEarlier(cfg, spent.state, OutOp(pay), |st.processed|);
      KeepsEarlier(cfg, st2, InOp(acquire), |st.processed|);
    } else {
      CallsInTurn(cfg, spent.state, InOp(acquire), OutOp(pay));
      AsksNothing(cfg, spent.state, InOp(acquire));
      InLegBooks(cfg, spent.state, acquire);
      var st2 := AddIn(cfg, spent.state, acquire).state;
      FeeBooked(cfg, st2, pay);
      KeepsEarlier(cfg, spent.state, InOp(acquire), |st.processed|);
      KeepsEarlier(cfg, st2, OutOp(pay), |st.processed|);
    }
  }

  lemma FeeOrder(out: Event, inn: Event, fee: Event)
    ensures FeeFirst(out, inn, fee) <==> fee.asset == out.asset || fee.sequenceIndex < inn.sequenceIndex
  {
  }

  /** A spend that succeeds is booked at its price, with no PnL unless it is taxable, and by the given ratio
      unless it has a cost basis. */
  lemma FeeBooked(cfg: PotConfig, st: PotState, a: Out)
    requires a.amount != 0.0 && AddOut(cfg, st, a).error.None?
    ensures PriceOf(cfg, st, OutOp(a)).Some?
    ensures var ev := AddOut(cfg, st, a).state.processed;
            && |ev| == |st.processed| + 1
            && IsBooking(ev[|ev| - 1], a.kind, a.asset, a.amount, a.timestamp, PriceOf(cfg, st, OutOp(a)).value)
            && (!a.taxable ==> ev[|ev| - 1].pnl == NO_PNL)
            && (!a.taxable || !a.basis || a.asset in cfg.fiats || a.asset == A_KFEE ==>
                  ev[|ev| - 1].taxable == a.ratio * a.amount)
  {
    hide ReducePreforks, CalculatePnl, PreforkSpends, Calculate, Reduce;
  }

  lemma {:induction false} PreforksAskNothing(cfg: PotConfig, st: PotState, forks: seq<Asset>, a: In, price: real)
    ensures AddPreforks(cfg, st, forks, a, price).queries == st.queries
    decreases |forks|
  {
    hide Obtain;
    if forks != [] {
      if forks[0] in cfg.ignored {
        PreforksAskNothing(cfg, st, forks[1..], a, price);
      } else {
        var e := ProcessedEvent(PreforkAcquisition, a.timestamp, forks[0], a.amount, 0.0, price, NO_PNL,
                                |st.processed|);
        var st1 := Record(st, e, NO_PNL, false);
        var cost := Obtain(st1.cost, cfg.costs, forks[0], a.amount, a.timestamp, price, e.index);
        PreforksAskNothing(cfg, st1.(cost := cost), forks[1..], a, price);
      }
    }
  }

  /** A call with a given price asks the oracle nothing. */
  lemma AsksNothing(cfg: PotConfig, st: PotState, op: PotOp)
    requires match op case InOp(a) => a.given.Some? case OutOp(o) => o.given.Some?
    ensures ApplyOp(cfg, st, op).state.queries == st.queries
  {
    hide Obtain, AddPreforks, CalculatePnl, ReducePreforks, Spend, PreforkSpends, PreforkAssets, OutTaxable;
    match op
    case InOp(a) => PreforksAskNothing(cfg, st, PreforkAssets(a.asset, a.timestamp), a, a.given.value);
    case OutOp(o) =>
  }

  lemma Given(cfg: PotConfig, st: PotState, a: Out)
    requires a.given.Some?
    ensures PriceOf(cfg, st, OutOp(a)) == a.given
  {
  }

  lemma InLegBooks(cfg: PotConfig, st: PotState, a: In)
    requires a.amount != 0.0 && a.given.Some?
    ensures var r := AddIn(cfg, st, a);
            && r.error.None? && |r.state.processed| > |st.processed|
            && IsBooking(r.state.processed[|r.state.processed| - 1], a.kind, a.asset, a.amount, a.timestamp,
                         a.given.value)
            && (!a.taxable ==> r.state.processed[|r.state.processed| - 1].pnl == NO_PNL
                               && r.state.processed[|r.state.processed| - 1].taxable == 0.0)
  {
    hide Obtain, AddPreforks, CalculatePnl, PreforkAssets, IsBooking;
    InBooks(cfg, st, a);
  }

  lemma OneCall(cfg: PotConfig, st: PotState, op: PotOp)
    ensures var r := ApplyOp(cfg, st, op);
            RunScript(cfg, st, [op], None) == ScriptResult(r.state, r.error)
  {
    hide ApplyOp;
    var r := ApplyOp(cfg, st, op);
    assert [op][1..] == [];
    assert r.error.None? ==> RunScript(cfg, r.state, [], None) == ScriptResult(r.state, None);
  }

  lemma CallsInTurn(cfg: PotConfig, st: PotState, first: PotOp, second: PotOp)
    requires RunScript(cfg, st, [first, second], None).error.None?
    ensures ApplyOp(cfg, st, first).error.None?
    ensures var r := ApplyOp(cfg, ApplyOp(cfg, st, first).state, second);
            r.error.None? && RunScript(cfg, st, [first, second], None).state == r.state
  {
    hide ApplyOp;
    FirstCall(cfg, st, first, second);
    TwoCalls(cfg, st, first, second);
  }

  lemma FirstCall(cfg: PotConfig, st: PotState, first: PotOp, second: PotOp)
    requires RunScript(cfg, st, [first, second], None).error.None?
    ensures ApplyOp(cfg, st, first).error.None?
  {
    hide ApplyOp;
  }

  lemma KeepsEarlier(cfg: PotConfig, st: PotState, op: PotOp, i: nat)
    requires i < |st.processed|
    ensures var ev := ApplyOp(cfg, st, op).state.processed;
            i < |ev| && ev[i] == st.processed[i]
  {
    hide ApplyOp;
    OpAppends(cfg, st, op);
  }

  lemma SpendAppends(cfg: PotConfig, st: PotState, a: Out)
    requires AddOut(cfg, st, a).error.None?
    ensures |AddOut(cfg, st, a).state.processed| == |st.processed| + if a.amount == 0.0 then 0 else 1
  {
    hide ReducePreforks, CalculatePnl, Spend, PreforkSpends, OutTaxable;
  }

  // ----- The prices of a swap -----

  /** With an oracle that always answers the same for an asset, the pot prices a swap from its answers for
      the assets of the two legs and of the fee, with one for the profit currency. */
  lemma PotPricesSwap(cfg: PotConfig, st: PotState, now: Timestamp, out: Event, inn: Event, fee: Option<Event>,
                      answer: Asset -> PriceReply)
    requires answer(cfg.profitCurrency) == Rate(1.0)
    requires forall n: nat, asset: Asset :: asset != cfg.profitCurrency ==> cfg.price(n, asset, now) == answer(asset)
    requires out.amount != 0.0 && inn.amount != 0.0
    ensures SwapPricesFor(cfg, st, now, out, inn, fee).0
         == PricesForSwap(Exact(),
                          Swap(inn.amount, inn.asset in cfg.fiats, answer(inn.asset),
                               out.amount, out.asset in cfg.fiats, answer(out.asset),
                               if fee.Some? then Some(fee.value.amount) else None, cfg.includeFees,
                               if fee.Some? then answer(fee.value.asset) else Rate(0.0)))
  {
    hide PricesForSwap;
    var x := AskedSwap(cfg, st, now, inn.amount, inn.asset, out.amount, out.asset, FeeInfo(fee)).0;
    var y := Swap(inn.amount, inn.asset in cfg.fiats, answer(inn.asset),
                  out.amount, out.asset in cfg.fiats, answer(out.asset),
                  if fee.Some? then Some(fee.value.amount) else None, cfg.includeFees,
                  if fee.Some? then answer(fee.value.asset) else Rate(0.0));
    UnaskedIrrelevant(x, y);
  }

  /** Replies that pricing does not need do not matter. */
  lemma UnaskedIrrelevant(x: Swap, y: Swap)
    requires y.(inReply := x.inReply, feeReply := x.feeReply) == x
    requires LegRaises(x.outReply, false) || x.inReply == y.inReply
    requires || LegRaises(x.outReply, false) || LegRaises(x.inReply, x.outReply.Fails?)
             || !(x.fee.Some? && x.includeFees) || x.feeReply == y.feeReply
    ensures PricesForSwap(Exact(), x) == PricesForSwap(Exact(), y)
  {
    hide Times, Over;
  }
}
