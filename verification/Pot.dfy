/** The accounting pot: processed events, profit-and-loss totals and the cost basis, changed by
    asset acquisitions and spends. */
module Pot {
  import opened Common
  import opened CostBasis
  import opened CostBasisCalculator
  import opened SwapPricing
  import opened Sums

  datatype EventType =
    | TradeEvent | FeeEvent | AssetMovementEvent | MarginPositionEvent | LoanEvent
    | PreforkAcquisition | StakingEvent | HistoryEvent | TransactionEvent

  datatype PNL = PNL(free: real, taxable: real) {
    function Add(other: PNL): PNL {
      PNL(free + other.free, taxable + other.taxable)
    }

    function Sub(other: PNL): PNL {
      PNL(free - other.free, taxable - other.taxable)
    }
  }

  const NO_PNL := PNL(0.0, 0.0)

  datatype ProcessedEvent = ProcessedEvent(kind: EventType, timestamp: Timestamp, asset: Asset, taxable: real,
                                           free: real, price: real, pnl: PNL, index: int)

  /** Settings of a run and the world outside it. The price oracle may answer every query
      differently: its first argument counts the queries made. */
  datatype PotConfig = PotConfig(startTs: Timestamp, endTs: Timestamp, profitCurrency: Asset, includeFees: bool,
                                 costs: Settings, ignored: set<Asset>, fiats: set<Asset>,
                                 price: (nat, Asset, Timestamp) -> PriceReply)

  datatype PotState = PotState(cost: CostState, pnls: map<EventType, PNL>, processed: seq<ProcessedEvent>,
                               queries: nat)

  datatype PotResult = PotResult(state: PotState, free: real, taxable: real, error: Option<Error>)

  datatype In = In(kind: EventType, timestamp: Timestamp, asset: Asset, amount: real, taxable: bool,
                   given: Option<real>)

  datatype Out = Out(kind: EventType, timestamp: Timestamp, asset: Asset, amount: real, taxable: bool,
                     given: Option<real>, ratio: real, entire: bool, basis: bool)

  const ETH_DAO_FORK_TS: Timestamp := 1469020840
  const BTC_BCH_FORK_TS: Timestamp := 1501593374
  const BCH_BSV_FORK_TS: Timestamp := 1542304352

  const EMPTY_POT := PotState(NO_HISTORY, map[], [], 0)

  // ----- Prices -----

  function Asked(cfg: PotConfig, st: PotState, asset: Asset, now: Timestamp): PriceReply {
    if asset == cfg.profitCurrency then Rate(1.0) else cfg.price(st.queries, asset, now)
  }

  function AfterAsking(cfg: PotConfig, st: PotState, asset: Asset): PotState {
    if asset == cfg.profitCurrency then st else st.(queries := st.queries + 1)
  }

  // ----- Profit and loss of one event -----

  /** `calculate_pnl`: the whole value as an expense if asked for, plus value minus bought cost. */
  function CalculatePnl(e: ProcessedEvent, info: Option<CostBasisInfo>, fiat: bool, entire: bool, basis: bool): PNL {
    var taxableValue, freeValue := e.taxable * e.price, e.free * e.price;
    var start := if entire then NO_PNL.Sub(PNL(0.0, taxableValue + freeValue)) else NO_PNL;
    if fiat || !basis then start
    else
      var taxableCost := if info.Some? then info.value.taxableCost else 0.0;
      var freeCost := if info.Some? then info.value.taxfreeCost else 0.0;
      start.Add(PNL(freeValue - freeCost, taxableValue - taxableCost))
  }

  function TotalOf(pnls: map<EventType, PNL>, kind: EventType): PNL {
    if kind in pnls then pnls[kind] else NO_PNL
  }

  /** The event as it is booked. */
  function Booking(e: ProcessedEvent, pnl: PNL, counts: bool): ProcessedEvent {
    e.(pnl := if counts then pnl else NO_PNL)
  }

  /** Appends an event with its final PnL and, if it counts, adds the PnL to its type's total. */
  function Record(st: PotState, e: ProcessedEvent, pnl: PNL, counts: bool): PotState {
    st.(pnls := if counts then st.pnls[e.kind := TotalOf(st.pnls, e.kind).Add(pnl)] else st.pnls,
        processed := st.processed + [Booking(e, pnl, counts)])
  }

  // ----- Acquisitions -----

  function PreforkAssets(asset: Asset, now: Timestamp): seq<Asset> {
    if asset == A_ETH && now < ETH_DAO_FORK_TS then [A_ETC]
    else if asset == A_BTC && now < BTC_BCH_FORK_TS then [A_BCH, A_BSV]
    else if asset == A_BCH && now < BCH_BSV_FORK_TS then [A_BSV]
    else []
  }

  function AddPreforks(cfg: PotConfig, st: PotState, forks: seq<Asset>, a: In, price: real): PotState
    decreases |forks|
  {
    if forks == [] then st
    else if forks[0] in cfg.ignored then AddPreforks(cfg, st, forks[1..], a, price)
    else
      var e := ProcessedEvent(PreforkAcquisition, a.timestamp, forks[0], a.amount, 0.0, price, NO_PNL, |st.processed|);
      var st1 := Record(st, e, NO_PNL, false);
      AddPreforks(cfg, st1.(cost := Obtain(st1.cost, cfg.costs, forks[0], a.amount, a.timestamp, price, e.index)),
                  forks[1..], a, price)
  }

  /** The price of an acquisition: unknown prices count as zero unless the oracle was rate limited. */
  function InPrice(cfg: PotConfig, st: PotState, a: In): PriceReply {
    if a.given.Some? then Rate(a.given.value)
    else
      match Asked(cfg, st, a.asset, a.timestamp)
      case Rate(p) => Rate(p)
      case Fails(e) =>
        if e.PriceQueryUnsupportedAsset? || e.RemoteError? || e == NoPriceForGivenTimestamp(false) then Rate(0.0)
        else Fails(e)
  }

  function AddIn(cfg: PotConfig, st: PotState, a: In): PotResult {
    if a.amount == 0.0 then PotResult(st, 0.0, 0.0, None)
    else
      var st0 := if a.given.Some? then st else AfterAsking(cfg, st, a.asset);
      var reply := InPrice(cfg, st, a);
      if reply.Fails? then PotResult(st0, 0.0, 0.0, Some(reply.error))
      else
        var st1 := AddPreforks(cfg, st0, PreforkAssets(a.asset, a.timestamp), a, reply.price);
        var taxable, free := if a.taxable then a.amount else 0.0, if a.taxable then 0.0 else a.amount;
        var e := ProcessedEvent(a.kind, a.timestamp, a.asset, taxable, free, reply.price, NO_PNL, |st1.processed|);
        var st2 := st1.(cost := Obtain(st1.cost, cfg.costs, a.asset, taxable + free, a.timestamp, reply.price,
                                       e.index));
        var pnl := CalculatePnl(e, None, a.asset in cfg.fiats, false, true);
        PotResult(Record(st2, e, pnl, a.timestamp >= cfg.startTs && a.taxable), free, taxable, None)
  }

  // ----- Spends -----

  /** Assets whose holdings shrink along with a spend before their fork. */
  function PreforkSpends(asset: Asset, now: Timestamp): seq<Asset> {
    (if asset == A_ETH && now < ETH_DAO_FORK_TS then [A_ETC] else [])
    + (if asset == A_BTC && now < BTC_BCH_FORK_TS then [A_BCH, A_BSV] else [])
    + (if asset == A_BCH && now < BCH_BSV_FORK_TS then [A_BSV] else [])
  }

  function ReducePreforks(cfg: PotConfig, cost: CostState, forks: seq<Asset>, amount: real,
                          now: Timestamp): ReduceResult
    decreases |forks|
  {
    if forks == [] then ReduceResult(cost, true, None)
    else
      var r := Reduce(cost, cfg.costs, forks[0] in cfg.fiats, forks[0], amount, now);
      if r.error.Some? then r else ReducePreforks(cfg, r.state, forks[1..], amount, now)
  }

  /** Buying with fiat and spending kraken fee credits are never taxable. */
  predicate OutTaxable(cfg: PotConfig, a: Out) {
    a.taxable && !(a.asset in cfg.fiats && a.kind == TradeEvent) && a.asset != A_KFEE
  }

  predicate OutBasis(a: Out) {
    a.basis && a.asset != A_KFEE
  }

  function CostOfOut(cfg: PotConfig, cost: CostState, a: Out): SpendResult {
    if OutBasis(a) then Spend(cost, cfg.costs, a.asset in cfg.fiats, a.asset, a.amount, a.timestamp, OutTaxable(cfg, a))
    else SpendResult(cost, None, None)
  }

  /** The event of a spend: its taxable part comes from the cost basis if there is one, else from
      the given ratio; the rest is free. */
  function OutEvent(a: Out, info: Option<CostBasisInfo>, price: real, index: int): ProcessedEvent {
    var taxable := if info.Some? then info.value.taxableAmount else a.ratio * a.amount;
    ProcessedEvent(a.kind, a.timestamp, a.asset, taxable, a.amount - taxable, price, NO_PNL, index)
  }

  function OutPnl(cfg: PotConfig, a: Out, e: ProcessedEvent, info: Option<CostBasisInfo>): PNL {
    CalculatePnl(e, info, a.asset in cfg.fiats, a.entire, OutBasis(a))
  }

  predicate OutCounts(cfg: PotConfig, a: Out) {
    a.timestamp >= cfg.startTs && OutTaxable(cfg, a)
  }

  /** The spend proper, at a known price. */
  function OutAtPrice(cfg: PotConfig, st: PotState, a: Out, price: real): PotResult {
    var spent := CostOfOut(cfg, st.cost, a);
    var st1 := st.(cost := spent.state);
    if spent.error.Some? then PotResult(st1, 0.0, 0.0, spent.error)
    else
      var e := OutEvent(a, spent.info, price, |st.processed|);
      PotResult(Record(st1, e, OutPnl(cfg, a, e, spent.info), OutCounts(cfg, a)), e.free, e.taxable, None)
  }

  function AddOut(cfg: PotConfig, st: PotState, a: Out): PotResult {
    if a.amount == 0.0 then PotResult(st, 0.0, 0.0, None)
    else
      var pre := ReducePreforks(cfg, st.cost, PreforkSpends(a.asset, a.timestamp), a.amount, a.timestamp);
      var st0 := st.(cost := pre.state);
      if pre.error.Some? then PotResult(st0, 0.0, 0.0, pre.error)
      else
        var reply := if a.given.Some? then Rate(a.given.value) else Asked(cfg, st0, a.asset, a.timestamp);
        var st1 := if a.given.Some? then st0 else AfterAsking(cfg, st0, a.asset);
        if reply.Fails? then PotResult(st1, 0.0, 0.0, Some(reply.error)) else OutAtPrice(cfg, st1, a, reply.price)
  }

  // ----- Sequences of pot calls -----

  datatype PotOp = InOp(a: In) | OutOp(o: Out)

  function ApplyOp(cfg: PotConfig, st: PotState, op: PotOp): PotResult {
    match op
    case InOp(a) => AddIn(cfg, st, a)
    case OutOp(o) => AddOut(cfg, st, o)
  }

  function OpAmount(op: PotOp): real {
    match op case InOp(a) => a.amount case OutOp(o) => o.amount
  }

  function OpTime(op: PotOp): Timestamp {
    match op case InOp(a) => a.timestamp case OutOp(o) => o.timestamp
  }

  function OpTaxable(op: PotOp): bool {
    match op case InOp(a) => a.taxable case OutOp(o) => o.taxable
  }

  /** The ledger after a sequence of calls. A call that raises keeps what it changed so far. */
  function RunOps(cfg: PotConfig, st: PotState, ops: seq<PotOp>): PotState
    decreases |ops|
  {
    if ops == [] then st else RunOps(cfg, ApplyOp(cfg, st, ops[0]).state, ops[1..])
  }

  // ----- The ledger -----

  function SumPnl(events: seq<ProcessedEvent>, kind: EventType): PNL {
    if events == [] then NO_PNL
    else
      var n := |events| - 1;
      if events[n].kind == kind then SumPnl(events[..n], kind).Add(events[n].pnl) else SumPnl(events[..n], kind)
  }

  function SumAllPnl(events: seq<ProcessedEvent>): PNL {
    if events == [] then NO_PNL else SumAllPnl(events[..|events| - 1]).Add(events[|events| - 1].pnl)
  }

  /** Taxable plus free amount of each event, events of forked-off assets aside. */
  function Amounts(events: seq<ProcessedEvent>): seq<real> {
    if events == [] then []
    else
      var e := events[|events| - 1];
      Amounts(events[..|events| - 1]) + if e.kind == PreforkAcquisition then [] else [e.taxable + e.free]
  }

  function Taxables(pnls: map<EventType, PNL>): map<EventType, real> {
    map k | k in pnls :: pnls[k].taxable
  }

  function Frees(pnls: map<EventType, PNL>): map<EventType, real> {
    map k | k in pnls :: pnls[k].free
  }

  /** `PnlTotals.taxable` and `PnlTotals.free`. */
  ghost function Overall(pnls: map<EventType, PNL>): PNL {
    PNL(SumValues(Frees(pnls)), SumValues(Taxables(pnls)))
  }

  /** What every pot call keeps: events are numbered in order, every type's total is the sum of
      its events' PnL, both overall totals are the sums over all events, and only events dated in
      the query period contribute. */
  ghost predicate Ledger(cfg: PotConfig, st: PotState) {
    && (forall i :: 0 <= i < |st.processed| ==> st.processed[i].index == i)
    && (forall kind: EventType :: TotalOf(st.pnls, kind) == SumPnl(st.processed, kind))
    && Overall(st.pnls) == SumAllPnl(st.processed)
    && (forall i :: 0 <= i < |st.processed| && st.processed[i].pnl != NO_PNL ==>
          st.processed[i].timestamp >= cfg.startTs)
  }

  lemma SumPnlAppend(events: seq<ProcessedEvent>, e: ProcessedEvent, kind: EventType)
    ensures SumPnl(events + [e], kind)
         == if e.kind == kind then SumPnl(events, kind).Add(e.pnl) else SumPnl(events, kind)
  {
    assert (events + [e])[..|events|] == events;
  }

  lemma SumAllPnlAppend(events: seq<ProcessedEvent>, e: ProcessedEvent)
    ensures SumAllPnl(events + [e]) == SumAllPnl(events).Add(e.pnl)
  {
    assert (events + [e])[..|events|] == events;
  }

  lemma AmountsAppend(events: seq<ProcessedEvent>, e: ProcessedEvent)
    ensures Amounts(events + [e]) == Amounts(events) + if e.kind == PreforkAcquisition then [] else [e.taxable + e.free]
  {
    assert (events + [e])[..|events|] == events;
  }

  lemma OverallUpdate(pnls: map<EventType, PNL>, kind: EventType, pnl: PNL)
    ensures Overall(pnls[kind := TotalOf(pnls, kind).Add(pnl)]) == Overall(pnls).Add(pnl)
  {
    var total := TotalOf(pnls, kind).Add(pnl);
    assert Taxables(pnls[kind := total]) == Taxables(pnls)[kind := total.taxable];
    assert Frees(pnls[kind := total]) == Frees(pnls)[kind := total.free];
    SumUpdate(Taxables(pnls), kind, total.taxable);
    SumUpdate(Frees(pnls), kind, total.free);
  }

  lemma OverallWithout(pnls: map<EventType, PNL>, kind: EventType)
    requires kind in pnls
    ensures Overall(pnls) == pnls[kind].Add(Overall(pnls - {kind}))
  {
    SumWithout(Taxables(pnls), kind);
    SumWithout(Frees(pnls), kind);
    assert Taxables(pnls) - {kind} == Taxables(pnls - {kind});
    assert Frees(pnls) - {kind} == Frees(pnls - {kind});
  }

  lemma OverallNothing()
    ensures Overall(map[]) == NO_PNL
  {
    assert Taxables(map[]) == map[] && Frees(map[]) == map[];
  }

  lemma TotalOfUpdate(pnls: map<EventType, PNL>, key: EventType, value: PNL, kind: EventType)
    ensures TotalOf(pnls[key := value], kind) == if kind == key then value else TotalOf(pnls, kind)
  {
  }

  lemma AddNothing(p: PNL)
    ensures p.Add(NO_PNL) == p
  {
  }

  lemma BookTotals(st: PotState, e: ProcessedEvent, pnl: PNL, counts: bool, kind: EventType)
    requires TotalOf(st.pnls, kind) == SumPnl(st.processed, kind)
    ensures var st1 := Record(st, e, pnl, counts);
            TotalOf(st1.pnls, kind) == SumPnl(st1.processed, kind)
  {
    hide SumPnl, TotalOf;
    SumPnlAppend(st.processed, Booking(e, pnl, counts), kind);
    AddNothing(SumPnl(st.processed, kind));
    if counts {
      TotalOfUpdate(st.pnls, e.kind, TotalOf(st.pnls, e.kind).Add(pnl), kind);
    }
  }

  lemma BookOverall(st: PotState, e: ProcessedEvent, pnl: PNL, counts: bool)
    requires Overall(st.pnls) == SumAllPnl(st.processed)
    ensures var st1 := Record(st, e, pnl, counts);
            Overall(st1.pnls) == SumAllPnl(st1.processed)
  {
    hide Overall, SumAllPnl, TotalOf;
    SumAllPnlAppend(st.processed, Booking(e, pnl, counts));
    AddNothing(SumAllPnl(st.processed));
    if counts {
      OverallUpdate(st.pnls, e.kind, pnl);
    }
  }

  lemma BookKeepsLedger(cfg: PotConfig, st: PotState, e: ProcessedEvent, pnl: PNL, counts: bool)
    requires Ledger(cfg, st) && e.index == |st.processed| && (counts ==> e.timestamp >= cfg.startTs)
    ensures Ledger(cfg, Record(st, e, pnl, counts))
  {
    hide Overall, SumPnl, SumAllPnl, TotalOf;
    forall kind: EventType
      ensures TotalOf(Record(st, e, pnl, counts).pnls, kind) == SumPnl(Record(st, e, pnl, counts).processed, kind)
    {
      BookTotals(st, e, pnl, counts, kind);
    }
    BookOverall(st, e, pnl, counts);
  }

  lemma LedgerIgnoresCosts(cfg: PotConfig, st: PotState, cost: CostState, queries: nat)
    requires Ledger(cfg, st)
    ensures Ledger(cfg, st.(cost := cost, queries := queries))
  {
  }

  lemma {:induction false} PreforksKeepLedger(cfg: PotConfig, st: PotState, forks: seq<Asset>, a: In, price: real)
    requires Ledger(cfg, st)
    ensures Ledger(cfg, AddPreforks(cfg, st, forks, a, price))
    ensures Amounts(AddPreforks(cfg, st, forks, a, price).processed) == Amounts(st.processed)
    decreases |forks|
  {
    hide Ledger, Obtain, Amounts;
    if forks != [] {
      if forks[0] in cfg.ignored {
        PreforksKeepLedger(cfg, st, forks[1..], a, price);
      } else {
        var e := ProcessedEvent(PreforkAcquisition, a.timestamp, forks[0], a.amount, 0.0, price, NO_PNL,
                                |st.processed|);
        var st1 := Record(st, e, NO_PNL, false);
        var cost := Obtain(st1.cost, cfg.costs, forks[0], a.amount, a.timestamp, price, e.index);
        BookKeepsLedger(cfg, st, e, NO_PNL, false);
        AmountsAppend(st.processed, e);
        LedgerIgnoresCosts(cfg, st1, cost, st1.queries);
        PreforksKeepLedger(cfg, st1.(cost := cost), forks[1..], a, price);
      }
    }
  }

  /** An acquisition keeps the ledger and, unless it raises or is empty, books its whole amount. */
  lemma AddInKeepsLedger(cfg: PotConfig, st: PotState, a: In)
    requires Ledger(cfg, st)
    ensures var r := AddIn(cfg, st, a);
            && Ledger(cfg, r.state)
            && (a.kind != PreforkAcquisition ==>
                  Amounts(r.state.processed) == Amounts(st.processed)
                  + if r.error.None? && a.amount != 0.0 then [a.amount] else [])
  {
    hide Ledger, Obtain, Amounts, CalculatePnl, Record;
    if a.amount != 0.0 {
      var st0 := if a.given.Some? then st else AfterAsking(cfg, st, a.asset);
      var reply := InPrice(cfg, st, a);
      LedgerIgnoresCosts(cfg, st, st.cost, st0.queries);
      if reply.Rate? {
        var st1 := AddPreforks(cfg, st0, PreforkAssets(a.asset, a.timestamp), a, reply.price);
        PreforksKeepLedger(cfg, st0, PreforkAssets(a.asset, a.timestamp), a, reply.price);
        var taxable, free := if a.taxable then a.amount else 0.0, if a.taxable then 0.0 else a.amount;
        var e := ProcessedEvent(a.kind, a.timestamp, a.asset, taxable, free, reply.price, NO_PNL, |st1.processed|);
        var st2 := st1.(cost := Obtain(st1.cost, cfg.costs, a.asset, taxable + free, a.timestamp, reply.price,
                                       e.index));
        LedgerIgnoresCosts(cfg, st1, st2.cost, st1.queries);
        var pnl := CalculatePnl(e, None, a.asset in cfg.fiats, false, true);
        BookKeepsLedger(cfg, st2, e, pnl, a.timestamp >= cfg.startTs && a.taxable);
        BookAmounts(st2, e, pnl, a.timestamp >= cfg.startTs && a.taxable);
      }
    }
  }

  lemma BookAmounts(st: PotState, e: ProcessedEvent, pnl: PNL, counts: bool)
    ensures Amounts(Record(st, e, pnl, counts).processed) ==
            Amounts(st.processed) + if e.kind == PreforkAcquisition then [] else [e.taxable + e.free]
  {
    hide Amounts;
    AmountsAppend(st.processed, Booking(e, pnl, counts));
  }

  lemma OutAtPriceKeepsLedger(cfg: PotConfig, st: PotState, a: Out, price: real)
    requires Ledger(cfg, st)
    ensures var r := OutAtPrice(cfg, st, a, price);
            && Ledger(cfg, r.state)
            && (r.error.None? ==> r.free + r.taxable == a.amount)
            && (a.kind != PreforkAcquisition ==>
                  Amounts(r.state.processed) == Amounts(st.processed) + if r.error.None? then [a.amount] else [])
  {
    hide Ledger, Amounts, OutPnl, Record, CostOfOut;
    var spent := CostOfOut(cfg, st.cost, a);
    var st1 := st.(cost := spent.state);
    LedgerIgnoresCosts(cfg, st, spent.state, st.queries);
    if spent.error.None? {
      var e := OutEvent(a, spent.info, price, |st.processed|);
      BookKeepsLedger(cfg, st1, e, OutPnl(cfg, a, e, spent.info), OutCounts(cfg, a));
      BookAmounts(st1, e, OutPnl(cfg, a, e, spent.info), OutCounts(cfg, a));
    }
  }

  /** A spend keeps the ledger and, unless it raises or is empty, splits its whole amount into a
      taxable and a free part, which it returns. */
  lemma AddOutKeepsLedger(cfg: PotConfig, st: PotState, a: Out)
    requires Ledger(cfg, st)
    ensures var r := AddOut(cfg, st, a);
            && Ledger(cfg, r.state)
            && (r.error.None? ==> r.free + r.taxable == a.amount)
            && (a.kind != PreforkAcquisition ==>
                  Amounts(r.state.processed) == Amounts(st.processed)
                  + if r.error.None? && a.amount != 0.0 then [a.amount] else [])
  {
    hide Ledger, Amounts, ReducePreforks, PreforkSpends, OutAtPrice;
    var pre := ReducePreforks(cfg, st.cost, PreforkSpends(a.asset, a.timestamp), a.amount, a.timestamp);
    var st0 := st.(cost := pre.state);
    var reply := if a.given.Some? then Rate(a.given.value) else Asked(cfg, st0, a.asset, a.timestamp);
    var st1 := if a.given.Some? then st0 else AfterAsking(cfg, st0, a.asset);
    LedgerIgnoresCosts(cfg, st, pre.state, st.queries);
    LedgerIgnoresCosts(cfg, st, pre.state, st1.queries);
    if reply.Rate? {
      OutAtPriceKeepsLedger(cfg, st1, a, reply.price);
    }
  }

  /** Amounts of the calls that neither raised nor were empty. */
  function Booked(cfg: PotConfig, st: PotState, ops: seq<PotOp>): seq<real>
    decreases |ops|
  {
    if ops == [] then []
    else
      var r := ApplyOp(cfg, st, ops[0]);
      (if r.error.None? && OpAmount(ops[0]) != 0.0 then [OpAmount(ops[0])] else []) + Booked(cfg, r.state, ops[1..])
  }

  predicate NoPreforkKinds(ops: seq<PotOp>) {
    forall i :: 0 <= i < |ops| ==>
      match ops[i] case InOp(a) => !a.kind.PreforkAcquisition? case OutOp(o) => !o.kind.PreforkAcquisition?
  }

  /** After any sequence of acquisitions and spends, raising or not, the ledger holds, and the
      taxable and free parts of the events add up, one by one, to the amounts booked. */
  lemma {:induction false} RunKeepsLedger(cfg: PotConfig, st: PotState, ops: seq<PotOp>)
    requires Ledger(cfg, st) && NoPreforkKinds(ops)
    ensures Ledger(cfg, RunOps(cfg, st, ops))
    ensures Amounts(RunOps(cfg, st, ops).processed) == Amounts(st.processed) + Booked(cfg, st, ops)
    decreases |ops|
  {
    hide Ledger, Amounts, AddIn, AddOut;
    if ops != [] {
      match ops[0] {
        case InOp(a) => AddInKeepsLedger(cfg, st, a);
        case OutOp(o) => AddOutKeepsLedger(cfg, st, o);
      }
      RunKeepsLedger(cfg, ApplyOp(cfg, st, ops[0]).state, ops[1..]);
    }
  }

  /** The kind of ledger and period facts that follow from how a call appends events: they carry
      the call's date, and only a taxable call can give them a PnL. */
  ghost predicate Appends(before: seq<ProcessedEvent>, after: seq<ProcessedEvent>, now: Timestamp, taxable: bool) {
    && before <= after
    && forall i :: |before| <= i < |after| ==>
         after[i].timestamp == now && (after[i].pnl != NO_PNL ==> taxable)
  }

  lemma AppendsTwice(a: seq<ProcessedEvent>, b: seq<ProcessedEvent>, c: seq<ProcessedEvent>, now: Timestamp,
                     taxable: bool)
    requires Appends(a, b, now, taxable) && Appends(b, c, now, taxable)
    ensures Appends(a, c, now, taxable)
  {
    assert forall i :: |a| <= i < |b| ==> c[i] == b[i];
  }

  lemma {:induction false} PreforksAppend(cfg: PotConfig, st: PotState, forks: seq<Asset>, a: In, price: real)
    ensures Appends(st.processed, AddPreforks(cfg, st, forks, a, price).processed, a.timestamp, a.taxable)
    decreases |forks|
  {
    hide Obtain;
    if forks != [] {
      if forks[0] in cfg.ignored {
        PreforksAppend(cfg, st, forks[1..], a, price);
      } else {
        var e := ProcessedEvent(PreforkAcquisition, a.timestamp, forks[0], a.amount, 0.0, price, NO_PNL,
                                |st.processed|);
        var st1 := Record(st, e, NO_PNL, false);
        var st2 := st1.(cost := Obtain(st1.cost, cfg.costs, forks[0], a.amount, a.timestamp, price, e.index));
        PreforksAppend(cfg, st2, forks[1..], a, price);
        AppendsTwice(st.processed, st2.processed, AddPreforks(cfg, st2, forks[1..], a, price).processed, a.timestamp,
                     a.taxable);
      }
    }
  }

  lemma OpAppends(cfg: PotConfig, st: PotState, op: PotOp)
    ensures Appends(st.processed, ApplyOp(cfg, st, op).state.processed, OpTime(op), OpTaxable(op))
  {
    match op
    case InOp(a) => InAppends(cfg, st, a);
    case OutOp(o) => OutAppends(cfg, st, o);
  }

  lemma InAppends(cfg: PotConfig, st: PotState, a: In)
    ensures Appends(st.processed, AddIn(cfg, st, a).state.processed, a.timestamp, a.taxable)
  {
    hide Obtain, CalculatePnl, AddPreforks;
    var st0 := if a.given.Some? then st else AfterAsking(cfg, st, a.asset);
    var reply := InPrice(cfg, st, a);
    if a.amount != 0.0 && reply.Rate? {
      var st1 := AddPreforks(cfg, st0, PreforkAssets(a.asset, a.timestamp), a, reply.price);
      PreforksAppend(cfg, st0, PreforkAssets(a.asset, a.timestamp), a, reply.price);
      AppendsTwice(st.processed, st1.processed, AddIn(cfg, st, a).state.processed, a.timestamp, a.taxable);
    }
  }

  lemma OutAppends(cfg: PotConfig, st: PotState, a: Out)
    ensures Appends(st.processed, AddOut(cfg, st, a).state.processed, a.timestamp, a.taxable)
  {
    hide CalculatePnl, Spend, ReducePreforks, PreforkSpends;
  }

  // ----- The checks of the cost basis never fail on sensible amounts -----

  /** The price oracle raises no other errors than the ones it documents. */
  ghost predicate DocumentedErrors(cfg: PotConfig) {
    forall n: nat, asset: Asset, now: Timestamp ::
      cfg.price(n, asset, now).Fails? ==> Skippable(cfg.price(n, asset, now).error)
  }

  lemma ReduceHealthy(cost: CostState, s: Settings, fiat: bool, asset: Asset, amount: real, now: Timestamp)
    requires AllHealthy(cost, s) && amount > 0.0
    ensures var r := Reduce(cost, s, fiat, asset, amount, now);
            r.error.None? && AllHealthy(r.state, s)
  {
    hide AllHealthy, Reduce;
    GoneConserves(cost, s, Gone(asset, amount, now, fiat, false), asset);
  }

  lemma {:induction false} ReducePreforksHealthy(cfg: PotConfig, cost: CostState, forks: seq<Asset>, amount: real,
                                                 now: Timestamp)
    requires AllHealthy(cost, cfg.costs) && amount > 0.0
    ensures var r := ReducePreforks(cfg, cost, forks, amount, now);
            r.error.None? && AllHealthy(r.state, cfg.costs)
    decreases |forks|
  {
    hide AllHealthy, Reduce;
    if forks != [] {
      ReduceHealthy(cost, cfg.costs, forks[0] in cfg.fiats, forks[0], amount, now);
      ReducePreforksHealthy(cfg, Reduce(cost, cfg.costs, forks[0] in cfg.fiats, forks[0], amount, now).state,
                            forks[1..], amount, now);
    }
  }

  lemma {:induction false} PreforksHealthy(cfg: PotConfig, st: PotState, forks: seq<Asset>, a: In, price: real)
    requires AllHealthy(st.cost, cfg.costs) && a.amount > 0.0
    ensures AllHealthy(AddPreforks(cfg, st, forks, a, price).cost, cfg.costs)
    decreases |forks|
  {
    hide AllHealthy, Obtain;
    if forks != [] {
      if forks[0] in cfg.ignored {
        PreforksHealthy(cfg, st, forks[1..], a, price);
      } else {
        var e := ProcessedEvent(PreforkAcquisition, a.timestamp, forks[0], a.amount, 0.0, price, NO_PNL,
                                |st.processed|);
        var st1 := Record(st, e, NO_PNL, false);
        ObtainHealthy(st1.cost, cfg.costs, forks[0], a.amount, a.timestamp, price, e.index);
        PreforksHealthy(cfg, st1.(cost := Obtain(st1.cost, cfg.costs, forks[0], a.amount, a.timestamp, price, e.index)),
                        forks[1..], a, price);
      }
    }
  }

  lemma ObtainHealthy(cost: CostState, s: Settings, asset: Asset, amount: real, now: Timestamp, rate: real, index: int)
    requires AllHealthy(cost, s) && amount > 0.0
    ensures AllHealthy(Obtain(cost, s, asset, amount, now, rate, index), s)
  {
    hide AllHealthy, Obtain;
    GotConserves(cost, s, Got(asset, amount, now, rate, index), asset);
  }

  /** With amounts that are not negative, a pot call keeps every book healthy and can only raise a
      price error: neither the interval assertion nor the average-cost guard ever fails. */
  lemma OpHealthy(cfg: PotConfig, st: PotState, op: PotOp)
    requires AllHealthy(st.cost, cfg.costs) && OpAmount(op) >= 0.0 && DocumentedErrors(cfg)
    ensures var r := ApplyOp(cfg, st, op);
            AllHealthy(r.state.cost, cfg.costs) && (r.error.Some? ==> Skippable(r.error.value))
  {
    match op
    case InOp(a) => InHealthy(cfg, st, a);
    case OutOp(o) => OutHealthy(cfg, st, o);
  }

  lemma InHealthy(cfg: PotConfig, st: PotState, a: In)
    requires AllHealthy(st.cost, cfg.costs) && a.amount >= 0.0 && DocumentedErrors(cfg)
    ensures var r := AddIn(cfg, st, a);
            AllHealthy(r.state.cost, cfg.costs) && (r.error.Some? ==> Skippable(r.error.value))
  {
    hide AllHealthy, Obtain, AddPreforks, CalculatePnl;
    var st0 := if a.given.Some? then st else AfterAsking(cfg, st, a.asset);
    var reply := InPrice(cfg, st, a);
    if a.amount != 0.0 && reply.Rate? {
      var st1 := AddPreforks(cfg, st0, PreforkAssets(a.asset, a.timestamp), a, reply.price);
      PreforksHealthy(cfg, st0, PreforkAssets(a.asset, a.timestamp), a, reply.price);
      var taxable, free := if a.taxable then a.amount else 0.0, if a.taxable then 0.0 else a.amount;
      ObtainHealthy(st1.cost, cfg.costs, a.asset, taxable + free, a.timestamp, reply.price, |st1.processed|);
    }
  }

  lemma OutHealthy(cfg: PotConfig, st: PotState, a: Out)
    requires AllHealthy(st.cost, cfg.costs) && a.amount >= 0.0 && DocumentedErrors(cfg)
    ensures var r := AddOut(cfg, st, a);
            AllHealthy(r.state.cost, cfg.costs) && (r.error.Some? ==> Skippable(r.error.value))
  {
    hide AddOut, AllHealthy, ReducePreforks, CalculatePnl, Spend, PreforkSpends, Asked, Record, OutTaxable,
         DocumentedErrors;
    if a.amount != 0.0 {
      var pre := ReducePreforks(cfg, st.cost, PreforkSpends(a.asset, a.timestamp), a.amount, a.timestamp);
      ReducePreforksHealthy(cfg, st.cost, PreforkSpends(a.asset, a.timestamp), a.amount, a.timestamp);
      var st0 := st.(cost := pre.state);
      AskedSkippable(cfg, st0, a.asset, a.timestamp);
      SpendHealthy(pre.state, cfg.costs, a.asset in cfg.fiats, a.asset, a.amount, a.timestamp, OutTaxable(cfg, a));
      OutCost(cfg, st, a);
    } else {
      OutNothing(cfg, st, a);
    }
  }

  lemma OutNothing(cfg: PotConfig, st: PotState, a: Out)
    requires a.amount == 0.0
    ensures AddOut(cfg, st, a) == PotResult(st, 0.0, 0.0, None)
  {
  }

  lemma AskedSkippable(cfg: PotConfig, st: PotState, asset: Asset, now: Timestamp)
    requires DocumentedErrors(cfg)
    ensures var r := Asked(cfg, st, asset, now); r.Fails? ==> Skippable(r.error)
  {
  }

  /** The cost basis and the error a non-empty spend ends with. */
  lemma OutCost(cfg: PotConfig, st: PotState, a: Out)
    requires a.amount != 0.0
    ensures var r := AddOut(cfg, st, a);
            var pre := ReducePreforks(cfg, st.cost, PreforkSpends(a.asset, a.timestamp), a.amount, a.timestamp);
            var reply := Asked(cfg, st.(cost := pre.state), a.asset, a.timestamp);
            var spent := Spend(pre.state, cfg.costs, a.asset in cfg.fiats, a.asset, a.amount, a.timestamp,
                               OutTaxable(cfg, a));
            || (pre.error.Some? && r.error == pre.error && r.state.cost == pre.state)
            || (reply.Fails? && r.error == Some(reply.error) && r.state.cost == pre.state)
            || (!OutBasis(a) && r.error.None? && r.state.cost == pre.state)
            || (r.error == spent.error && r.state.cost == spent.state)
  {
    hide ReducePreforks, CalculatePnl, Spend, PreforkSpends, Asked, OutTaxable;
  }

  lemma SpendHealthy(cost: CostState, s: Settings, fiat: bool, asset: Asset, amount: real, now: Timestamp,
                     taxable: bool)
    requires AllHealthy(cost, s) && amount > 0.0
    ensures var r := Spend(cost, s, fiat, asset, amount, now, taxable);
            r.error.None? && AllHealthy(r.state, s)
  {
    hide AllHealthy, Spend;
    GoneConserves(cost, s, Gone(asset, amount, now, fiat, taxable), asset);
  }

  // ----- Pricing a swap with the pot's oracle -----

  /** The swap as the pot sees it: the out leg is priced first, then the in leg, then the fee if
      it is part of the cost basis. */
  function AskedSwap(cfg: PotConfig, st: PotState, now: Timestamp, amountIn: real, assetIn: Asset,
                     amountOut: real, assetOut: Asset, fee: Option<(real, Asset)>): (Swap, PotState) {
    var st1 := AfterAsking(cfg, st, assetOut);
    var outReply := Asked(cfg, st, assetOut, now);
    var asksIn := !LegRaises(outReply, false);
    var st2 := if asksIn then AfterAsking(cfg, st1, assetIn) else st1;
    var inReply := if asksIn then Asked(cfg, st1, assetIn, now) else Rate(0.0);
    var asksFee := fee.Some? && cfg.includeFees && asksIn && !LegRaises(inReply, outReply.Fails?);
    (Swap(amountIn, assetIn in cfg.fiats, inReply, amountOut, assetOut in cfg.fiats, outReply,
          if fee.Some? then Some(fee.value.0) else None, cfg.includeFees,
          if asksFee then Asked(cfg, st2, fee.value.1, now) else Rate(0.0)),
     if asksFee then AfterAsking(cfg, st2, fee.value.1) else st2)
  }

  function PotSwapPrices(cfg: PotConfig, st: PotState, now: Timestamp, amountIn: real, assetIn: Asset,
                         amountOut: real, assetOut: Asset, fee: Option<(real, Asset)>): (SwapPrices, PotState) {
    if amountIn == 0.0 || amountOut == 0.0 then (NoPrices, st)
    else
      var (swap, st1) := AskedSwap(cfg, st, now, amountIn, assetIn, amountOut, assetOut, fee);
      (PricesForSwap(Exact(), swap), st1)
  }

  lemma EmptyLedger(cfg: PotConfig)
    ensures Ledger(cfg, EMPTY_POT)
  {
    assert Taxables(map[]) == map[] && Frees(map[]) == map[];
  }
}
