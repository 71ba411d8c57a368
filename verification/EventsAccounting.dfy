/** Processing one history entry: rule lookup, callbacks, swaps with their in leg and fee. */
module EventsAccounting {
  import opened Common
  import opened CostBasisCalculator
  import opened SwapPricing
  import opened Pot
  import opened AccountingPots
  import opened Events

  /** `pos` is the iterator position after the call, `count` the number of events reported as
      consumed. */
  datatype Processed = Processed(state: PotState, pos: nat, count: nat, error: Option<Error>)

  // ----- Swaps -----

  predicate SameGroup(e: Event, other: Event) {
    other.IsHistoryEntry() && other.group == e.group
  }

  predicate HasInLeg(events: seq<Event>, pos: nat, e: Event) {
    pos < |events| && SameGroup(e, events[pos])
  }

  predicate HasFee(events: seq<Event>, pos: nat, e: Event) {
    HasInLeg(events, pos, e) && pos + 1 < |events| && SameGroup(e, events[pos + 1]) && events[pos + 1].subtype == FEE
  }

  /** How many events after the out leg a swap takes: none, the in leg, or in leg and fee. */
  function SwapTake(events: seq<Event>, pos: nat, e: Event): nat {
    if HasFee(events, pos, e) then 2 else if HasInLeg(events, pos, e) then 1 else 0
  }

  function SwapOut(now: Timestamp, out: Event, rule: Rule, price: real): Out {
    Out(TransactionEvent, now, out.asset, out.amount, rule.taxable, Some(price), 1.0, false, true)
  }

  function SwapIn(now: Timestamp, inn: Event, price: real): In {
    In(TransactionEvent, now, inn.asset, inn.amount, false, Some(price))
  }

  function FeePrice(cfg: PotConfig, out: Event, inn: Event, fee: Event, p: SwapPrices): Option<real>
    requires p.Prices?
  {
    if fee.asset == cfg.profitCurrency then Some(1.0)
    else if fee.asset == inn.asset then Some(p.inPrice)
    else if fee.asset == out.asset then Some(p.outPrice)
    else None
  }

  function SwapFee(cfg: PotConfig, now: Timestamp, out: Event, inn: Event, fee: Event, p: SwapPrices, taxed: real): Out
    requires p.Prices? && out.amount != 0.0
  {
    Out(FeeEvent, now, fee.asset, fee.amount, !cfg.includeFees, FeePrice(cfg, out, inn, fee, p),
        if cfg.includeFees then 1.0 else taxed / out.amount, true, true)
  }

  predicate FeeFirst(out: Event, inn: Event, fee: Event) {
    fee.asset == out.asset || fee.sequenceIndex < inn.sequenceIndex
  }

  /** The calls that follow the out leg, in order. */
  function SwapQueue(cfg: PotConfig, now: Timestamp, out: Event, inn: Event, fee: Option<Event>, p: SwapPrices,
                     taxed: real): seq<PotOp>
    requires p.Prices? && out.amount != 0.0
  {
    var acquire := InOp(SwapIn(now, inn, p.inPrice));
    if fee.None? then [acquire]
    else
      var pay := OutOp(SwapFee(cfg, now, out, inn, fee.value, p, taxed));
      if FeeFirst(out, inn, fee.value) then [pay, acquire] else [acquire, pay]
  }

  function FeeInfo(fee: Option<Event>): Option<(real, Asset)> {
    if fee.Some? then Some((fee.value.amount, fee.value.asset)) else None
  }

  function SwapPricesFor(cfg: PotConfig, st: PotState, now: Timestamp, out: Event, inn: Event, fee: Option<Event>)
    : (SwapPrices, PotState)
  {
    PotSwapPrices(cfg, st, now, inn.amount, inn.asset, out.amount, out.asset, FeeInfo(fee))
  }

  function ProcessSwap(cfg: PotConfig, st: PotState, pos: nat, now: Timestamp, out: Event, inn: Event,
                       fee: Option<Event>, rule: Rule): Processed {
    var (p, st1) := SwapPricesFor(cfg, st, now, out, inn, fee);
    match p
    case Raises(e) => Processed(st1, pos, 0, Some(e))
    case NoPrices => Processed(st1, pos, 2, None)
    case Prices(outPrice, inPrice) =>
      var spent := AddOut(cfg, st1, SwapOut(now, out, rule, outPrice));
      if spent.error.Some? then Processed(spent.state, pos, 0, spent.error)
      else
        assert out.amount != 0.0;  // an empty leg has no prices
        var queue := SwapQueue(cfg, now, out, inn, fee, p, spent.taxable);
        var r := RunScript(cfg, spent.state, queue, None);
        Processed(r.state, pos, if r.error.Some? then 0 else 1 + |queue|, r.error)
  }

  // ----- One event -----

  /** State and position once a callback, if the event has one, has run. */
  function AfterCallback(w: World, st: PotState, events: seq<Event>, pos: nat, e: Event): Processed
    requires pos <= |events|
  {
    if HasCallback(w, e) then
      var reply := w.callback(st, e, events[pos..]);
      var r := RunScript(w.cfg, st, reply.script.ops, reply.script.error);
      Processed(r.state, if pos + reply.taken <= |events| then pos + reply.taken else |events|, 0, r.error)
    else Processed(st, pos, 0, None)
  }

  predicate Skips(w: World, e: Event) {
    e.direction.None? || e.direction.value.Neutral? || RuleFor(w.rules, w.ident, e).None?
  }

  function ChangeOp(e: Event, rule: Rule): PotOp
    requires e.direction.Some?
  {
    if e.direction.value.Inward? then InOp(In(TransactionEvent, e.timestamp, e.asset, e.amount, rule.taxable, None))
    else OutOp(Out(TransactionEvent, e.timestamp, e.asset, e.amount, rule.taxable, None, 1.0, rule.entire, rule.basis))
  }

  /** `EventsAccountant.process`; `pos` is the position right after the event itself. */
  function Process(w: World, st: PotState, events: seq<Event>, pos: nat, e: Event): Processed
    requires pos <= |events|
  {
    if Skips(w, e) then Processed(st, pos, 1, None)
    else
      var rule := RuleFor(w.rules, w.ident, e).value;
      var cb := AfterCallback(w, st, events, pos, e);
      if cb.error.Some? then cb
      else if rule.swap then
        var at := cb.pos;
        if !HasInLeg(events, at, e) then Processed(cb.state, at, 1, None)
        else ProcessSwap(w.cfg, cb.state, at + SwapTake(events, at, e), e.timestamp, e, events[at],
                         if HasFee(events, at, e) then Some(events[at + 1]) else None, rule)
      else
        var r := ApplyOp(w.cfg, cb.state, ChangeOp(e, rule));
        Processed(r.state, cb.pos, if r.error.Some? then 0 else 1, r.error)
  }

  /** An event's own `process`: entries go to the events accountant, everything else makes its pot
      calls and reports one event. */
  function ProcessAny(w: World, st: PotState, events: seq<Event>, pos: nat, e: Event): Processed
    requires pos <= |events|
  {
    if e.kind.EvmEntry? || e.kind.PlainEntry? then Process(w, st, events, pos, e)
    else
      var script := w.own(st, e);
      var r := RunScript(w.cfg, st, script.ops, script.error);
      Processed(r.state, pos, if r.error.Some? then 0 else 1, r.error)
  }

  // ----- The object -----

  class EventsAccountant {
    const world: World
    const pot: AccountingPot

    constructor (world: World, pot: AccountingPot)
      ensures this.world == world && this.pot == pot
    {
      this.world := world;
      this.pot := pot;
    }

    ghost predicate Valid()
      reads this, pot, pot.calculator
    {
      pot.Valid() && pot.cfg == world.cfg
    }

    method RunPotCalls(ops: seq<PotOp>, last: Option<Error>) returns (error: Option<Error>)
      requires Valid()
      modifies pot, pot.calculator
      ensures Valid() && ScriptResult(pot.State(), error) == RunScript(world.cfg, old(pot.State()), ops, last)
    {
      hide AddIn, AddOut;
      var i := 0;
      while i < |ops|
        invariant 0 <= i <= |ops| && Valid()
        invariant RunScript(world.cfg, old(pot.State()), ops, last)
               == RunScript(world.cfg, pot.State(), ops[i..], last)
      {
        assert ops[i..][1..] == ops[i + 1..];
        error := PotCall(ops[i]);
        if error.Some? {
          return;
        }
        i := i + 1;
      }
      error := last;
    }

    method PotCall(op: PotOp) returns (error: Option<Error>)
      requires Valid()
      modifies pot, pot.calculator
      ensures Valid()
      ensures var r := ApplyOp(world.cfg, old(pot.State()), op); pot.State() == r.state && error == r.error
    {
      hide AddIn, AddOut;
      match op {
        case InOp(a) => error := pot.AddInEvent(a);
        case OutOp(o) =>
          var _, _, e := pot.AddOutEvent(o);
          error := e;
      }
    }

    method ProcessSwapEvents(ghost pos: nat, now: Timestamp, out: Event, inn: Event, fee: Option<Event>, rule: Rule)
      returns (count: nat, error: Option<Error>)
      requires Valid()
      modifies pot, pot.calculator
      ensures Valid()
      ensures Processed(pot.State(), pos, count, error)
           == ProcessSwap(world.cfg, old(pot.State()), pos, now, out, inn, fee, rule)
    {
      hide AddIn, AddOut, PricesForSwap, AskedSwap, RunScript;
      var p := pot.GetPricesForSwap(now, inn.amount, inn.asset, out.amount, out.asset, FeeInfo(fee));
      match p {
        case Raises(e) => return 0, Some(e);
        case NoPrices => return 2, None;
        case Prices(outPrice, inPrice) =>
          assert out.amount != 0.0;
          var _, taxed, e := pot.AddOutEvent(SwapOut(now, out, rule, outPrice));
          if e.Some? {
            return 0, e;
          }
          var queue := [InOp(SwapIn(now, inn, inPrice))];
          if fee.Some? {
            queue := queue + [OutOp(SwapFee(world.cfg, now, out, inn, fee.value, p, taxed))];
            if FeeFirst(out, inn, fee.value) {
              queue := [queue[1], queue[0]];
            }
          }
          assert queue == SwapQueue(world.cfg, now, out, inn, fee, p, taxed);
          error := RunPotCalls(queue, None);
          count := if error.Some? then 0 else 1 + |queue|;
      }
    }

    /** Runs the event's callback, if it has one, on the shared iterator. */
    method RunCallback(e: Event, feed: EventIterator) returns (error: Option<Error>)
      requires Valid() && feed.Valid()
      modifies pot, pot.calculator, feed
      ensures Valid() && feed.Valid()
      ensures Processed(pot.State(), feed.pos, 0, error)
           == AfterCallback(world, old(pot.State()), feed.events, old(feed.pos), e)
    {
      hide RunScript;
      error := None;
      if HasCallback(world, e) {
        var reply := world.callback(pot.State(), e, feed.events[feed.pos..]);
        error := RunPotCalls(reply.script.ops, reply.script.error);
        feed.pos := if feed.pos + reply.taken <= |feed.events| then feed.pos + reply.taken else |feed.events|;
      }
    }

    /** Takes a swap's in leg and fee off the iterator, if they are there. */
    method TakeLegs(e: Event, feed: EventIterator) returns (inn: Option<Event>, fee: Option<Event>)
      requires feed.Valid()
      modifies feed
      ensures feed.Valid() && feed.pos == old(feed.pos) + SwapTake(feed.events, old(feed.pos), e)
      ensures inn == if HasInLeg(feed.events, old(feed.pos), e) then Some(feed.events[old(feed.pos)]) else None
      ensures fee == if HasFee(feed.events, old(feed.pos), e) then Some(feed.events[old(feed.pos) + 1]) else None
    {
      inn, fee := None, None;
      var next := feed.Peek();
      if next.None? || !SameGroup(e, next.value) {
        return;
      }
      inn := feed.Next();
      next := feed.Peek();
      if next.Some? && SameGroup(e, next.value) && next.value.subtype == FEE {
        fee := feed.Next();
      }
    }

    /** Takes events off the shared iterator exactly as `Process` says. */
    method ProcessEntry(e: Event, feed: EventIterator) returns (count: nat, error: Option<Error>)
      requires Valid() && feed.Valid()
      modifies pot, pot.calculator, feed
      ensures Valid() && feed.Valid()
      ensures Processed(pot.State(), feed.pos, count, error)
           == Process(world, old(pot.State()), feed.events, old(feed.pos), e)
    {
      hide ProcessSwap, AfterCallback, AddIn, AddOut, RuleFor;
      count, error := 1, None;
      if e.direction.None? || e.direction.value.Neutral? {
        return;
      }
      var settings := RuleFor(world.rules, world.ident, e);
      if settings.None? {
        return;
      }
      var rule := settings.value;
      error := RunCallback(e, feed);
      if error.Some? {
        return 0, error;
      }
      if rule.swap {
        var inn, fee := TakeLegs(e, feed);
        if inn.Some? {
          count, error := ProcessSwapEvents(feed.pos, e.timestamp, e, inn.value, fee, rule);
        }
        return;
      }
      error := PotCall(ChangeOp(e, rule));
      count := if error.Some? then 0 else 1;
    }
  }

  // ----- How many events are taken -----

  /** Events a callback took from the iterator. */
  function CallbackTaken(w: World, st: PotState, events: seq<Event>, pos: nat, e: Event): nat
    requires pos <= |events|
  {
    if Skips(w, e) then 0 else AfterCallback(w, st, events, pos, e).pos - pos
  }

  /** A callback runs for EVM entries whose exact type has one registered, and takes what it says from
      the iterator, as far as there is so much. */
  lemma CallbackTakes(w: World, st: PotState, events: seq<Event>, pos: nat, e: Event)
    requires pos <= |events| && !Skips(w, e)
    ensures CallbackTaken(w, st, events, pos, e) ==
            if e.kind.EvmEntry? && w.ident(e.etype, e.subtype, e.counterparty) in w.callbacks then
              var taken := w.callback(st, e, events[pos..]).taken;
              if taken <= |events| - pos then taken else |events| - pos
            else 0
  {
    hide RunScript;
  }

  /** A fee was taken for a swap that then found no price. */
  ghost predicate UnpricedFee(w: World, st: PotState, events: seq<Event>, pos: nat, e: Event)
    requires pos <= |events|
  {
    && !Skips(w, e) && RuleFor(w.rules, w.ident, e).value.swap
    && var cb := AfterCallback(w, st, events, pos, e);
    && HasFee(events, cb.pos, e)
    && SwapPricesFor(w.cfg, cb.state, e.timestamp, e, events[cb.pos], Some(events[cb.pos + 1])).0.NoPrices?
  }

  lemma SwapCount(cfg: PotConfig, st: PotState, pos: nat, now: Timestamp, out: Event, inn: Event,
                  fee: Option<Event>, rule: Rule)
    ensures var r := ProcessSwap(cfg, st, pos, now, out, inn, fee, rule);
            && r.pos == pos
            && (r.error.None? ==>
                  r.count == if SwapPricesFor(cfg, st, now, out, inn, fee).0.NoPrices? || fee.None? then 2 else 3)
  {
    hide AddIn, AddOut, PricesForSwap, AskedSwap, RunScript;
  }

  /** `process` never reports more events than it took, the event itself included, and reports at
      least one unless it raises. The shortfall is exactly what a callback took, plus the fee of a
      swap for which no price was found. */
  lemma ProcessCount(w: World, st: PotState, events: seq<Event>, pos: nat, e: Event)
    requires pos <= |events|
    ensures var r := Process(w, st, events, pos, e);
            && pos <= r.pos <= |events|
            && (r.error.None? ==>
                  && 1 <= r.count
                  && 1 + r.pos - pos == r.count + CallbackTaken(w, st, events, pos, e)
                                        + if UnpricedFee(w, st, events, pos, e) then 1 else 0)
  {
    hide RunScript, AddIn, AddOut, SwapPricesFor, ProcessSwap, RuleFor;
    if !Skips(w, e) {
      var cb := AfterCallback(w, st, events, pos, e);
      var rule := RuleFor(w.rules, w.ident, e).value;
      if cb.error.None? && rule.swap && HasInLeg(events, cb.pos, e) {
        SwapCount(w.cfg, cb.state, cb.pos + SwapTake(events, cb.pos, e), e.timestamp, e, events[cb.pos],
                  if HasFee(events, cb.pos, e) then Some(events[cb.pos + 1]) else None, rule);
      }
    }
  }

  lemma ProcessAnyCount(w: World, st: PotState, events: seq<Event>, pos: nat, e: Event)
    requires pos <= |events|
    ensures var r := ProcessAny(w, st, events, pos, e);
            pos <= r.pos <= |events| && (r.error.None? ==> 1 <= r.count <= 1 + r.pos - pos)
  {
    hide RunScript, Process;
    if e.kind.EvmEntry? || e.kind.PlainEntry? {
      ProcessCount(w, st, events, pos, e);
    }
  }

  // ----- Order inside a swap -----

  /** The fee of a swap is queued before the acquisition exactly when it is paid in the asset sold
      or precedes the acquisition in the transaction. So a fee paid in the acquired asset follows
      the acquisition, as the documentation says it always does, only when its sequence index is
      not the smaller one. */
  lemma FeeFollowsItsAsset(cfg: PotConfig, now: Timestamp, out: Event, inn: Event, fee: Event, p: SwapPrices,
                           taxed: real)
    requires p.Prices? && out.amount != 0.0
    ensures var queue := SwapQueue(cfg, now, out, inn, Some(fee), p, taxed);
            && |queue| == 2
            && (queue[0].OutOp? <==> fee.asset == out.asset || fee.sequenceIndex < inn.sequenceIndex)
            && (fee.asset == inn.asset != out.asset ==>
                  (queue[1].OutOp? <==> fee.sequenceIndex >= inn.sequenceIndex))
  {
  }

  // ----- What processing keeps -----

  /** Taxable pot calls of outside code are dated like the event they belong to. */
  ghost predicate DatedScript(script: Script, e: Event) {
    forall i :: 0 <= i < |script.ops| && OpTaxable(script.ops[i]) ==> OpTime(script.ops[i]) == e.timestamp
  }

  ghost predicate DatedWorld(w: World) {
    && (forall st: PotState, e: Event :: DatedScript(w.own(st, e), e))
    && (forall st: PotState, e: Event, next: seq<Event> :: DatedScript(w.callback(st, e, next).script, e))
  }

  /** Every contribution to the totals is dated no later than the end of the query period. */
  ghost predicate UpTo(events: seq<ProcessedEvent>, end: Timestamp) {
    forall i :: 0 <= i < |events| && events[i].pnl != NO_PNL ==> events[i].timestamp <= end
  }

  ghost predicate Kept(cfg: PotConfig, st: PotState) {
    Ledger(cfg, st) && UpTo(st.processed, cfg.endTs)
  }

  lemma OpKeeps(cfg: PotConfig, st: PotState, op: PotOp)
    requires Kept(cfg, st) && (OpTaxable(op) ==> OpTime(op) <= cfg.endTs)
    ensures Kept(cfg, ApplyOp(cfg, st, op).state)
  {
    hide Ledger, AddIn, AddOut;
    OpAppends(cfg, st, op);
    match op
    case InOp(a) => AddInKeepsLedger(cfg, st, a);
    case OutOp(o) => AddOutKeepsLedger(cfg, st, o);
  }

  lemma {:induction false} ScriptKeeps(cfg: PotConfig, st: PotState, ops: seq<PotOp>, error: Option<Error>)
    requires Kept(cfg, st)
    requires forall i :: 0 <= i < |ops| && OpTaxable(ops[i]) ==> OpTime(ops[i]) <= cfg.endTs
    ensures Kept(cfg, RunScript(cfg, st, ops, error).state)
    decreases |ops|
  {
    hide Kept, ApplyOp;
    if ops != [] {
      OpKeeps(cfg, st, ops[0]);
      var r := ApplyOp(cfg, st, ops[0]);
      if r.error.None? {
        ScriptKeeps(cfg, r.state, ops[1..], error);
      }
    }
  }

  lemma AskingKeeps(cfg: PotConfig, st: PotState, now: Timestamp, out: Event, inn: Event, fee: Option<Event>)
    requires Kept(cfg, st)
    ensures Kept(cfg, SwapPricesFor(cfg, st, now, out, inn, fee).1)
    ensures SwapPricesFor(cfg, st, now, out, inn, fee).1.cost == st.cost
  {
    hide Ledger, PricesForSwap;
    var st1 := SwapPricesFor(cfg, st, now, out, inn, fee).1;
    LedgerIgnoresCosts(cfg, st, st.cost, st1.queries);
  }

  lemma EmptyLegUnpriced(cfg: PotConfig, st: PotState, now: Timestamp, out: Event, inn: Event, fee: Option<Event>)
    ensures SwapPricesFor(cfg, st, now, out, inn, fee).0.Prices? ==> out.amount != 0.0 && inn.amount != 0.0
  {
    hide PricesForSwap;
  }

  lemma SwapKeeps(cfg: PotConfig, st: PotState, pos: nat, now: Timestamp, out: Event, inn: Event,
                  fee: Option<Event>, rule: Rule)
    requires Kept(cfg, st) && now <= cfg.endTs
    ensures Kept(cfg, ProcessSwap(cfg, st, pos, now, out, inn, fee, rule).state)
  {
    hide Kept, SwapPricesFor, AddIn, AddOut, RunScript;
    var (p, st1) := SwapPricesFor(cfg, st, now, out, inn, fee);
    AskingKeeps(cfg, st, now, out, inn, fee);
    if p.Prices? {
      var spend := SwapOut(now, out, rule, p.outPrice);
      OpKeeps(cfg, st1, OutOp(spend));
      var spent := AddOut(cfg, st1, spend);
      if spent.error.None? {
        EmptyLegUnpriced(cfg, st, now, out, inn, fee);
        ScriptKeeps(cfg, spent.state, SwapQueue(cfg, now, out, inn, fee, p, spent.taxable), None);
      }
    }
  }

  lemma CallbackKeeps(w: World, st: PotState, events: seq<Event>, pos: nat, e: Event)
    requires pos <= |events| && DatedWorld(w) && e.timestamp <= w.cfg.endTs && Kept(w.cfg, st)
    ensures Kept(w.cfg, AfterCallback(w, st, events, pos, e).state)
  {
    hide Kept, RunScript;
    if HasCallback(w, e) {
      var reply := w.callback(st, e, events[pos..]);
      assert DatedScript(reply.script, e);
      ScriptKeeps(w.cfg, st, reply.script.ops, reply.script.error);
    }
  }

  /** Processing any event dated up to the end of the period keeps the ledger, and with it that
      every contribution lies within the query period. */
  lemma ProcessKeeps(w: World, st: PotState, events: seq<Event>, pos: nat, e: Event)
    requires pos <= |events| && DatedWorld(w) && e.timestamp <= w.cfg.endTs && Kept(w.cfg, st)
    ensures Kept(w.cfg, ProcessAny(w, st, events, pos, e).state)
  {
    hide Kept, RunScript, ProcessSwap, AfterCallback, ApplyOp, RuleFor;
    if e.kind.EvmEntry? || e.kind.PlainEntry? {
      if !Skips(w, e) {
        CallbackKeeps(w, st, events, pos, e);
        var cb := AfterCallback(w, st, events, pos, e);
        var rule := RuleFor(w.rules, w.ident, e).value;
        if cb.error.None? && rule.swap && HasInLeg(events, cb.pos, e) {
          SwapKeeps(w.cfg, cb.state, cb.pos + SwapTake(events, cb.pos, e), e.timestamp, e, events[cb.pos],
                    if HasFee(events, cb.pos, e) then Some(events[cb.pos + 1]) else None, rule);
        } else if cb.error.None? && !rule.swap {
          OpKeeps(w.cfg, cb.state, ChangeOp(e, rule));
        }
      }
    } else {
      var script := w.own(st, e);
      assert DatedScript(script, e);
      ScriptKeeps(w.cfg, st, script.ops, script.error);
    }
  }

  // ----- What can go wrong -----

  ghost predicate BenignScript(script: Script) {
    && (forall i :: 0 <= i < |script.ops| ==> OpAmount(script.ops[i]) >= 0.0)
    && Expected(script.error)
  }

  /** Amounts are not negative, and outside code raises nothing but price errors and the TypeError of
      a swap it prices itself. */
  ghost predicate Benign(w: World, events: seq<Event>) {
    && (forall i :: 0 <= i < |events| ==> events[i].amount >= 0.0)
    && DocumentedErrors(w.cfg)
    && (forall st: PotState, e: Event :: BenignScript(w.own(st, e)))
    && (forall st: PotState, e: Event, next: seq<Event> :: BenignScript(w.callback(st, e, next).script))
  }

  /** The only error besides price errors is the TypeError of an unpriced fiat leg. */
  predicate Expected(error: Option<Error>) {
    error.Some? ==> Skippable(error.value) || error.value.TypeError?
  }

  lemma {:induction false} ScriptHealthy(cfg: PotConfig, st: PotState, ops: seq<PotOp>, error: Option<Error>)
    requires AllHealthy(st.cost, cfg.costs) && DocumentedErrors(cfg) && BenignScript(Script(ops, error))
    ensures var r := RunScript(cfg, st, ops, error);
            AllHealthy(r.state.cost, cfg.costs) && Expected(r.error)
    decreases |ops|
  {
    hide AllHealthy, ApplyOp, DocumentedErrors;
    if ops != [] {
      OpHealthy(cfg, st, ops[0]);
      var r := ApplyOp(cfg, st, ops[0]);
      if r.error.None? {
        assert BenignScript(Script(ops[1..], error));
        ScriptHealthy(cfg, r.state, ops[1..], error);
      }
    }
  }

  lemma PricesExpected(cfg: PotConfig, st: PotState, now: Timestamp, out: Event, inn: Event, fee: Option<Event>)
    requires DocumentedErrors(cfg)
    ensures var p := SwapPricesFor(cfg, st, now, out, inn, fee).0;
            p.Raises? ==> Expected(Some(p.error))
    ensures SwapPricesFor(cfg, st, now, out, inn, fee).1.cost == st.cost
  {
  }

  lemma SwapHealthy(cfg: PotConfig, st: PotState, pos: nat, now: Timestamp, out: Event, inn: Event,
                    fee: Option<Event>, rule: Rule)
    requires AllHealthy(st.cost, cfg.costs) && DocumentedErrors(cfg)
    requires out.amount >= 0.0 && inn.amount >= 0.0 && (fee.Some? ==> fee.value.amount >= 0.0)
    ensures var r := ProcessSwap(cfg, st, pos, now, out, inn, fee, rule);
            AllHealthy(r.state.cost, cfg.costs) && Expected(r.error)
  {
    hide AllHealthy, SwapPricesFor, AddIn, AddOut, RunScript, DocumentedErrors;
    var (p, st1) := SwapPricesFor(cfg, st, now, out, inn, fee);
    PricesExpected(cfg, st, now, out, inn, fee);
    EmptyLegUnpriced(cfg, st, now, out, inn, fee);
    if p.Prices? {
      var spend := SwapOut(now, out, rule, p.outPrice);
      OpHealthy(cfg, st1, OutOp(spend));
      var spent := AddOut(cfg, st1, spend);
      if spent.error.None? {
        ScriptHealthy(cfg, spent.state, SwapQueue(cfg, now, out, inn, fee, p, spent.taxable), None);
      }
    }
  }

  lemma CallbackHealthy(w: World, st: PotState, events: seq<Event>, pos: nat, e: Event)
    requires pos <= |events| && Benign(w, events) && AllHealthy(st.cost, w.cfg.costs)
    ensures var cb := AfterCallback(w, st, events, pos, e);
            AllHealthy(cb.state.cost, w.cfg.costs) && Expected(cb.error)
  {
    hide AllHealthy, RunScript, DocumentedErrors;
    if HasCallback(w, e) {
      var reply := w.callback(st, e, events[pos..]);
      assert BenignScript(reply.script);
      ScriptHealthy(w.cfg, st, reply.script.ops, reply.script.error);
    }
  }

  /** On benign input no event can trip the cost basis checks. */
  lemma ProcessHealthy(w: World, st: PotState, events: seq<Event>, pos: nat, e: Event)
    requires pos <= |events| && Benign(w, events) && e.amount >= 0.0 && AllHealthy(st.cost, w.cfg.costs)
    ensures var r := ProcessAny(w, st, events, pos, e);
            AllHealthy(r.state.cost, w.cfg.costs) && Expected(r.error)
  {
    hide AllHealthy, RunScript, ProcessSwap, AfterCallback, ApplyOp, RuleFor, DocumentedErrors;
    if e.kind.EvmEntry? || e.kind.PlainEntry? {
      if !Skips(w, e) {
        CallbackHealthy(w, st, events, pos, e);
        var cb := AfterCallback(w, st, events, pos, e);
        var rule := RuleFor(w.rules, w.ident, e).value;
        if cb.error.None? && rule.swap && HasInLeg(events, cb.pos, e) {
          SwapHealthy(w.cfg, cb.state, cb.pos + SwapTake(events, cb.pos, e), e.timestamp, e, events[cb.pos],
                      if HasFee(events, cb.pos, e) then Some(events[cb.pos + 1]) else None, rule);
        } else if cb.error.None? && !rule.swap {
          OpHealthy(w.cfg, cb.state, ChangeOp(e, rule));
        }
      }
    } else {
      var script := w.own(st, e);
      assert BenignScript(script);
      ScriptHealthy(w.cfg, st, script.ops, script.error);
    }
  }
}
