/** History events, accounting rules, and what the accounting code gets from outside. */
module Events {
  import opened Common
  import opened Pot

  datatype Direction = Inward | Outward | Neutral

  /** EVM entries may carry a counterparty and a callback. Own entries are history entries with a
      process method of their own (staking, Kraken). Other events are no history entries at all
      (trades, margin positions, loans, asset movements). */
  datatype Kind = EvmEntry | PlainEntry | OwnEntry | OtherEvent

  datatype Event = Event(kind: Kind, id: int, group: string, sequenceIndex: int, timestamp: Timestamp,
                         etype: string, subtype: string, counterparty: Option<string>,
                         direction: Option<Direction>, asset: Asset, amount: real)
  {
    predicate IsHistoryEntry() {
      !kind.OtherEvent?
    }
  }

  const FEE := "fee"
  const CPT_GAS := "gas"
  const NO_ACCOUNTING_COUNTERPARTY := "NONE"

  datatype Rule = Rule(taxable: bool, entire: bool, basis: bool, swap: bool)

  /** Pot calls made by code that is not modelled, and the error it ends with, if any. */
  datatype Script = Script(ops: seq<PotOp>, error: Option<Error>)

  /** What a module's callback does: pot calls, events taken off the iterator, returned count. */
  datatype CallbackReply = CallbackReply(script: Script, taken: nat, returned: int)

  type Identifier = (string, string, Option<string>) -> int

  /** Everything a report depends on besides the events. */
  datatype World = World(cfg: PotConfig, pastCostBasis: bool, rules: map<int, Rule>, callbacks: set<int>,
                         ident: Identifier,
                         own: (PotState, Event) -> Script,
                         callback: (PotState, Event, seq<Event>) -> CallbackReply,
                         skipped: Event -> bool)

  /** `get_type_identifier`: only EVM entries include their counterparty. */
  function TypeIdentifier(ident: Identifier, e: Event): int {
    ident(e.etype, e.subtype, if e.kind.EvmEntry? then e.counterparty else None)
  }

  /** `get_event_settings`: the exact rule first, then for EVM entries the generic one. */
  function RuleFor(rules: map<int, Rule>, ident: Identifier, e: Event): Option<Rule> {
    var exact := TypeIdentifier(ident, e);
    var generic := ident(e.etype, e.subtype, None);
    if exact in rules then Some(rules[exact])
    else if e.kind.EvmEntry? && generic in rules then Some(rules[generic])
    else None
  }

  predicate HasCallback(w: World, e: Event) {
    e.kind.EvmEntry? && TypeIdentifier(w.ident, e) in w.callbacks
  }

  datatype ScriptResult = ScriptResult(state: PotState, error: Option<Error>)

  /** Runs pot calls until one raises, then the script's own error. */
  function RunScript(cfg: PotConfig, st: PotState, ops: seq<PotOp>, error: Option<Error>): ScriptResult
    decreases |ops|
  {
    if ops == [] then ScriptResult(st, error)
    else
      var r := ApplyOp(cfg, st, ops[0]);
      if r.error.Some? then ScriptResult(r.state, r.error) else RunScript(cfg, r.state, ops[1..], error)
  }

  /** A peekable iterator over the events. */
  class EventIterator {
    const events: seq<Event>
    var pos: nat

    ghost predicate Valid()
      reads this
    {
      pos <= |events|
    }

    constructor (events: seq<Event>)
      ensures Valid() && this.events == events && pos == 0
    {
      this.events := events;
      pos := 0;
    }

    method Peek() returns (next: Option<Event>)
      requires Valid()
      ensures next == if pos < |events| then Some(events[pos]) else None
    {
      next := if pos < |events| then Some(events[pos]) else None;
    }

    method Next() returns (next: Option<Event>)
      requires Valid()
      modifies this
      ensures Valid() && next == (if old(pos) < |events| then Some(events[old(pos)]) else None)
      ensures pos == if old(pos) < |events| then old(pos) + 1 else old(pos)
    {
      next := if pos < |events| then Some(events[pos]) else None;
      if pos < |events| {
        pos := pos + 1;
      }
    }
  }
}
