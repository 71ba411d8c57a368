/** Accounting rules: the database table with its linked settings, and the in-memory manager. */
module Rules {
  import opened Common
  import opened Events

  /** A row of the rules table. The table stores a missing counterparty as "NONE". */
  datatype Row = Row(identifier: int, etype: string, subtype: string, counterparty: string, rule: Rule)

  /** A row linking a rule's property to a setting. */
  datatype Link = Link(identifier: int, property: string, setting: string)

  datatype Table = Table(rows: seq<Row>, links: seq<Link>, settings: map<string, bool>)

  function StoredCounterparty(counterparty: Option<string>): string {
    if counterparty.None? then NO_ACCOUNTING_COUNTERPARTY else counterparty.value
  }

  function RowCounterparty(row: Row): Option<string> {
    if row.counterparty == NO_ACCOUNTING_COUNTERPARTY then None else Some(row.counterparty)
  }

  /** Primary key and the uniqueness constraint on the event key. */
  ghost predicate UniqueKeys(rows: seq<Row>) {
    forall i, j :: 0 <= i < j < |rows| ==>
      && rows[i].identifier != rows[j].identifier
      && (rows[i].etype, rows[i].subtype, rows[i].counterparty)
         != (rows[j].etype, rows[j].subtype, rows[j].counterparty)
  }

  // ----- Linked properties -----

  /** What a rule's property is once settings are applied: the value of the setting linked last,
      among those settings that exist. */
  function Linked(t: Table, n: nat, identifier: int, property: string, own: bool): bool
    requires n <= |t.links|
  {
    if n == 0 then own
    else
      var l := t.links[n - 1];
      if l.identifier == identifier && l.property == property && l.setting in t.settings then t.settings[l.setting]
      else Linked(t, n - 1, identifier, property, own)
  }

  function LinkedRule(t: Table, n: nat, row: Row): Rule
    requires n <= |t.links|
  {
    Rule(Linked(t, n, row.identifier, "taxable", row.rule.taxable),
         Linked(t, n, row.identifier, "count_entire_amount_spend", row.rule.entire),
         Linked(t, n, row.identifier, "count_cost_basis_pnl", row.rule.basis),
         row.rule.swap)
  }

  /** A link of a rule's property to a setting that exists. */
  predicate Links(t: Table, k: int, row: Row, property: string) {
    && 0 <= k < |t.links|
    && t.links[k].identifier == row.identifier && t.links[k].property == property && t.links[k].setting in t.settings
  }

  /** The value a property ends with: that of the setting linked last, or the row's own. */
  ghost predicate Settles(t: Table, row: Row, property: string, own: bool, value: bool) {
    && ((forall k :: !Links(t, k, row, property)) ==> value == own)
    && (forall k :: Links(t, k, row, property) && (forall j :: j > k ==> !Links(t, j, row, property)) ==>
          value == t.settings[t.links[k].setting])
  }

  lemma {:induction false} LinkedSettles(t: Table, n: nat, row: Row, property: string, own: bool)
    requires n <= |t.links| && forall k :: n <= k ==> !Links(t, k, row, property)
    ensures Settles(t, row, property, own, Linked(t, n, row.identifier, property, own))
  {
    if n > 0 && !Links(t, n - 1, row, property) {
      LinkedSettles(t, n - 1, row, property, own);
    }
  }

  /** Field by field: each of the three linkable properties takes the value of the last existing setting
      linked to it under its own name, else the row's; the treatment as a swap cannot be linked. */
  lemma LinkedFields(t: Table, row: Row)
    ensures var rule := LinkedRule(t, |t.links|, row);
            && Settles(t, row, "taxable", row.rule.taxable, rule.taxable)
            && Settles(t, row, "count_entire_amount_spend", row.rule.entire, rule.entire)
            && Settles(t, row, "count_cost_basis_pnl", row.rule.basis, rule.basis)
            && rule.swap == row.rule.swap
  {
    hide Settles, Linked;
    LinkedSettles(t, |t.links|, row, "taxable", row.rule.taxable);
    LinkedSettles(t, |t.links|, row, "count_entire_amount_spend", row.rule.entire);
    LinkedSettles(t, |t.links|, row, "count_cost_basis_pnl", row.rule.basis);
  }

  /** `query_rules`: reads the rows, then overwrites linked properties one link at a time. Links to
      rules that are not in the table are not selected. */
  method QueryRules(t: Table) returns (rules: seq<Row>)
    requires UniqueKeys(t.rows)
    ensures |rules| == |t.rows|
    ensures forall i :: 0 <= i < |rules| ==> rules[i] == t.rows[i].(rule := LinkedRule(t, |t.links|, t.rows[i]))
  {
    hide LinkedRule;
    rules := t.rows;
    var n := 0;
    NoneLinked(t);
    while n < |t.links|
      invariant 0 <= n <= |t.links| && LinkedUpTo(t, n, rules)
    {
      var l := t.links[n];
      if l.setting in t.settings {
        var value := t.settings[l.setting];
        var k := FindRow(rules, l.identifier);
        if k < |rules| {
          ghost var before := rules;
          if l.property == "count_entire_amount_spend" {
            rules := rules[k := rules[k].(rule := rules[k].rule.(entire := value))];
          } else if l.property == "count_cost_basis_pnl" {
            rules := rules[k := rules[k].(rule := rules[k].rule.(basis := value))];
          } else if l.property == "taxable" {
            rules := rules[k := rules[k].(rule := rules[k].rule.(taxable := value))];
          }
          OneLinkApplied(t, n, before, rules, k);
        } else {
          NoLinkApplied(t, n, rules);
        }
      } else {
        NoLinkApplied(t, n, rules);
      }
      n := n + 1;
    }
  }

  /** The rows with the first `n` links applied. */
  ghost predicate LinkedUpTo(t: Table, n: nat, rules: seq<Row>)
    requires n <= |t.links|
  {
    && |rules| == |t.rows|
    && forall i :: 0 <= i < |rules| ==> rules[i] == t.rows[i].(rule := LinkedRule(t, n, t.rows[i]))
  }

  lemma NoneLinked(t: Table)
    ensures LinkedUpTo(t, 0, t.rows)
  {
  }

  /** What one more link does to a rule. */
  lemma OneLink(t: Table, n: nat, row: Row)
    requires n < |t.links|
    ensures var l, rule := t.links[n], LinkedRule(t, n, row);
            LinkedRule(t, n + 1, row) ==
            if l.identifier != row.identifier || l.setting !in t.settings then rule
            else if l.property == "count_entire_amount_spend" then rule.(entire := t.settings[l.setting])
            else if l.property == "count_cost_basis_pnl" then rule.(basis := t.settings[l.setting])
            else if l.property == "taxable" then rule.(taxable := t.settings[l.setting])
            else rule
  {
  }

  lemma NoLinkApplied(t: Table, n: nat, rules: seq<Row>)
    requires n < |t.links| && LinkedUpTo(t, n, rules)
    requires t.links[n].setting in t.settings ==>
               forall i :: 0 <= i < |rules| ==> rules[i].identifier != t.links[n].identifier
    ensures LinkedUpTo(t, n + 1, rules)
  {
    hide LinkedRule;
    forall i | 0 <= i < |rules| ensures rules[i] == t.rows[i].(rule := LinkedRule(t, n + 1, t.rows[i])) {
      OneLink(t, n, t.rows[i]);
    }
  }

  lemma OneLinkApplied(t: Table, n: nat, before: seq<Row>, after: seq<Row>, k: nat)
    requires n < |t.links| && UniqueKeys(t.rows) && LinkedUpTo(t, n, before) && t.links[n].setting in t.settings
    requires k < |before| && before[k].identifier == t.links[n].identifier
    requires |after| == |before| && forall i :: 0 <= i < |before| && i != k ==> after[i] == before[i]
    requires var property, value := t.links[n].property, t.settings[t.links[n].setting];
             after[k] == before[k].(rule :=
               if property == "count_entire_amount_spend" then before[k].rule.(entire := value)
               else if property == "count_cost_basis_pnl" then before[k].rule.(basis := value)
               else if property == "taxable" then before[k].rule.(taxable := value)
               else before[k].rule)
    ensures LinkedUpTo(t, n + 1, after)
  {
    hide LinkedRule;
    forall i | 0 <= i < |after| ensures after[i] == t.rows[i].(rule := LinkedRule(t, n + 1, t.rows[i])) {
      OneLink(t, n, t.rows[i]);
      if i != k {
        assert t.rows[i].identifier != t.rows[k].identifier;
      }
    }
  }

  method FindRow(rows: seq<Row>, identifier: int) returns (k: nat)
    ensures k <= |rows|
    ensures k < |rows| ==> rows[k].identifier == identifier
    ensures forall i :: 0 <= i < k ==> rows[i].identifier != identifier
  {
    k := 0;
    while k < |rows| && rows[k].identifier != identifier
      invariant k <= |rows| && forall i :: 0 <= i < k ==> rows[i].identifier != identifier
    {
      k := k + 1;
    }
  }

  // ----- The two-step table query -----

  function FindKey(rows: seq<Row>, etype: string, subtype: string, counterparty: string): Option<Row> {
    if rows == [] then None
    else if rows[0].etype == etype && rows[0].subtype == subtype && rows[0].counterparty == counterparty
    then Some(rows[0])
    else FindKey(rows[1..], etype, subtype, counterparty)
  }

  /** The rule by counterparty if there is one, else the generic one. */
  function TableRule(rows: seq<Row>, e: Event): Option<Row> {
    var exact := FindKey(rows, e.etype, e.subtype, StoredCounterparty(e.counterparty));
    if exact.Some? || e.counterparty.None? then exact
    else FindKey(rows, e.etype, e.subtype, NO_ACCOUNTING_COUNTERPARTY)
  }

  // ----- The manager -----

  function RowKey(ident: Identifier, row: Row): int {
    ident(row.etype, row.subtype, RowCounterparty(row))
  }

  /** The settings map after reading the first rows on top of what it held. */
  function Loaded(settings: map<int, Rule>, ident: Identifier, rows: seq<Row>): map<int, Rule> {
    if rows == [] then settings
    else Loaded(settings, ident, rows[..|rows| - 1])[RowKey(ident, rows[|rows| - 1]) := rows[|rows| - 1].rule]
  }

  class AccountingRulesManager {
    const ident: Identifier
    var eventSettings: map<int, Rule>
    var eventCallbacks: set<int>

    constructor (ident: Identifier)
      ensures this.ident == ident && eventSettings == map[] && eventCallbacks == {}
    {
      this.ident := ident;
      eventSettings, eventCallbacks := map[], {};
    }

    /** Reads all rules on top of the ones already in memory and replaces the callbacks. */
    method Reset(t: Table, callbacks: set<int>)
      requires UniqueKeys(t.rows)
      modifies this
      ensures eventCallbacks == callbacks
      ensures exists rules: seq<Row> ::
                LoadedRows(t, rules) && eventSettings == Loaded(old(eventSettings), ident, rules)
    {
      var rules := QueryRules(t);
      var i := 0;
      while i < |rules|
        invariant 0 <= i <= |rules| && eventSettings == Loaded(old(eventSettings), ident, rules[..i])
      {
        assert rules[..i + 1][..i] == rules[..i];
        eventSettings := eventSettings[RowKey(ident, rules[i]) := rules[i].rule];
        i := i + 1;
      }
      assert rules[..i] == rules;
      eventCallbacks := callbacks;
      assert LoadedRows(t, rules);
    }

    method CleanRules()
      modifies this
      ensures eventSettings == map[] && eventCallbacks == {}
    {
      eventSettings, eventCallbacks := map[], {};
    }

    method GetEventSettings(e: Event) returns (rule: Option<Rule>, callback: bool)
      ensures rule == RuleFor(eventSettings, ident, e)
      ensures callback == (TypeIdentifier(ident, e) in eventCallbacks)
    {
      var exact := TypeIdentifier(ident, e);
      rule := if exact in eventSettings then Some(eventSettings[exact]) else None;
      callback := exact in eventCallbacks;
      if e.kind.EvmEntry? && rule.None? {
        var generic := ident(e.etype, e.subtype, None);
        rule := if generic in eventSettings then Some(eventSettings[generic]) else None;
      }
    }
  }

  /** The table's rows with their linked properties applied. */
  ghost predicate LoadedRows(t: Table, rules: seq<Row>) {
    && |rules| == |t.rows|
    && forall i :: 0 <= i < |rules| ==> rules[i] == t.rows[i].(rule := LinkedRule(t, |t.links|, t.rows[i]))
  }

  // ----- Memory agrees with the table -----

  ghost predicate Injective(ident: Identifier) {
    forall a, b, c, a', b', c' :: ident(a, b, c) == ident(a', b', c') ==> a == a' && b == b' && c == c'
  }

  /** Only EVM entries carry a counterparty. */
  predicate WellFormed(e: Event) {
    e.counterparty.Some? ==> e.kind.EvmEntry?
  }

  function RuleOf(row: Option<Row>): Option<Rule> {
    if row.Some? then Some(row.value.rule) else None
  }

  function MapGet(m: map<int, Rule>, k: int): Option<Rule> {
    if k in m then Some(m[k]) else None
  }

  lemma {:induction false} FindKeyAppend(rows: seq<Row>, row: Row, etype: string, subtype: string, counterparty: string)
    ensures var found := FindKey(rows, etype, subtype, counterparty);
            FindKey(rows + [row], etype, subtype, counterparty) ==
            if found.Some? then found
            else if row.etype == etype && row.subtype == subtype && row.counterparty == counterparty then Some(row)
            else None
  {
    if rows == [] {
      assert rows + [row] == [row] && [row][1..] == [];
    } else {
      FindKeyAppend(rows[1..], row, etype, subtype, counterparty);
      assert (rows + [row])[1..] == rows[1..] + [row];
    }
  }

  lemma {:induction false} FindKeyNone(rows: seq<Row>, row: Row)
    requires forall i :: 0 <= i < |rows| ==>
               (rows[i].etype, rows[i].subtype, rows[i].counterparty) != (row.etype, row.subtype, row.counterparty)
    ensures FindKey(rows, row.etype, row.subtype, row.counterparty).None?
  {
    if rows != [] {
      FindKeyNone(rows[1..], row);
    }
  }

  /** Loading into an empty map: a key is bound exactly to the rule of its row. */
  lemma {:induction false} LoadedIsLookup(ident: Identifier, rows: seq<Row>, etype: string, subtype: string,
                                          counterparty: Option<string>)
    requires Injective(ident) && UniqueKeys(rows)
    requires counterparty != Some(NO_ACCOUNTING_COUNTERPARTY)
    ensures MapGet(Loaded(map[], ident, rows), ident(etype, subtype, counterparty))
            == RuleOf(FindKey(rows, etype, subtype, StoredCounterparty(counterparty)))
    decreases |rows|
  {
    if rows != [] {
      var n := |rows| - 1;
      var row := rows[n];
      LoadedIsLookup(ident, rows[..n], etype, subtype, counterparty);
      assert rows == rows[..n] + [row];
      FindKeyAppend(rows[..n], row, etype, subtype, StoredCounterparty(counterparty));
      if row.etype == etype && row.subtype == subtype && row.counterparty == StoredCounterparty(counterparty) {
        assert RowCounterparty(row) == counterparty;
        FindKeyNone(rows[..n], row);
      } else {
        assert RowKey(ident, row) != ident(etype, subtype, counterparty);
      }
    }
  }

  lemma {:induction false} LoadedSentinel(ident: Identifier, rows: seq<Row>, etype: string, subtype: string)
    requires Injective(ident)
    ensures ident(etype, subtype, Some(NO_ACCOUNTING_COUNTERPARTY)) !in Loaded(map[], ident, rows)
    decreases |rows|
  {
    if rows != [] {
      LoadedSentinel(ident, rows[..|rows| - 1], etype, subtype);
    }
  }

  /** After a reset from empty maps, the in-memory lookup with its counterparty fallback finds the
      same rule as the two-step query of the table, for every event and every table, with linked
      properties replaced by their setting's value. */
  lemma MemoryAgreesWithTable(ident: Identifier, t: Table, rules: seq<Row>, e: Event)
    requires Injective(ident) && UniqueKeys(t.rows) && LoadedRows(t, rules) && WellFormed(e)
    ensures var row := TableRule(t.rows, e);
            RuleFor(Loaded(map[], ident, rules), ident, e)
            == if row.Some? then Some(LinkedRule(t, |t.links|, row.value)) else None
  {
    hide Loaded, LinkedRule, FindKey;
    assert UniqueKeys(rules);
    TableRuleLinked(t, rules, e);
    var loaded := Loaded(map[], ident, rules);
    LoadedIsLookup(ident, rules, e.etype, e.subtype, None);
    if e.counterparty == Some(NO_ACCOUNTING_COUNTERPARTY) {
      LoadedSentinel(ident, rules, e.etype, e.subtype);
    } else {
      LoadedIsLookup(ident, rules, e.etype, e.subtype, e.counterparty);
    }
  }

  lemma TableRuleLinked(t: Table, rules: seq<Row>, e: Event)
    requires LoadedRows(t, rules)
    ensures var row := TableRule(t.rows, e);
            TableRule(rules, e)
            == if row.Some? then Some(row.value.(rule := LinkedRule(t, |t.links|, row.value))) else None
  {
    hide LinkedRule, FindKey;
    FindKeyLinked(t, t.rows, rules, e.etype, e.subtype, StoredCounterparty(e.counterparty));
    FindKeyLinked(t, t.rows, rules, e.etype, e.subtype, NO_ACCOUNTING_COUNTERPARTY);
  }

  lemma {:induction false} FindKeyLinked(t: Table, rows: seq<Row>, rules: seq<Row>, etype: string, subtype: string,
                                         counterparty: string)
    requires |rows| == |rules|
    requires forall i :: 0 <= i < |rows| ==> rules[i] == rows[i].(rule := LinkedRule(t, |t.links|, rows[i]))
    ensures var row := FindKey(rows, etype, subtype, counterparty);
            FindKey(rules, etype, subtype, counterparty)
            == if row.Some? then Some(row.value.(rule := LinkedRule(t, |t.links|, row.value))) else None
    decreases |rows|
  {
    hide LinkedRule;
    if rows != [] {
      FindKeyLinked(t, rows[1..], rules[1..], etype, subtype, counterparty);
    }
  }

  // ----- Resetting over old rules -----

  /** A reset binds the keys of the table's rows and leaves every other key as it was. */
  lemma {:induction false} LoadedOver(held: map<int, Rule>, ident: Identifier, rows: seq<Row>, key: int)
    ensures var clean := Loaded(map[], ident, rows);
            MapGet(Loaded(held, ident, rows), key) == if key in clean then Some(clean[key]) else MapGet(held, key)
    decreases |rows|
  {
    if rows != [] {
      LoadedOver(held, ident, rows[..|rows| - 1], key);
    }
  }

  /** Whether rules held from before a reset leave the rule found for an event alone: the table has
      the exact rule; or a stale exact rule happens to equal what the table gives; or no exact rule
      is held and the generic one does not matter, is in the table, or is not held. */
  predicate StaleHarmless(held: map<int, Rule>, clean: map<int, Rule>, ident: Identifier, e: Event) {
    var exact, generic := TypeIdentifier(ident, e), ident(e.etype, e.subtype, None);
    || exact in clean
    || (exact in held && RuleFor(clean, ident, e) == Some(held[exact]))
    || (exact !in held && (!e.kind.EvmEntry? || generic in clean || generic !in held))
  }

  /** A reset does not clear old rules. It finds the same rule as a reset from empty maps if and only
      if the old rules are harmless for the event. Old rules are held after a report that stopped
      with an error, which never gets to `clean_rules`. */
  lemma StaleHarmlessIff(held: map<int, Rule>, ident: Identifier, rows: seq<Row>, e: Event)
    ensures var clean := Loaded(map[], ident, rows);
            RuleFor(Loaded(held, ident, rows), ident, e) == RuleFor(clean, ident, e)
            <==> StaleHarmless(held, clean, ident, e)
  {
    hide Loaded;
    LoadedOver(held, ident, rows, TypeIdentifier(ident, e));
    LoadedOver(held, ident, rows, ident(e.etype, e.subtype, None));
  }

  /** A rule deleted from the table after such a report survives the next reset. */
  lemma StaleRuleSurvives(ident: Identifier, stale: Rule, rows: seq<Row>, e: Event)
    requires Injective(ident) && UniqueKeys(rows) && TableRule(rows, e).None? && WellFormed(e)
    ensures var held := map[TypeIdentifier(ident, e) := stale];
            RuleFor(Loaded(held, ident, rows), ident, e) == Some(stale)
  {
    hide Loaded, FindKey;
    var exact := TypeIdentifier(ident, e);
    LoadedOver(map[exact := stale], ident, rows, exact);
    if e.counterparty == Some(NO_ACCOUNTING_COUNTERPARTY) {
      LoadedSentinel(ident, rows, e.etype, e.subtype);
    } else {
      LoadedIsLookup(ident, rows, e.etype, e.subtype, e.counterparty);
    }
  }
}
