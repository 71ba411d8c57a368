/** Tracked accounts: which addresses are tracked on which chain, and how adding an address to all
    EVM chains changes that when checks and connections fail. */
module Accounts {
  import opened Common
  import opened Balances

  /** Addresses tracked per chain. */
  type Tracked = map<Chain, seq<Address>>

  type Pair = (Chain, Address)

  datatype Activity = Active | Inactive | Unreachable

  /** Answers from outside: whether an address is an Ethereum contract (none if that cannot be
      found out), whether it was active on a chain, whether preparing a chain for a modification
      and connecting to it for a new account succeed, and the legacy form of Bitcoin Cash
      addresses. */
  datatype Remote = Remote(isContract: Address -> Option<bool>, activity: (Address, Chain) -> Activity,
                           prepares: Chain -> bool, connects: (Address, Chain) -> bool,
                           legacy: Address -> Address)

  datatype Outcome = Ok | InputError | RemoteFailure

  const EVM_CHAINS: seq<Chain> :=
    [Ethereum, Optimism, Avalanche, PolygonPos, ArbitrumOne, Base, Gnosis, Scroll]

  predicate IsEvm(c: Chain) {
    c in {Ethereum, Optimism, Avalanche, PolygonPos, ArbitrumOne, Base, Gnosis, Scroll}
  }

  /** Only the substrate chains need a node before accounts are added. */
  predicate Prepared(w: Remote, c: Chain) {
    (c.Kusama? || c.Polkadot?) ==> w.prepares(c)
  }

  /** Chains whose nodes are connected to when an account is added; elsewhere nothing can fail. */
  predicate Connects(w: Remote, a: Address, c: Chain) {
    IsEvm(c) && !c.Avalanche? ==> w.connects(a, c)
  }

  function Get(tr: Tracked, c: Chain): seq<Address> {
    if c in tr then tr[c] else []
  }

  predicate IsTracked(tr: Tracked, c: Chain, a: Address) {
    a in Get(tr, c)
  }

  function Add(tr: Tracked, c: Chain, a: Address): Tracked {
    tr[c := Get(tr, c) + [a]]
  }

  predicate NoDuplicates<T(==)>(s: seq<T>) {
    forall i, j :: 0 <= i < j < |s| ==> s[i] != s[j]
  }

  // ----- One chain -----

  /** The accounts a request names wrongly: already tracked when adding, not tracked when removing.
      Bitcoin Cash addresses are compared in their legacy form when adding. */
  predicate Existent(w: Remote, tr: Tracked, c: Chain, a: Address, adding: bool) {
    if c.BitcoinCash? && adding then
      IsTracked(tr, c, a) || exists b :: b in Get(tr, c) && w.legacy(b) == w.legacy(a)
    else IsTracked(tr, c, a)
  }

  predicate AnyBad(w: Remote, tr: Tracked, c: Chain, accounts: seq<Address>, adding: bool) {
    exists a :: a in accounts && Existent(w, tr, c, a, adding) == adding
  }

  /** How many of the accounts are added before a connection fails: the failing one included. */
  function AddedBefore(w: Remote, c: Chain, accounts: seq<Address>): nat {
    if accounts == [] then 0
    else if !Connects(w, accounts[0], c) then 1
    else 1 + AddedBefore(w, c, accounts[1..])
  }

  predicate AllConnect(w: Remote, c: Chain, accounts: seq<Address>) {
    forall i :: 0 <= i < |accounts| ==> Connects(w, accounts[i], c)
  }

  /** The tracked addresses without the given ones, in order. */
  function Remaining(tracked: seq<Address>, accounts: set<Address>): seq<Address> {
    if tracked == [] then []
    else (if tracked[0] in accounts then [] else [tracked[0]]) + Remaining(tracked[1..], accounts)
  }

  function AsSet(accounts: seq<Address>): set<Address> {
    set a | a in accounts
  }

  function DropAccounts(h: Holdings, accounts: set<Address>): Holdings {
    match h
    case Tokens(sheets) => Tokens(sheets - accounts)
    case Coins(coins) => Coins(coins - accounts)
  }

  // ----- One address, all EVM chains -----

  datatype Tracking = Tracking(tracked: Tracked, added: seq<Chain>, failed: seq<Chain>)

  /** `track_evm_address`: on each chain in turn the address is added unless it is tracked there
      already. It stays added even if connecting to the chain then fails. */
  function Track(w: Remote, tr: Tracked, a: Address, chains: seq<Chain>): Tracking
    decreases |chains|
  {
    if chains == [] then Tracking(tr, [], [])
    else
      var c := chains[0];
      if IsTracked(tr, c, a) then
        var t := Track(w, tr, a, chains[1..]);
        t.(failed := [c] + t.failed)
      else
        var t := Track(w, Add(tr, c, a), a, chains[1..]);
        if Connects(w, a, c) then t.(added := [c] + t.added) else t.(failed := [c] + t.failed)
  }

  function WithActivity(w: Remote, a: Address, chains: seq<Chain>, x: Activity): seq<Chain> {
    if chains == [] then []
    else (if w.activity(a, chains[0]) == x then [chains[0]] else []) + WithActivity(w, a, chains[1..], x)
  }

  function Pairs(chains: seq<Chain>, a: Address): seq<Pair> {
    if chains == [] then [] else [(chains[0], a)] + Pairs(chains[1..], a)
  }

  datatype Checked = Checked(tracked: Tracked, added: seq<Pair>, failed: seq<Pair>, hadActivity: bool)

  function CheckAndAdd(w: Remote, tr: Tracked, a: Address, chains: seq<Chain>): Checked {
    var active := WithActivity(w, a, chains, Active);
    if active == [] then Checked(tr, [], [], false)
    else
      var t := Track(w, tr, a, active);
      Checked(t.tracked, Pairs(t.added, a), Pairs(WithActivity(w, a, chains, Unreachable) + t.failed, a), true)
  }

  /** The lists `add_accounts_to_all_evm` returns. */
  datatype Added = Added(tracked: Tracked, added: seq<Pair>, existed: seq<Pair>, failed: seq<Pair>,
                         noActivity: seq<Pair>, contracts: seq<Address>, outcome: Outcome)

  /** The chains among the given ones where the address is, or is not, tracked. */
  function ChainsWhere(tr: Tracked, a: Address, chains: seq<Chain>, tracked: bool): seq<Chain> {
    if chains == [] then []
    else (if IsTracked(tr, chains[0], a) == tracked then [chains[0]] else []) + ChainsWhere(tr, a, chains[1..], tracked)
  }

  function AddOne(w: Remote, r: Added, a: Address): Added {
    var tr := r.tracked;
    var existed := r.existed + Pairs(ChainsWhere(tr, a, EVM_CHAINS, true), a);
    match w.isContract(a)
    case None => r.(existed := existed, outcome := RemoteFailure)
    case Some(true) =>
      var t := Track(w, tr, a, [Ethereum]);
      var isNew := |t.added| == 1;
      r.(tracked := t.tracked, existed := existed,
         added := if isNew then r.added + [(Ethereum, a)] else r.added,
         contracts := if isNew then r.contracts + [a] else r.contracts)
    case Some(false) =>
      var chains := ChainsWhere(tr, a, EVM_CHAINS, false);
      var k := CheckAndAdd(w, tr, a, chains);
      if k.hadActivity then
        r.(tracked := k.tracked, existed := existed, added := r.added + k.added, failed := r.failed + k.failed)
      else
        r.(tracked := k.tracked, existed := existed, noActivity := r.noActivity + Pairs(chains, a))
  }

  function AddAll(w: Remote, r: Added, accounts: seq<Address>): Added
    decreases |accounts|
  {
    if accounts == [] || r.outcome != Ok then r else AddAll(w, AddOne(w, r, accounts[0]), accounts[1..])
  }

  function Start(tr: Tracked): Added {
    Added(tr, [], [], [], [], [], Ok)
  }

  // ----- The object -----

  class ChainsAggregator {
    const remote: Remote
    var accounts: Tracked
    var balances: AllBalances
    var totals: Sheet

    /** The stored totals are the sums over all chains. */
    ghost predicate TotalsCurrent()
      reads this
    {
      forall asset: Asset, side: Side :: Cell(totals, asset, side) == TotalSum(balances, asset, side)
    }

    ghost predicate Valid()
      reads this
    {
      Complete(balances)
    }

    constructor (remote: Remote)
      ensures this.remote == remote && accounts == map[] && Valid()
    {
      this.remote := remote;
      accounts := map[];
      balances := map c: Chain | true :: if IsBitcoin(c) then Coins(map[]) else Tokens(map[]);
      totals := EMPTY_SHEET;
    }

    method CheckAccountsExistence(c: Chain, names: seq<Address>, adding: bool) returns (outcome: Outcome)
      ensures outcome == if AnyBad(remote, accounts, c, names, adding) then InputError else Ok
    {
      var bad := [];
      var i := 0;
      while i < |names|
        invariant 0 <= i <= |names|
        invariant bad == [] <==> forall j :: 0 <= j < i ==> Existent(remote, accounts, c, names[j], adding) != adding
      {
        if Existent(remote, accounts, c, names[i], adding) == adding {
          bad := bad + [names[i]];
        }
        i := i + 1;
      }
      outcome := if bad == [] then Ok else InputError;
    }

    /** Adding accounts to one chain. Rejected requests change nothing. Otherwise the accounts are
        appended in order, and if a connection fails midway the ones already appended, the failing
        one included, stay. */
    method AppendAccounts(c: Chain, names: seq<Address>) returns (outcome: Outcome)
      modifies this`accounts
      ensures Appended(remote, old(accounts), accounts, c, names, outcome)
    {
      hide AnyBad, Get, AddMany, AddedBefore, Connects, Add;
      AddedBeforeBound(remote, c, names);
      outcome := CheckAccountsExistence(c, names, true);
      if outcome == InputError {
        return;
      }
      if !Prepared(remote, c) {
        return RemoteFailure;
      }
      var i := 0;
      AddManyNone(accounts, c, names);
      while i < |names|
        invariant 0 <= i <= |names|
        invariant accounts == AddMany(old(accounts), c, names[..i])
        invariant AddedBefore(remote, c, names) == i + AddedBefore(remote, c, names[i..])
        invariant forall j :: 0 <= j < i ==> Connects(remote, names[j], c)
      {
        AddManyStep(remote, old(accounts), c, names, i);
        accounts := Add(accounts, c, names[i]);
        if !Connects(remote, names[i], c) {
          return RemoteFailure;
        }
        i := i + 1;
      }
      assert names[..i] == names;
      outcome := Ok;
    }

    /** Removing accounts from one chain: every occurrence goes, their balances too, and the totals
        are recalculated. */
    method RemoveAccounts(c: Chain, names: seq<Address>) returns (outcome: Outcome)
      requires Valid()
      modifies this
      ensures Valid()
      ensures outcome == if AnyBad(remote, old(accounts), c, names, false) then InputError else Ok
      ensures outcome != Ok ==> unchanged(this)
      ensures outcome == Ok ==>
                && TotalsCurrent()
                && accounts == RemoveMany(old(accounts), c, names)
                && balances == old(balances)[c := DropAccounts(old(balances)[c], AsSet(names))]
    {
      hide TotalSum, AnyBad, Remaining, DropAccounts, AsSet, Get, RemoveMany, Complete;
      outcome := CheckAccountsExistence(c, names, false);
      if outcome == InputError {
        return;
      }
      var i := 0;
      CompleteAt(balances, c);
      DropNone(balances[c]);
      RemoveManyNone(accounts, c, names);
      while i < |names|
        invariant 0 <= i <= |names| && Valid() && c in old(balances)
        invariant accounts == RemoveMany(old(accounts), c, names[..i])
        invariant balances == old(balances)[c := DropAccounts(old(balances)[c], AsSet(names[..i]))]
      {
        CompleteAt(balances, c);
        RemoveManyStep(old(accounts), c, names, i);
        DropMore(old(balances)[c], names, i);
        CompleteUpdate(balances, c, DropAccounts(balances[c], {names[i]}));
        balances := balances[c := DropAccounts(balances[c], {names[i]})];
        accounts := accounts[c := Remaining(Get(accounts, c), {names[i]})];
        i := i + 1;
      }
      assert names[..i] == names;
      totals := RecalculateTotals(balances);
      outcome := Ok;
    }

    /** The end of `query_balances`: whatever the chain queries stored, the totals follow. */
    method QueryBalances(queried: AllBalances)
      requires Complete(queried)
      modifies this
      ensures Valid() && accounts == old(accounts) && balances == queried && TotalsCurrent()
    {
      hide TotalSum;
      balances := queried;
      totals := RecalculateTotals(balances);
    }

    method CheckSingleAddressActivity(a: Address, chains: seq<Chain>) returns (active: seq<Chain>, failed: seq<Chain>)
      ensures active == WithActivity(remote, a, chains, Active)
              && failed == WithActivity(remote, a, chains, Unreachable)
    {
      active, failed := [], [];
      var i := 0;
      while i < |chains|
        invariant 0 <= i <= |chains|
        invariant active == WithActivity(remote, a, chains[..i], Active)
        invariant failed == WithActivity(remote, a, chains[..i], Unreachable)
      {
        assert chains[..i + 1] == chains[..i] + [chains[i]];
        ActivityAppend(remote, a, chains[..i], chains[i], Active);
        ActivityAppend(remote, a, chains[..i], chains[i], Unreachable);
        match remote.activity(a, chains[i]) {
          case Active => active := active + [chains[i]];
          case Unreachable => failed := failed + [chains[i]];
          case Inactive =>
        }
        i := i + 1;
      }
      assert chains[..i] == chains;
    }

    /** Modifies one chain after the other; EVM chains need no preparation. */
    method TrackEvmAddress(a: Address, chains: seq<Chain>) returns (added: seq<Chain>, failed: seq<Chain>)
      requires forall i :: 0 <= i < |chains| ==> IsEvm(chains[i])
      modifies this`accounts
      ensures Tracking(accounts, added, failed) == Track(remote, old(accounts), a, chains)
    {
      hide IsTracked, Add, Connects, IsEvm;
      added, failed := [], [];
      var i := 0;
      while i < |chains|
        invariant 0 <= i <= |chains|
        invariant var rest := Track(remote, accounts, a, chains[i..]);
                  Track(remote, old(accounts), a, chains)
                  == Tracking(rest.tracked, added + rest.added, failed + rest.failed)
      {
        assert chains[i..][1..] == chains[i + 1..];
        var c := chains[i];
        var outcome := AppendOne(c, a);
        if outcome == Ok {
          added := added + [c];
        } else {
          failed := failed + [c];
        }
        i := i + 1;
      }
    }

    /** `modify_blockchain_accounts` with a single address of an EVM chain. */
    method AppendOne(c: Chain, a: Address) returns (outcome: Outcome)
      requires IsEvm(c)
      modifies this`accounts
      ensures outcome == (if IsTracked(old(accounts), c, a) then InputError
                          else if Connects(remote, a, c) then Ok else RemoteFailure)
      ensures accounts == if IsTracked(old(accounts), c, a) then old(accounts) else Add(old(accounts), c, a)
    {
      hide AddedBefore;
      var before := accounts;
      outcome := AppendAccounts(c, [a]);
      AppendedOne(remote, before, accounts, c, a, outcome);
    }

    /** One address of `add_accounts_to_all_evm`. */
    method AddOneAccount(r: Added, a: Address) returns (s: Added)
      requires r.tracked == accounts
      modifies this`accounts
      ensures s == AddOne(remote, r, a) && s.tracked == accounts
    {
      hide Track, ChainsWhere, WithActivity, Pairs, IsEvm;
      var existed := r.existed + Pairs(ChainsWhere(accounts, a, EVM_CHAINS, true), a);
      EthereumIsEvm();
      match remote.isContract(a) {
        case None => s := r.(existed := existed, outcome := RemoteFailure);
        case Some(contract) =>
          if contract {
            var added, _ := TrackEvmAddress(a, [Ethereum]);
            s := r.(tracked := accounts, existed := existed);
            if |added| == 1 {
              s := s.(added := r.added + [(Ethereum, a)], contracts := r.contracts + [a]);
            }
          } else {
            var chains := ChainsWhere(accounts, a, EVM_CHAINS, false);
            EvmSelection(accounts, a, chains);
            var active, failed := CheckSingleAddressActivity(a, chains);
            ActiveSelection(remote, a, chains);
            if active == [] {
              s := r.(existed := existed, noActivity := r.noActivity + Pairs(chains, a));
            } else {
              var added, failedMore := TrackEvmAddress(a, active);
              s := r.(tracked := accounts, existed := existed, added := r.added + Pairs(added, a),
                      failed := r.failed + Pairs(failed + failedMore, a));
            }
          }
      }
    }

    method AddAccountsToAllEvm(names: seq<Address>) returns (r: Added)
      modifies this`accounts
      ensures r == AddAll(remote, Start(old(accounts)), names) && r.tracked == accounts
    {
      hide AddOne;
      r := Start(accounts);
      var i := 0;
      while i < |names| && r.outcome == Ok
        invariant 0 <= i <= |names| && r.tracked == accounts
        invariant AddAll(remote, Start(old(accounts)), names) == AddAll(remote, r, names[i..])
      {
        assert names[i..][1..] == names[i + 1..];
        r := AddOneAccount(r, names[i]);
        i := i + 1;
      }
    }
  }

  lemma EthereumIsEvm()
    ensures IsEvm(Ethereum)
  {
  }

  // ----- Facts about selections -----

  lemma {:induction false} ChainsWhereMembers(tr: Tracked, a: Address, chains: seq<Chain>, tracked: bool)
    ensures forall c :: c in ChainsWhere(tr, a, chains, tracked) <==> c in chains && IsTracked(tr, c, a) == tracked
    ensures NoDuplicates(chains) ==> NoDuplicates(ChainsWhere(tr, a, chains, tracked))
  {
    hide IsTracked;
    if chains != [] {
      ChainsWhereMembers(tr, a, chains[1..], tracked);
      assert chains == [chains[0]] + chains[1..];
      var rest := ChainsWhere(tr, a, chains[1..], tracked);
      if NoDuplicates(chains) {
        NotLater(chains, rest);
      }
    }
  }

  lemma NotLater(chains: seq<Chain>, rest: seq<Chain>)
    requires chains != [] && NoDuplicates(chains) && forall c :: c in rest ==> c in chains[1..]
    ensures forall j :: 0 <= j < |rest| ==> rest[j] != chains[0]
    ensures NoDuplicates(chains[1..])
  {
    forall j | 0 <= j < |rest| ensures rest[j] != chains[0] {
      assert rest[j] in rest;
      var k :| 0 <= k < |chains[1..]| && chains[1..][k] == rest[j];
      assert chains[k + 1] == rest[j];
    }
  }

  lemma {:induction false} ActivityMembers(w: Remote, a: Address, chains: seq<Chain>, x: Activity)
    ensures forall c :: c in WithActivity(w, a, chains, x) <==> c in chains && w.activity(a, c) == x
    ensures NoDuplicates(chains) ==> NoDuplicates(WithActivity(w, a, chains, x))
  {
    if chains != [] {
      ActivityMembers(w, a, chains[1..], x);
      assert chains == [chains[0]] + chains[1..];
      var rest := WithActivity(w, a, chains[1..], x);
      if NoDuplicates(chains) {
        NotLater(chains, rest);
      }
    }
  }

  lemma {:induction false} ActivityAppend(w: Remote, a: Address, chains: seq<Chain>, c: Chain, x: Activity)
    ensures WithActivity(w, a, chains + [c], x)
         == WithActivity(w, a, chains, x) + if w.activity(a, c) == x then [c] else []
  {
    if chains == [] {
      assert chains + [c] == [c] && [c][1..] == [];
    } else {
      ActivityAppend(w, a, chains[1..], c, x);
      assert (chains + [c])[1..] == chains[1..] + [c];
    }
  }

  lemma {:induction false} PairsMembers(chains: seq<Chain>, a: Address)
    ensures forall p: Pair :: p in Pairs(chains, a) <==> p.0 in chains && p.1 == a
  {
    if chains != [] {
      PairsMembers(chains[1..], a);
      assert chains == [chains[0]] + chains[1..];
    }
  }

  lemma EvmChainsFacts()
    ensures NoDuplicates(EVM_CHAINS) && forall c: Chain :: c in EVM_CHAINS <==> IsEvm(c)
  {
  }

  lemma EvmSelection(tr: Tracked, a: Address, chains: seq<Chain>)
    requires chains == ChainsWhere(tr, a, EVM_CHAINS, false)
    ensures forall i :: 0 <= i < |chains| ==> IsEvm(chains[i])
    ensures forall c :: c in chains <==> IsEvm(c) && !IsTracked(tr, c, a)
    ensures NoDuplicates(chains)
  {
    hide EVM_CHAINS, IsEvm, IsTracked, ChainsWhere;
    EvmChainsFacts();
    ChainsWhereMembers(tr, a, EVM_CHAINS, false);
    assert forall i :: 0 <= i < |chains| ==> chains[i] in chains;
  }

  lemma ActiveSelection(w: Remote, a: Address, chains: seq<Chain>)
    requires forall i :: 0 <= i < |chains| ==> IsEvm(chains[i])
    ensures var active := WithActivity(w, a, chains, Active);
            forall i :: 0 <= i < |active| ==> IsEvm(active[i])
  {
    hide IsEvm, WithActivity;
    ActivityMembers(w, a, chains, Active);
    var active := WithActivity(w, a, chains, Active);
    forall i | 0 <= i < |active| ensures IsEvm(active[i]) {
      assert active[i] in active;
      var k :| 0 <= k < |chains| && chains[k] == active[i];
    }
  }

  // ----- Adding and removing on one chain -----

  function AddMany(tr: Tracked, c: Chain, accounts: seq<Address>): Tracked {
    if accounts == [] then tr else Add(AddMany(tr, c, accounts[..|accounts| - 1]), c, accounts[|accounts| - 1])
  }

  function RemoveMany(tr: Tracked, c: Chain, accounts: seq<Address>): Tracked {
    if accounts == [] then tr
    else
      var before := RemoveMany(tr, c, accounts[..|accounts| - 1]);
      before[c := Remaining(Get(before, c), {accounts[|accounts| - 1]})]
  }

  /** What adding accounts leads to: an input error and no change if one is tracked already, no
      change if the chain cannot be prepared, else the accounts up to the first failing one. */
  ghost predicate Appended(w: Remote, before: Tracked, after: Tracked, c: Chain, accounts: seq<Address>,
                           outcome: Outcome) {
    if AnyBad(w, before, c, accounts, true) then outcome == InputError && after == before
    else if !Prepared(w, c) then outcome == RemoteFailure && after == before
    else
      && AddedBefore(w, c, accounts) <= |accounts|
      && after == AddMany(before, c, accounts[..AddedBefore(w, c, accounts)])
      && outcome == if AllConnect(w, c, accounts) then Ok else RemoteFailure
  }

  lemma AddManyNone(tr: Tracked, c: Chain, names: seq<Address>)
    ensures AddMany(tr, c, names[..0]) == tr && names[0..] == names
  {
  }

  lemma AddManyStep(w: Remote, tr: Tracked, c: Chain, names: seq<Address>, i: nat)
    requires i < |names|
    ensures AddMany(tr, c, names[..i + 1]) == Add(AddMany(tr, c, names[..i]), c, names[i])
    ensures AddedBefore(w, c, names[i..])
            == 1 + if Connects(w, names[i], c) then AddedBefore(w, c, names[i + 1..]) else 0
  {
    hide Connects, Add;
    assert names[..i + 1][..i] == names[..i] && names[i..][1..] == names[i + 1..];
  }

  lemma RemoveManyNone(tr: Tracked, c: Chain, names: seq<Address>)
    ensures RemoveMany(tr, c, names[..0]) == tr && names[..0] == []
  {
  }

  lemma RemoveManyStep(tr: Tracked, c: Chain, names: seq<Address>, i: nat)
    requires i < |names|
    ensures var before := RemoveMany(tr, c, names[..i]);
            RemoveMany(tr, c, names[..i + 1]) == before[c := Remaining(Get(before, c), {names[i]})]
  {
    assert names[..i + 1][..i] == names[..i];
  }

  lemma CompleteAt(bs: AllBalances, c: Chain)
    requires Complete(bs)
    ensures c in bs && (bs[c].Coins? <==> IsBitcoin(c))
  {
  }

  lemma CompleteUpdate(bs: AllBalances, c: Chain, h: Holdings)
    requires Complete(bs) && (h.Coins? <==> bs[c].Coins?)
    ensures Complete(bs[c := h])
  {
  }

  lemma {:induction false} AddedBeforeBound(w: Remote, c: Chain, accounts: seq<Address>)
    ensures AddedBefore(w, c, accounts) <= |accounts|
    ensures AllConnect(w, c, accounts) ==> AddedBefore(w, c, accounts) == |accounts|
  {
    hide Connects;
    if accounts != [] {
      AddedBeforeBound(w, c, accounts[1..]);
    }
  }

  lemma AppendedOne(w: Remote, before: Tracked, after: Tracked, c: Chain, a: Address, outcome: Outcome)
    requires IsEvm(c) && Appended(w, before, after, c, [a], outcome)
    ensures outcome == (if IsTracked(before, c, a) then InputError else if Connects(w, a, c) then Ok else RemoteFailure)
    ensures after == if IsTracked(before, c, a) then before else Add(before, c, a)
  {
    assert AnyBad(w, before, c, [a], true) <==> IsTracked(before, c, a) by {
      assert a in [a];
    }
    assert AddedBefore(w, c, [a]) == 1 && [a][..1] == [a] && [a][..0] == [];
    assert AddMany(before, c, []) == before;
    assert AllConnect(w, c, [a]) <==> Connects(w, a, c) by {
      assert [a][0] == a;
    }
  }

  lemma {:induction false} AddManyGet(tr: Tracked, c: Chain, accounts: seq<Address>)
    ensures Get(AddMany(tr, c, accounts), c) == Get(tr, c) + accounts
    ensures forall d: Chain :: d != c ==> Get(AddMany(tr, c, accounts), d) == Get(tr, d)
    decreases |accounts|
  {
    hide Get, Add;
    if accounts != [] {
      var init, last := accounts[..|accounts| - 1], accounts[|accounts| - 1];
      AddManyGet(tr, c, init);
      AddGet(AddMany(tr, c, init), c, last);
      assert accounts == init + [last];
      assert Get(tr, c) + (init + [last]) == (Get(tr, c) + init) + [last];
    }
  }

  lemma AddGet(tr: Tracked, c: Chain, a: Address)
    ensures Get(Add(tr, c, a), c) == Get(tr, c) + [a]
    ensures forall d: Chain :: d != c ==> Get(Add(tr, c, a), d) == Get(tr, d)
  {
  }

  /** A successful addition of accounts keeps each address tracked once on the chain exactly when
      the request itself names no address twice: existence is checked before anything is added. */
  lemma AppendKeepsUniqueIff(w: Remote, before: Tracked, after: Tracked, c: Chain, accounts: seq<Address>)
    requires Appended(w, before, after, c, accounts, Ok) && NoDuplicates(Get(before, c))
    ensures NoDuplicates(Get(after, c)) <==> NoDuplicates(accounts)
  {
    hide Connects, AddMany, AddedBefore;
    AddedBeforeBound(w, c, accounts);
    assert accounts[..|accounts|] == accounts;
    AddManyGet(before, c, accounts);
    var all, n := Get(after, c), |Get(before, c)|;
    assert all == Get(before, c) + accounts;
    if NoDuplicates(all) {
      forall i, j | 0 <= i < j < |accounts| ensures accounts[i] != accounts[j] {
        assert all[n + i] == accounts[i] && all[n + j] == accounts[j];
      }
    }
    if NoDuplicates(accounts) {
      forall i, j | 0 <= i < j < |all| ensures all[i] != all[j] {
        if i < n <= j {
          assert accounts[j - n] in accounts;
          assert !Existent(w, before, c, accounts[j - n], true);
        }
      }
    }
  }

  /** No two addresses are the same in their legacy form. */
  ghost predicate LegacyDistinct(w: Remote, s: seq<Address>) {
    forall i, j :: 0 <= i < j < |s| ==> w.legacy(s[i]) != w.legacy(s[j])
  }

  /** Bitcoin Cash: a successful addition keeps the tracked addresses distinct in their legacy form exactly
      when those of the request are. */
  lemma AppendKeepsLegacyIff(w: Remote, before: Tracked, after: Tracked, accounts: seq<Address>)
    requires Appended(w, before, after, BitcoinCash, accounts, Ok) && LegacyDistinct(w, Get(before, BitcoinCash))
    ensures LegacyDistinct(w, Get(after, BitcoinCash)) <==> LegacyDistinct(w, accounts)
  {
    hide Connects, AddMany, AddedBefore;
    AddedBeforeBound(w, BitcoinCash, accounts);
    assert accounts[..|accounts|] == accounts;
    AddManyGet(before, BitcoinCash, accounts);
    var mine, all := Get(before, BitcoinCash), Get(after, BitcoinCash);
    assert all == mine + accounts;
    forall i, j | 0 <= i < |mine| && 0 <= j < |accounts| ensures w.legacy(mine[i]) != w.legacy(accounts[j]) {
      assert accounts[j] in accounts && mine[i] in mine;
      assert !Existent(w, before, BitcoinCash, accounts[j], true);
    }
    LegacyConcat(w, mine, accounts);
  }

  lemma LegacyConcat(w: Remote, a: seq<Address>, b: seq<Address>)
    requires LegacyDistinct(w, a)
    requires forall i, j :: 0 <= i < |a| && 0 <= j < |b| ==> w.legacy(a[i]) != w.legacy(b[j])
    ensures LegacyDistinct(w, a + b) <==> LegacyDistinct(w, b)
  {
    var all, n := a + b, |a|;
    if LegacyDistinct(w, all) {
      forall i, j | 0 <= i < j < |b| ensures w.legacy(b[i]) != w.legacy(b[j]) {
        assert all[n + i] == b[i] && all[n + j] == b[j];
      }
    }
  }

  /** If connecting fails at `k` for the first time, exactly the accounts up to and including that one have
      been appended, and other chains are not touched. */
  lemma AppendedUpToFailure(w: Remote, before: Tracked, after: Tracked, c: Chain, accounts: seq<Address>,
                            outcome: Outcome, k: nat)
    requires Appended(w, before, after, c, accounts, outcome) && outcome != InputError && Prepared(w, c)
    requires k < |accounts| && !Connects(w, accounts[k], c)
    requires forall i :: 0 <= i < k ==> Connects(w, accounts[i], c)
    ensures outcome == RemoteFailure && Get(after, c) == Get(before, c) + accounts[..k + 1]
    ensures forall d: Chain :: d != c ==> Get(after, d) == Get(before, d)
  {
    hide Connects, AddMany;
    FirstFailureAt(w, c, accounts, k);
    AddManyGet(before, c, accounts[..k + 1]);
  }

  lemma {:induction false} FirstFailureAt(w: Remote, c: Chain, accounts: seq<Address>, k: nat)
    requires k < |accounts| && !Connects(w, accounts[k], c)
    requires forall i :: 0 <= i < k ==> Connects(w, accounts[i], c)
    ensures AddedBefore(w, c, accounts) == k + 1
    decreases k
  {
    hide Connects;
    if k > 0 {
      FirstFailureAt(w, c, accounts[1..], k - 1);
    }
  }

  lemma {:induction false} RemainingMembers(tracked: seq<Address>, names: set<Address>)
    ensures forall a :: a in Remaining(tracked, names) <==> a in tracked && a !in names
  {
    if tracked != [] {
      RemainingMembers(tracked[1..], names);
      assert tracked == [tracked[0]] + tracked[1..];
    }
  }

  /** Removal: exactly the named accounts leave the chain, other chains are not touched. */
  lemma {:induction false} RemoveManyMembers(tr: Tracked, c: Chain, accounts: seq<Address>)
    ensures forall d: Chain, a: Address ::
              IsTracked(RemoveMany(tr, c, accounts), d, a) <==> IsTracked(tr, d, a) && !(d == c && a in accounts)
    decreases |accounts|
  {
    if accounts != [] {
      var last := accounts[|accounts| - 1];
      var before := RemoveMany(tr, c, accounts[..|accounts| - 1]);
      RemoveManyMembers(tr, c, accounts[..|accounts| - 1]);
      RemainingMembers(Get(before, c), {last});
      assert accounts == accounts[..|accounts| - 1] + [last];
    }
  }

  lemma DropNone(h: Holdings)
    ensures AsSet([]) == {} && DropAccounts(h, {}) == h
  {
    match h
    case Tokens(sheets) => assert sheets - {} == sheets;
    case Coins(coins) => assert coins - {} == coins;
  }

  lemma DropMore(h: Holdings, names: seq<Address>, i: nat)
    requires i < |names|
    ensures DropAccounts(DropAccounts(h, AsSet(names[..i])), {names[i]}) == DropAccounts(h, AsSet(names[..i + 1]))
    ensures DropAccounts(h, AsSet(names[..i])).Coins? <==> h.Coins?
    ensures DropAccounts(DropAccounts(h, AsSet(names[..i])), {names[i]}).Coins? <==> h.Coins?
  {
    var s, t := AsSet(names[..i]), AsSet(names[..i + 1]);
    assert names[..i + 1] == names[..i] + [names[i]];
    assert s + {names[i]} == t;
    match h
    case Tokens(sheets) => assert sheets - s - {names[i]} == sheets - t;
    case Coins(coins) => assert coins - s - {names[i]} == coins - t;
  }

  // ----- What removed accounts contributed -----

  function KeepAccounts(h: Holdings, names: set<Address>): Holdings {
    match h
    case Tokens(sheets) => Tokens(Only(sheets, names))
    case Coins(coins) => Coins(Only(coins, names))
  }

  lemma ChainSplit(h: Holdings, c: Chain, names: set<Address>, asset: Asset, side: Side)
    ensures ChainSum(h, c, asset, side)
         == ChainSum(DropAccounts(h, names), c, asset, side).Add(ChainSum(KeepAccounts(h, names), c, asset, side))
  {
    hide SumBalances;
    match h
    case Tokens(sheets) =>
      var column := Column(sheets, asset, side);
      SumBalancesSplit(column, names);
      assert Column(sheets - names, asset, side) == column - names;
      assert Column(Only(sheets, names), asset, side) == Only(column, names);
    case Coins(coins) => SumBalancesSplit(coins, names);
  }

  /** Removing accounts lowers the totals by exactly what the removed accounts held: the totals over
      all chains before are those after plus the sum over the removed accounts alone, for every
      asset and liability. */
  lemma RemovalLowersTotals(bs: AllBalances, c: Chain, names: set<Address>, asset: Asset, side: Side)
    requires c in bs
    ensures TotalSum(bs, asset, side)
         == TotalSum(bs[c := DropAccounts(bs[c], names)], asset, side)
              .Add(ChainSum(KeepAccounts(bs[c], names), c, asset, side))
  {
    hide SumBalances, ChainSum, DropAccounts, KeepAccounts;
    var after := bs[c := DropAccounts(bs[c], names)];
    TakeChain(bs, bs.Keys, c, asset, side);
    TakeChain(after, after.Keys, c, asset, side);
    assert after.Keys == bs.Keys;
    assert ChainSums(after, bs.Keys - {c}, asset, side) == ChainSums(bs, bs.Keys - {c}, asset, side);
    ChainSplit(bs[c], c, names, asset, side);
  }
}
