/** What adding a list of addresses to all EVM chains results in, for every outcome of the contract,
    activity and connection checks. */
module EvmAccounts {
  import opened Common
  import opened Balances
  import opened Accounts

  // ----- Reference: what should happen to one (chain, address) pair -----

  predicate Contract(w: Remote, a: Address) {
    w.isContract(a) == Some(true)
  }

  predicate ActiveSomewhere(w: Remote, tr: Tracked, a: Address) {
    exists c: Chain :: IsEvm(c) && !IsTracked(tr, c, a) && w.activity(a, c) == Active
  }

  /** The pair becomes tracked: contracts on Ethereum, other addresses where they were active. */
  predicate Newly(w: Remote, tr: Tracked, c: Chain, a: Address) {
    && IsEvm(c) && !IsTracked(tr, c, a)
    && if Contract(w, a) then c == Ethereum else w.activity(a, c) == Active
  }

  predicate ShouldBeAdded(w: Remote, tr: Tracked, c: Chain, a: Address) {
    Newly(w, tr, c, a) && Connects(w, a, c)
  }

  predicate ShouldExist(tr: Tracked, c: Chain, a: Address) {
    IsEvm(c) && IsTracked(tr, c, a)
  }

  /** Reported as failed: chains that could not be asked or connected to, unless the address is a
      contract or was found active nowhere. */
  predicate ShouldFail(w: Remote, tr: Tracked, c: Chain, a: Address) {
    && IsEvm(c) && !IsTracked(tr, c, a) && !Contract(w, a) && ActiveSomewhere(w, tr, a)
    && (w.activity(a, c) == Unreachable || (w.activity(a, c) == Active && !Connects(w, a, c)))
  }

  /** Reported as inactive: all untracked chains of an address that was found active nowhere, also
      the ones that could not be asked. */
  predicate ShouldBeInactive(w: Remote, tr: Tracked, c: Chain, a: Address) {
    IsEvm(c) && !IsTracked(tr, c, a) && !Contract(w, a) && !ActiveSomewhere(w, tr, a)
  }

  /** The result after handling the addresses in `done`, compared with the reference. */
  ghost predicate Describes(w: Remote, tr: Tracked, r: Added, done: set<Address>) {
    && r.outcome == Ok
    && TrackedAfter(w, tr, r.tracked, done)
    && (forall p: Pair :: p in r.added <==> p.1 in done && ShouldBeAdded(w, tr, p.0, p.1))
    && (forall p: Pair :: p in r.existed <==> p.1 in done && ShouldExist(tr, p.0, p.1))
    && (forall p: Pair :: p in r.failed <==> p.1 in done && ShouldFail(w, tr, p.0, p.1))
    && (forall p: Pair :: p in r.noActivity <==> p.1 in done && ShouldBeInactive(w, tr, p.0, p.1))
  }

  /** Addresses are only appended, each at most once, and the pairs tracked are the reference's. */
  ghost predicate TrackedAfter(w: Remote, tr: Tracked, now: Tracked, done: set<Address>) {
    && (forall c: Chain, a: Address ::
          IsTracked(now, c, a) <==> IsTracked(tr, c, a) || (a in done && Newly(w, tr, c, a)))
    && (forall c: Chain :: Get(tr, c) <= Get(now, c))
    && (forall c: Chain :: NoDuplicates(Get(tr, c)) ==> NoDuplicates(Get(now, c)))
  }

  // ----- Tracking one address -----

  lemma {:induction false} TrackFacts(w: Remote, tr: Tracked, a: Address, chains: seq<Chain>)
    requires NoDuplicates(chains) && forall c :: c in chains ==> !IsTracked(tr, c, a)
    ensures var t := Track(w, tr, a, chains);
            && (forall c: Chain :: Get(t.tracked, c) == if c in chains then Get(tr, c) + [a] else Get(tr, c))
            && (forall c :: c in t.added <==> c in chains && Connects(w, a, c))
            && (forall c :: c in t.failed <==> c in chains && !Connects(w, a, c))
    decreases |chains|
  {
    hide Connects, Get, IsTracked, Add, NoDuplicates;
    if chains != [] {
      var c0, rest, tr1 := chains[0], chains[1..], Add(tr, chains[0], a);
      assert chains == [c0] + rest;
      ChainsTail(chains);
      forall c: Chain
        ensures Get(tr1, c) == if c == c0 then Get(tr, c) + [a] else Get(tr, c)
        ensures c != c0 ==> (IsTracked(tr1, c, a) <==> IsTracked(tr, c, a))
      {
        AddGets(tr, c0, a, c);
      }
      TrackFacts(w, tr1, a, rest);
    }
  }

  lemma ChainsTail(chains: seq<Chain>)
    requires chains != [] && NoDuplicates(chains)
    ensures chains[0] !in chains[1..] && NoDuplicates(chains[1..])
  {
  }

  lemma AddGets(tr: Tracked, c0: Chain, a: Address, c: Chain)
    ensures Get(Add(tr, c0, a), c) == if c == c0 then Get(tr, c) + [a] else Get(tr, c)
    ensures c != c0 ==> (IsTracked(Add(tr, c0, a), c, a) <==> IsTracked(tr, c, a))
  {
  }

  lemma TrackTwice(w: Remote, tr: Tracked, a: Address, c: Chain)
    requires IsTracked(tr, c, a)
    ensures Track(w, tr, a, [c]) == Tracking(tr, [], [c])
  {
    assert [c][1..] == [];
    assert Track(w, tr, a, []) == Tracking(tr, [], []);
  }

  /** The tracked lists after an address is appended to some chains where it was not tracked. */
  ghost predicate AppendedWhere(tr: Tracked, now: Tracked, a: Address, on: iset<Chain>) {
    forall c: Chain :: Get(now, c) == if c in on then Get(tr, c) + [a] else Get(tr, c)
  }

  lemma AppendedOnce(w: Remote, tr: Tracked, before: Tracked, now: Tracked, a: Address, done: set<Address>)
    requires TrackedAfter(w, tr, before, done) && a !in done
    requires AppendedWhere(before, now, a, iset c: Chain | Newly(w, tr, c, a))
    ensures TrackedAfter(w, tr, now, done + {a})
  {
    hide Newly, NoDuplicates;
    forall c: Chain
      ensures Get(tr, c) <= Get(now, c)
      ensures NoDuplicates(Get(tr, c)) ==> NoDuplicates(Get(now, c))
    {
      NewlyUntracked(w, tr, c, a);
      if Newly(w, tr, c, a) {
        assert !IsTracked(before, c, a);
        AppendFresh(Get(before, c), a);
      }
    }
  }

  lemma NewlyUntracked(w: Remote, tr: Tracked, c: Chain, a: Address)
    ensures Newly(w, tr, c, a) ==> !IsTracked(tr, c, a)
  {
  }

  lemma AppendFresh(s: seq<Address>, a: Address)
    requires a !in s
    ensures NoDuplicates(s) ==> NoDuplicates(s + [a])
  {
  }

  // ----- One address -----

  /** The pairs an address contributes to a list. */
  ghost predicate Gains(before: seq<Pair>, after: seq<Pair>, a: Address, here: iset<Chain>) {
    forall p: Pair :: p in after <==> p in before || (p.1 == a && p.0 in here)
  }

  lemma GainsPairs(before: seq<Pair>, chains: seq<Chain>, a: Address, here: iset<Chain>)
    requires forall c: Chain :: c in chains <==> c in here
    ensures Gains(before, before + Pairs(chains, a), a, here)
  {
    PairsMembers(chains, a);
  }

  lemma ExistedPairs(tr: Tracked, a: Address)
    ensures forall c: Chain :: c in ChainsWhere(tr, a, EVM_CHAINS, true) <==> ShouldExist(tr, c, a)
  {
    hide EVM_CHAINS, IsEvm, ChainsWhere;
    EvmChainsFacts();
    ChainsWhereMembers(tr, a, EVM_CHAINS, true);
  }

  /** What one address adds to the result, for the pairs as they are tracked just before. */
  ghost predicate Contributes(w: Remote, r: Added, s: Added, a: Address) {
    var tr := r.tracked;
    && s.outcome == Ok
    && AppendedWhere(tr, s.tracked, a, iset c: Chain | Newly(w, tr, c, a))
    && Gains(r.added, s.added, a, iset c: Chain | ShouldBeAdded(w, tr, c, a))
    && Gains(r.existed, s.existed, a, iset c: Chain | ShouldExist(tr, c, a))
    && Gains(r.failed, s.failed, a, iset c: Chain | ShouldFail(w, tr, c, a))
    && Gains(r.noActivity, s.noActivity, a, iset c: Chain | ShouldBeInactive(w, tr, c, a))
  }

  lemma ContractContributes(w: Remote, r: Added, a: Address)
    requires r.outcome == Ok && Contract(w, a)
    ensures Contributes(w, r, AddOne(w, r, a), a)
  {
    hide IsEvm, ChainsWhere, Pairs, Connects, EVM_CHAINS;
    var tr := r.tracked;
    EthereumIsEvm();
    ExistedPairs(tr, a);
    GainsPairs(r.existed, ChainsWhere(tr, a, EVM_CHAINS, true), a, iset c: Chain | ShouldExist(tr, c, a));
    if IsTracked(tr, Ethereum, a) {
      TrackTwice(w, tr, a, Ethereum);
    } else {
      TrackOnce(w, tr, a, Ethereum);
    }
  }

  lemma TrackOnce(w: Remote, tr: Tracked, a: Address, c: Chain)
    requires !IsTracked(tr, c, a)
    ensures Track(w, tr, a, [c])
            == Tracking(Add(tr, c, a), if Connects(w, a, c) then [c] else [], if Connects(w, a, c) then [] else [c])
  {
    hide Connects;
    assert [c][1..] == [];
    assert Track(w, Add(tr, c, a), a, []) == Tracking(Add(tr, c, a), [], []);
  }

  lemma ActiveChains(w: Remote, tr: Tracked, a: Address)
    requires w.isContract(a) == Some(false)
    ensures var chains := ChainsWhere(tr, a, EVM_CHAINS, false);
            var active := WithActivity(w, a, chains, Active);
            && (forall c: Chain :: c in chains <==> IsEvm(c) && !IsTracked(tr, c, a))
            && (forall c: Chain :: c in active <==> Newly(w, tr, c, a))
            && (active == [] <==> !ActiveSomewhere(w, tr, a))
            && NoDuplicates(active)
            && (forall c: Chain :: c in WithActivity(w, a, chains, Unreachable)
                  <==> IsEvm(c) && !IsTracked(tr, c, a) && w.activity(a, c) == Unreachable)
  {
    hide IsEvm, ChainsWhere, WithActivity, EVM_CHAINS, NoDuplicates;
    var chains := ChainsWhere(tr, a, EVM_CHAINS, false);
    EvmSelection(tr, a, chains);
    ActivityMembers(w, a, chains, Active);
    ActivityMembers(w, a, chains, Unreachable);
    var active := WithActivity(w, a, chains, Active);
    if active != [] {
      assert active[0] in active;
    }
  }

  lemma AccountContributes(w: Remote, r: Added, a: Address)
    requires r.outcome == Ok && w.isContract(a) == Some(false)
    ensures Contributes(w, r, AddOne(w, r, a), a)
  {
    hide IsEvm, ChainsWhere, WithActivity, Pairs, Connects, EVM_CHAINS, NoDuplicates, Track, Gains, ActiveSomewhere;
    var tr := r.tracked;
    var chains := ChainsWhere(tr, a, EVM_CHAINS, false);
    var active := WithActivity(w, a, chains, Active);
    ExistedPairs(tr, a);
    ActiveChains(w, tr, a);
    GainsPairs(r.existed, ChainsWhere(tr, a, EVM_CHAINS, true), a, iset c: Chain | ShouldExist(tr, c, a));
    if active == [] {
      NobodyNew(w, tr, a);
      GainsNothing(r.added, a, iset c: Chain | ShouldBeAdded(w, tr, c, a));
      GainsNothing(r.failed, a, iset c: Chain | ShouldFail(w, tr, c, a));
      GainsPairs(r.noActivity, chains, a, iset c: Chain | ShouldBeInactive(w, tr, c, a));
    } else {
      TrackFacts(w, tr, a, active);
      var t := Track(w, tr, a, active);
      GainsNothing(r.noActivity, a, iset c: Chain | ShouldBeInactive(w, tr, c, a));
      GainsPairs(r.added, t.added, a, iset c: Chain | ShouldBeAdded(w, tr, c, a));
      GainsPairs(r.failed, WithActivity(w, a, chains, Unreachable) + t.failed, a,
                 iset c: Chain | ShouldFail(w, tr, c, a));
    }
  }

  lemma NobodyNew(w: Remote, tr: Tracked, a: Address)
    requires !Contract(w, a) && !ActiveSomewhere(w, tr, a)
    ensures forall c: Chain :: !Newly(w, tr, c, a)
  {
    hide IsEvm;
  }

  lemma GainsNothing(list: seq<Pair>, a: Address, here: iset<Chain>)
    requires forall c: Chain :: c !in here
    ensures Gains(list, list, a, here)
  {
  }

  /** Addresses not handled yet look to every check as they did at the start. */
  lemma SameReference(w: Remote, tr: Tracked, now: Tracked, a: Address)
    requires forall c: Chain :: IsTracked(now, c, a) <==> IsTracked(tr, c, a)
    ensures forall c: Chain :: Newly(w, now, c, a) <==> Newly(w, tr, c, a)
    ensures forall c: Chain :: ShouldBeAdded(w, now, c, a) <==> ShouldBeAdded(w, tr, c, a)
    ensures forall c: Chain :: ShouldExist(now, c, a) <==> ShouldExist(tr, c, a)
    ensures forall c: Chain :: ShouldFail(w, now, c, a) <==> ShouldFail(w, tr, c, a)
    ensures forall c: Chain :: ShouldBeInactive(w, now, c, a) <==> ShouldBeInactive(w, tr, c, a)
  {
    hide IsEvm, Connects, IsTracked;
    assert ActiveSomewhere(w, now, a) <==> ActiveSomewhere(w, tr, a);
  }

  lemma DescribesNext(w: Remote, tr: Tracked, r: Added, s: Added, done: set<Address>, a: Address)
    requires Describes(w, tr, r, done) && a !in done && Contributes(w, r, s, a)
    ensures Describes(w, tr, s, done + {a})
  {
    hide IsTracked, Newly, ShouldBeAdded, ShouldExist, ShouldFail, ShouldBeInactive, TrackedAfter, AppendedWhere;
    Unhandled(w, tr, r.tracked, done, a);
    SameReference(w, tr, r.tracked, a);
    assert (iset c: Chain | Newly(w, r.tracked, c, a)) == (iset c: Chain | Newly(w, tr, c, a));
    AppendedOnce(w, tr, r.tracked, s.tracked, a, done);
  }

  lemma Unhandled(w: Remote, tr: Tracked, now: Tracked, done: set<Address>, a: Address)
    requires TrackedAfter(w, tr, now, done) && a !in done
    ensures forall c: Chain :: IsTracked(now, c, a) <==> IsTracked(tr, c, a)
  {
    hide IsTracked, Newly;
  }

  // ----- All addresses -----

  lemma {:induction false} AddAllDescribes(w: Remote, tr: Tracked, r: Added, done: set<Address>, accounts: seq<Address>)
    requires Describes(w, tr, r, done) && NoDuplicates(accounts) && forall a :: a in accounts ==> a !in done
    requires forall a :: a in accounts ==> w.isContract(a).Some?
    ensures Describes(w, tr, AddAll(w, r, accounts), done + AsSet(accounts))
    decreases |accounts|
  {
    hide AddOne;
    if accounts == [] {
      assert done + AsSet([]) == done;
    } else {
      var a, rest := accounts[0], accounts[1..];
      assert accounts == [a] + rest;
      assert a in accounts;
      DistinctTail(accounts);
      DescribesOk(w, tr, r, done);
      hide Describes, Contributes, Contract;
      var known := w.isContract(a).value;
      assert w.isContract(a) == Some(known);
      if known {
        IsContract(w, a);
        ContractContributes(w, r, a);
      } else {
        AccountContributes(w, r, a);
      }
      DescribesNext(w, tr, r, AddOne(w, r, a), done, a);
      AddAllDescribes(w, tr, AddOne(w, r, a), done + {a}, rest);
      assert done + {a} + AsSet(rest) == done + AsSet(accounts);
    }
  }

  lemma IsContract(w: Remote, a: Address)
    ensures Contract(w, a) <==> w.isContract(a) == Some(true)
  {
  }

  lemma DescribesOk(w: Remote, tr: Tracked, r: Added, done: set<Address>)
    requires Describes(w, tr, r, done)
    ensures r.outcome == Ok
  {
  }

  lemma DistinctTail(accounts: seq<Address>)
    requires accounts != [] && NoDuplicates(accounts)
    ensures accounts[0] !in accounts[1..] && NoDuplicates(accounts[1..])
  {
  }

  lemma StartDescribes(w: Remote, tr: Tracked)
    ensures Describes(w, tr, Start(tr), {})
  {
    hide IsTracked, Newly, ShouldBeAdded, ShouldExist, ShouldFail, ShouldBeInactive;
  }

  /** For every list of distinct addresses and every outcome of the checks, as long as every
      contract check succeeds: a pair is in each returned list exactly when the reference says so,
      and the pairs tracked afterwards are the old ones plus the newly tracked ones. */
  lemma AddAccountsResult(w: Remote, tr: Tracked, accounts: seq<Address>)
    requires NoDuplicates(accounts) && forall a :: a in accounts ==> w.isContract(a).Some?
    ensures Describes(w, tr, AddAll(w, Start(tr), accounts), AsSet(accounts))
  {
    hide Describes, AddAll;
    StartDescribes(w, tr);
    AddAllDescribes(w, tr, Start(tr), {}, accounts);
    assert {} + AsSet(accounts) == AsSet(accounts);
  }

  /** Consequences: the four lists are pairwise disjoint; every added pair is tracked afterwards
      and was not before; nothing tracked is dropped; and no address is tracked twice on a chain
      where none was. */
  lemma AddAccountsSafe(w: Remote, tr: Tracked, accounts: seq<Address>, p: Pair)
    requires NoDuplicates(accounts) && forall a :: a in accounts ==> w.isContract(a).Some?
    ensures var r := AddAll(w, Start(tr), accounts);
            && !(p in r.added && p in r.existed) && !(p in r.added && p in r.failed)
            && !(p in r.added && p in r.noActivity)
            && !(p in r.existed && p in r.failed) && !(p in r.existed && p in r.noActivity)
            && !(p in r.failed && p in r.noActivity)
            && (p in r.added ==> IsTracked(r.tracked, p.0, p.1) && !IsTracked(tr, p.0, p.1))
            && (IsTracked(tr, p.0, p.1) ==> IsTracked(r.tracked, p.0, p.1))
            && (NoDuplicates(Get(tr, p.0)) ==> NoDuplicates(Get(r.tracked, p.0)))
  {
    hide IsTracked, Connects, IsEvm, AddAll, ActiveSomewhere, NoDuplicates, Contract;
    AddAccountsResult(w, tr, accounts);
    if !Contract(w, p.1) && Newly(w, tr, p.0, p.1) {
      SomewhereHere(w, tr, p.0, p.1);
    }
  }

  /** A pair becomes tracked although it is not reported as added if and only if it is to be tracked
      and its connection fails. */
  lemma TrackedButNotAdded(w: Remote, tr: Tracked, accounts: seq<Address>, p: Pair)
    requires NoDuplicates(accounts) && forall a :: a in accounts ==> w.isContract(a).Some?
    ensures var r := AddAll(w, Start(tr), accounts);
            IsTracked(r.tracked, p.0, p.1) && !IsTracked(tr, p.0, p.1) && p !in r.added
            <==> p.1 in accounts && Newly(w, tr, p.0, p.1) && !Connects(w, p.1, p.0)
  {
    hide IsTracked, Connects, IsEvm, AddAll, NoDuplicates, ActiveSomewhere;
    AddAccountsResult(w, tr, accounts);
  }

  /** Such a pair is reported as failed, unless the address is a contract; then no list mentions it. */
  lemma FailedConnectionReport(w: Remote, tr: Tracked, accounts: seq<Address>, p: Pair)
    requires NoDuplicates(accounts) && forall a :: a in accounts ==> w.isContract(a).Some?
    requires p.1 in accounts && Newly(w, tr, p.0, p.1) && !Connects(w, p.1, p.0)
    ensures var r := AddAll(w, Start(tr), accounts);
            && p !in r.added && p !in r.existed && p !in r.noActivity
            && (p in r.failed <==> !Contract(w, p.1))
  {
    hide IsTracked, Connects, IsEvm, AddAll, NoDuplicates, ActiveSomewhere, Contract;
    AddAccountsResult(w, tr, accounts);
    if !Contract(w, p.1) {
      SomewhereHere(w, tr, p.0, p.1);
    }
  }

  lemma SomewhereHere(w: Remote, tr: Tracked, c: Chain, a: Address)
    requires !Contract(w, a) && Newly(w, tr, c, a)
    ensures ActiveSomewhere(w, tr, a)
  {
  }

  /** When a contract check fails, the addresses before it have been handled completely; of the
      failing one only the chains it was tracked on are reported. */
  lemma {:induction false} ContractCheckFails(w: Remote, r: Added, accounts: seq<Address>, n: nat)
    requires r.outcome == Ok && n < |accounts| && w.isContract(accounts[n]).None?
    requires forall i :: 0 <= i < n ==> w.isContract(accounts[i]).Some?
    ensures var before := AddAll(w, r, accounts[..n]);
            && before.outcome == Ok
            && AddAll(w, r, accounts)
               == before.(existed := before.existed
                            + Pairs(ChainsWhere(before.tracked, accounts[n], EVM_CHAINS, true), accounts[n]),
                          outcome := RemoteFailure)
    decreases n
  {
    hide Track, CheckAndAdd, Pairs, ChainsWhere, EVM_CHAINS;
    if n == 0 {
      assert accounts[..0] == [];
    } else {
      var s := AddOne(w, r, accounts[0]);
      assert accounts[..n][1..] == accounts[1..][..n - 1];
      ContractCheckFails(w, s, accounts[1..], n - 1);
    }
  }
}
