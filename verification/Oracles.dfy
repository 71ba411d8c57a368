/** Choosing a current price among the configured oracles. */
module Oracles {
  import opened Common

  datatype Oracle =
    | Coingecko | Cryptocompare | UniswapV2 | UniswapV3 | ManualCurrent | BlockchainOracle | Fiat | Defillama

  /** What an oracle's query yields. */
  datatype Answer = Price(price: real, usedMainCurrency: bool) | Fails | RecursionLimit

  /** What an instance is: which oracle it serves, and its state and answers at the moment. */
  datatype Instance = Instance(serves: Oracle, unavailable: bool, answer: Answer)

  datatype Found = Found(price: real, oracle: Oracle, usedMainCurrency: bool) | RecursionRaised

  predicate OnChain(o: Oracle) {
    o.UniswapV2? || o.UniswapV3?
  }

  function WithoutManual(order: seq<Oracle>): seq<Oracle> {
    if order == [] then []
    else (if order[0].ManualCurrent? then [] else [order[0]]) + WithoutManual(order[1..])
  }

  function OffChain(order: seq<Oracle>): seq<Oracle> {
    if order == [] then []
    else (if OnChain(order[0]) then [] else [order[0]]) + OffChain(order[1..])
  }

  function Instances(of: Oracle -> Instance, order: seq<Oracle>): seq<Instance> {
    if order == [] then [] else [of(order[0])] + Instances(of, order[1..])
  }

  // ----- The query over an order -----

  /** The loop: unavailable instances are passed over, errors and zero prices lead on, the first
      other price ends it. `used` is the main-currency flag of the query before. */
  function Query(order: seq<Oracle>, of: Oracle -> Instance, latest: bool, used: bool): Found {
    if order == [] then Found(0.0, BlockchainOracle, used)
    else
      var instance := of(order[0]);
      if instance.unavailable then Query(order[1..], of, latest, used)
      else
        match instance.answer
        case Fails => Query(order[1..], of, latest, false)
        case RecursionLimit => if latest then RecursionRaised else Query(order[1..], of, latest, false)
        case Price(p, u) => if p == 0.0 then Query(order[1..], of, latest, u) else Found(p, order[0], u)
  }

  class Inquirer {
    const of: Oracle -> Instance
    var oracles: seq<Oracle>
    var instances: seq<Instance>
    var oraclesNotOnchain: seq<Oracle>
    var instancesNotOnchain: seq<Instance>

    constructor (of: Oracle -> Instance)
      ensures this.of == of && Aligned()
    {
      this.of := of;
      oracles, instances, oraclesNotOnchain, instancesNotOnchain := [], [], [], [];
    }

    /** Oracles and instances are kept in step, and the second pair is the first without the
        on-chain oracles. */
    ghost predicate Aligned()
      reads this
    {
      && instances == Instances(of, oracles)
      && oraclesNotOnchain == OffChain(oracles)
      && instancesNotOnchain == Instances(of, oraclesNotOnchain)
    }

    method SetOraclesOrder(order: seq<Oracle>)
      requires order != [] && forall i, j :: 0 <= i < j < |order| ==> order[i] != order[j]
      modifies this
      ensures Aligned() && oracles == WithoutManual(order)
    {
      oracles := WithoutManual(order);
      instances := Instances(of, oracles);
      InstancesLength(of, oracles);
      oraclesNotOnchain, instancesNotOnchain := [], [];
      var i := 0;
      while i < |oracles|
        invariant 0 <= i <= |oracles| && oracles == WithoutManual(order) && instances == Instances(of, oracles)
        invariant oraclesNotOnchain == OffChain(oracles[..i])
        invariant instancesNotOnchain == Instances(of, oraclesNotOnchain)
      {
        assert oracles[..i + 1] == oracles[..i] + [oracles[i]];
        OffChainAppend(oracles[..i], oracles[i]);
        InstancesAppend(of, oraclesNotOnchain, oracles[i]);
        InstanceAt(of, oracles, i);
        if !OnChain(oracles[i]) {
          oraclesNotOnchain := oraclesNotOnchain + [oracles[i]];
          instancesNotOnchain := instancesNotOnchain + [instances[i]];
        }
        i := i + 1;
      }
      assert oracles[..i] == oracles;
    }

    method QueryOracleInstances(hasOracles: bool, latest: bool, skipOnchain: bool) returns (found: Found)
      requires Aligned()
      ensures found == if !hasOracles then Found(0.0, BlockchainOracle, false)
                       else Query(if skipOnchain then OffChain(oracles) else oracles, of, latest, false)
    {
      if !hasOracles {
        return Found(0.0, BlockchainOracle, false);
      }
      var order := if skipOnchain then oraclesNotOnchain else oracles;
      var served := if skipOnchain then instancesNotOnchain else instances;
      InstancesLength(of, order);
      var price, queried, used := 0.0, BlockchainOracle, false;
      var i := 0;
      while i < |order|
        invariant 0 <= i <= |order| && price == 0.0 && queried == BlockchainOracle
        invariant Query(order, of, latest, false) == Query(order[i..], of, latest, used)
      {
        InstanceAt(of, order, i);
        var instance := served[i];
        if !instance.unavailable {
          var failed;
          match instance.answer {
            case Fails => price, used, failed := 0.0, false, true;
            case RecursionLimit =>
              if latest {
                return RecursionRaised;
              }
              price, used, failed := 0.0, false, false;
            case Price(p, u) => price, used, failed := p, u, false;
          }
          if !failed && price != 0.0 {
            queried := order[i];
            return Found(price, queried, used);
          }
        }
        i := i + 1;
      }
      found := Found(price, queried, used);
    }
  }

  lemma {:induction false} InstancesLength(of: Oracle -> Instance, order: seq<Oracle>)
    ensures |Instances(of, order)| == |order|
  {
    if order != [] {
      InstancesLength(of, order[1..]);
    }
  }

  lemma {:induction false} InstanceAt(of: Oracle -> Instance, order: seq<Oracle>, i: nat)
    requires i < |order|
    ensures |Instances(of, order)| == |order| && Instances(of, order)[i] == of(order[i])
  {
    InstancesLength(of, order);
    if i > 0 {
      InstanceAt(of, order[1..], i - 1);
    }
  }

  lemma {:induction false} InstancesAppend(of: Oracle -> Instance, order: seq<Oracle>, o: Oracle)
    ensures Instances(of, order + [o]) == Instances(of, order) + [of(o)]
  {
    if order == [] {
      assert order + [o] == [o] && [o][1..] == [];
    } else {
      InstancesAppend(of, order[1..], o);
      assert (order + [o])[1..] == order[1..] + [o];
    }
  }

  lemma {:induction false} OffChainAppend(order: seq<Oracle>, o: Oracle)
    ensures OffChain(order + [o]) == OffChain(order) + if OnChain(o) then [] else [o]
  {
    if order == [] {
      assert order + [o] == [o] && [o][1..] == [];
    } else {
      OffChainAppend(order[1..], o);
      assert (order + [o])[1..] == order[1..] + [o];
    }
  }

  /** The order kept is that of the request, without the manual oracle. */
  lemma {:induction false} WithoutManualMembers(order: seq<Oracle>)
    ensures forall o :: o in WithoutManual(order) <==> o in order && o != ManualCurrent
  {
    if order != [] {
      WithoutManualMembers(order[1..]);
      assert order == [order[0]] + order[1..];
    }
  }

  lemma {:induction false} WithoutManualOrder(order: seq<Oracle>, i: nat, j: nat) returns (p: nat, q: nat)
    requires i < j < |WithoutManual(order)|
    ensures p < q < |order| && order[p] == WithoutManual(order)[i] && order[q] == WithoutManual(order)[j]
  {
    if order[0].ManualCurrent? {
      p, q := WithoutManualOrder(order[1..], i, j);
      p, q := p + 1, q + 1;
    } else if i > 0 {
      p, q := WithoutManualOrder(order[1..], i - 1, j - 1);
      p, q := p + 1, q + 1;
    } else {
      q := WithoutManualFind(order[1..], j - 1);
      p, q := 0, q + 1;
    }
  }

  lemma {:induction false} WithoutManualFind(order: seq<Oracle>, j: nat) returns (q: nat)
    requires j < |WithoutManual(order)|
    ensures q < |order| && order[q] == WithoutManual(order)[j]
  {
    if order[0].ManualCurrent? {
      q := WithoutManualFind(order[1..], j);
      q := q + 1;
    } else if j > 0 {
      q := WithoutManualFind(order[1..], j - 1);
      q := q + 1;
    } else {
      q := 0;
    }
  }

  // ----- Which price is returned -----

  /** An oracle that decides the query: available, with an answer that is a price other than zero. */
  predicate Decides(instance: Instance) {
    !instance.unavailable && instance.answer.Price? && instance.answer.price != 0.0
  }

  /** An oracle that stops the query with an error. */
  predicate Stops(instance: Instance, latest: bool) {
    !instance.unavailable && instance.answer.RecursionLimit? && latest
  }

  /** The price returned is that of the first oracle that decides; if none does it is zero and no
      oracle is named, unless an earlier one stops the query. */
  lemma {:induction false} FirstDecides(order: seq<Oracle>, of: Oracle -> Instance, latest: bool, used: bool, k: nat)
    requires k <= |order|
    requires forall i :: 0 <= i < k ==> !Decides(of(order[i])) && !Stops(of(order[i]), latest)
    requires k < |order| ==> Decides(of(order[k])) || Stops(of(order[k]), latest)
    ensures var found := Query(order, of, latest, used);
            if k == |order| then found.Found? && found.price == 0.0 && found.oracle == BlockchainOracle
            else if Stops(of(order[k]), latest) then found == RecursionRaised
            else found == Found(of(order[k]).answer.price, order[k], of(order[k]).answer.usedMainCurrency)
    decreases |order|
  {
    if order != [] && k > 0 {
      var u := if of(order[0]).unavailable then used
               else if of(order[0]).answer.Price? then of(order[0]).answer.usedMainCurrency else false;
      assert !Decides(of(order[0])) && !Stops(of(order[0]), latest);
      forall i | 0 <= i < k - 1 ensures !Decides(of(order[1..][i])) && !Stops(of(order[1..][i]), latest) {
        assert order[1..][i] == order[i + 1];
      }
      FirstDecides(order[1..], of, latest, u, k - 1);
    }
  }

  /** Skipping on-chain oracles changes nothing when they have nothing to say: it is the same query
      with those oracles unavailable. */
  lemma {:induction false} SkipOnchainLikeUnavailable(order: seq<Oracle>, of: Oracle -> Instance,
                                                      of': Oracle -> Instance, latest: bool, used: bool)
    requires forall o: Oracle :: of'(o) == if OnChain(o) then of(o).(unavailable := true) else of(o)
    ensures Query(OffChain(order), of, latest, used) == Query(order, of', latest, used)
    decreases |order|
  {
    if order != [] {
      var o := order[0];
      var rest := OffChain(order[1..]);
      if OnChain(o) {
        assert OffChain(order) == rest;
      } else {
        assert OffChain(order) == [o] + rest && ([o] + rest)[1..] == rest;
      }
      forall u: bool ensures Query(rest, of, latest, u) == Query(order[1..], of', latest, u) {
        SkipOnchainLikeUnavailable(order[1..], of, of', latest, u);
      }
    }
  }
}
