/** Serializing the balances of a bitcoin chain: standalone addresses, and addresses grouped under
    the extended public key and derivation path they come from. */
module BitcoinSerialization {
  import opened Common
  import opened Balances

  datatype Xpub = Xpub(xpub: string, path: Option<string>)

  datatype XpubEntry = XpubEntry(key: Xpub, addresses: map<Address, Balance>)

  datatype Serialized = Serialized(standalone: map<Address, Balance>, xpubs: seq<XpubEntry>)

  /** An address is filed where it belongs and nowhere else, with its balance. */
  ghost predicate FiledOnce(s: Serialized, a: Address, b: Balance, xpubs: map<Address, Xpub>) {
    if a !in xpubs then
      && a in s.standalone && s.standalone[a] == b
      && forall k :: 0 <= k < |s.xpubs| ==> a !in s.xpubs[k].addresses
    else
      && a !in s.standalone
      && exists k :: FiledUnder(s, a, b, xpubs[a], k)
  }

  ghost predicate FiledUnder(s: Serialized, a: Address, b: Balance, key: Xpub, k: int) {
    && 0 <= k < |s.xpubs| && s.xpubs[k].key == key && a in s.xpubs[k].addresses && s.xpubs[k].addresses[a] == b
    && forall j :: 0 <= j < |s.xpubs| && j != k ==> a !in s.xpubs[j].addresses
  }

  ghost predicate DistinctKeys(entries: seq<XpubEntry>) {
    forall i, j :: 0 <= i < j < |entries| ==> entries[i].key != entries[j].key
  }

  /** Only the given accounts are filed, and no entry is empty. */
  ghost predicate NothingElse(s: Serialized, accounts: map<Address, Balance>) {
    && s.standalone.Keys <= accounts.Keys
    && forall k :: 0 <= k < |s.xpubs| ==> s.xpubs[k].addresses.Keys <= accounts.Keys && s.xpubs[k].addresses != map[]
  }

  ghost predicate IsPartition(s: Serialized, accounts: map<Address, Balance>, xpubs: map<Address, Xpub>) {
    && (forall a :: a in accounts ==> FiledOnce(s, a, accounts[a], xpubs))
    && DistinctKeys(s.xpubs) && NothingElse(s, accounts)
  }

  /** Position of the entry for a key, or the number of entries. */
  method FindEntry(entries: seq<XpubEntry>, key: Xpub) returns (k: nat)
    ensures k <= |entries| && (k < |entries| ==> entries[k].key == key)
    ensures forall j :: 0 <= j < k ==> entries[j].key != key
  {
    k := 0;
    while k < |entries| && entries[k].key != key
      invariant k <= |entries| && forall j :: 0 <= j < k ==> entries[j].key != key
    {
      k := k + 1;
    }
  }

  function FileStandalone(s: Serialized, a: Address, b: Balance): Serialized {
    s.(standalone := s.standalone[a := b])
  }

  function FileUnder(s: Serialized, k: nat, key: Xpub, a: Address, b: Balance): Serialized
    requires k <= |s.xpubs|
  {
    if k == |s.xpubs| then s.(xpubs := s.xpubs + [XpubEntry(key, map[a := b])])
    else s.(xpubs := s.xpubs[k := XpubEntry(key, s.xpubs[k].addresses[a := b])])
  }

  lemma StandaloneStep(s: Serialized, done: map<Address, Balance>, xpubs: map<Address, Xpub>, a: Address, b: Balance)
    requires IsPartition(s, done, xpubs) && a !in done && a !in xpubs
    ensures IsPartition(FileStandalone(s, a, b), done[a := b], xpubs)
  {
    var t := FileStandalone(s, a, b);
    forall x | x in done ensures FiledOnce(t, x, done[x], xpubs) {
      assert FiledOnce(s, x, done[x], xpubs);
      if x in xpubs {
        var k :| FiledUnder(s, x, done[x], xpubs[x], k);
        assert FiledUnder(t, x, done[x], xpubs[x], k);
      }
    }
  }

  /** Filing one address leaves every other one where it was. */
  lemma OthersStay(s: Serialized, k: nat, key: Xpub, a: Address, b: Balance, x: Address, bx: Balance,
                   xpubs: map<Address, Xpub>)
    requires k <= |s.xpubs| && (k < |s.xpubs| ==> s.xpubs[k].key == key) && x != a && FiledOnce(s, x, bx, xpubs)
    ensures FiledOnce(FileUnder(s, k, key, a, b), x, bx, xpubs)
  {
    var t := FileUnder(s, k, key, a, b);
    if x in xpubs {
      var j :| FiledUnder(s, x, bx, xpubs[x], j);
      assert FiledUnder(t, x, bx, xpubs[x], j);
    }
  }

  lemma NewcomerFiled(s: Serialized, k: nat, key: Xpub, a: Address, b: Balance)
    requires k <= |s.xpubs| && forall j :: 0 <= j < |s.xpubs| ==> a !in s.xpubs[j].addresses
    ensures FiledUnder(FileUnder(s, k, key, a, b), a, b, key, k)
  {
  }

  lemma KeysStayDistinct(s: Serialized, k: nat, key: Xpub, a: Address, b: Balance)
    requires DistinctKeys(s.xpubs) && k <= |s.xpubs| && (k < |s.xpubs| ==> s.xpubs[k].key == key)
    requires forall j :: 0 <= j < k ==> s.xpubs[j].key != key
    ensures DistinctKeys(FileUnder(s, k, key, a, b).xpubs)
  {
  }

  lemma StillNothingElse(s: Serialized, k: nat, key: Xpub, a: Address, b: Balance, done: map<Address, Balance>)
    requires NothingElse(s, done) && k <= |s.xpubs|
    ensures NothingElse(FileUnder(s, k, key, a, b), done[a := b])
  {
    var t := FileUnder(s, k, key, a, b);
    assert a in t.xpubs[k].addresses;
  }

  lemma XpubStep(s: Serialized, done: map<Address, Balance>, xpubs: map<Address, Xpub>, a: Address, b: Balance, k: nat)
    requires IsPartition(s, done, xpubs) && a !in done && a in xpubs
    requires k <= |s.xpubs| && (k < |s.xpubs| ==> s.xpubs[k].key == xpubs[a])
    requires forall j :: 0 <= j < k ==> s.xpubs[j].key != xpubs[a]
    ensures IsPartition(FileUnder(s, k, xpubs[a], a, b), done[a := b], xpubs)
  {
    hide FileUnder, FiledUnder, DistinctKeys;
    var t := FileUnder(s, k, xpubs[a], a, b);
    forall x | x in done ensures FiledOnce(t, x, done[x], xpubs) {
      OthersStay(s, k, xpubs[a], a, b, x, done[x], xpubs);
    }
    NewcomerFiled(s, k, xpubs[a], a, b);
    NotStandalone(s, k, xpubs[a], a, b);
    KeysStayDistinct(s, k, xpubs[a], a, b);
    StillNothingElse(s, k, xpubs[a], a, b, done);
  }

  lemma NotStandalone(s: Serialized, k: nat, key: Xpub, a: Address, b: Balance)
    requires k <= |s.xpubs|
    ensures FileUnder(s, k, key, a, b).standalone == s.standalone
  {
  }

  lemma MoveAccount(done: map<Address, Balance>, left: map<Address, Balance>, a: Address)
    requires a in left && done.Keys !! left.Keys
    ensures done[a := left[a]] + (left - {a}) == done + left
    ensures done[a := left[a]].Keys !! (left - {a}).Keys && a !in done
    ensures |left - {a}| < |left|
  {
    assert (left - {a}).Keys == left.Keys - {a};
  }

  /** Serialization is a partition of the accounts, whatever order they are visited in. */
  method SerializeBitcoinBalances(accounts: map<Address, Balance>, xpubs: map<Address, Xpub>) returns (s: Serialized)
    ensures IsPartition(s, accounts, xpubs)
  {
    hide IsPartition, FileUnder, FileStandalone;
    s := Serialized(map[], []);
    var left := accounts;
    ghost var done := map[];
    NothingFiled(xpubs);
    while left != map[]
      invariant IsPartition(s, done, xpubs)
      invariant done.Keys !! left.Keys && done + left == accounts
      decreases |left|
    {
      var a :| a in left;
      var b := left[a];
      MoveAccount(done, left, a);
      if a !in xpubs {
        StandaloneStep(s, done, xpubs, a, b);
        s := FileStandalone(s, a, b);
      } else {
        var k := FindEntry(s.xpubs, xpubs[a]);
        XpubStep(s, done, xpubs, a, b, k);
        s := FileUnder(s, k, xpubs[a], a, b);
      }
      done := done[a := b];
      left := left - {a};
    }
    assert done == accounts;
  }

  lemma NothingFiled(xpubs: map<Address, Xpub>)
    ensures IsPartition(Serialized(map[], []), map[], xpubs)
  {
  }
}
