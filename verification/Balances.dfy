/** Balances per chain and account, their totals, and the overall aggregation by asset and by
    location. Dictionaries are maps visited in any order. */
module Balances {
  import opened Common
  import opened Sums

  datatype Balance = Balance(amount: real, usd: real) {
    function Add(other: Balance): Balance {
      Balance(amount + other.amount, usd + other.usd)
    }
  }

  const ZERO := Balance(0.0, 0.0)

  type Address = string

  datatype Chain =
    | Ethereum | Beaconchain | Bitcoin | BitcoinCash | Kusama | Avalanche | Polkadot | Optimism | PolygonPos
    | ArbitrumOne | Base | Gnosis | Scroll | ZksyncLite

  datatype Sheet = Sheet(assets: map<Asset, Balance>, liabilities: map<Asset, Balance>)

  const EMPTY_SHEET := Sheet(map[], map[])

  /** Bitcoin chains keep one balance per address, all other chains a sheet of assets and
      liabilities. */
  datatype Holdings = Tokens(sheets: map<Address, Sheet>) | Coins(coins: map<Address, Balance>)

  type AllBalances = map<Chain, Holdings>

  datatype Side = Assets | Liabilities

  function On(s: Sheet, side: Side): map<Asset, Balance> {
    if side.Assets? then s.assets else s.liabilities
  }

  /** The entry of a sheet for one asset on one side, zero if there is none. */
  function Cell(s: Sheet, asset: Asset, side: Side): Balance {
    Read(On(s, side), asset)
  }

  function Read<K>(m: map<K, Balance>, k: K): Balance {
    if k in m then m[k] else ZERO
  }

  // ----- Sums of balances -----

  function Amounts<K>(m: map<K, Balance>): map<K, real> {
    map k | k in m :: m[k].amount
  }

  function Usds<K>(m: map<K, Balance>): map<K, real> {
    map k | k in m :: m[k].usd
  }

  ghost function SumBalances<K>(m: map<K, Balance>): Balance {
    Balance(SumValues(Amounts(m)), SumValues(Usds(m)))
  }

  lemma SumBalancesEmpty<K>()
    ensures SumBalances<K>(map[]) == ZERO
  {
    var m: map<K, Balance> := map[];
    assert Amounts(m) == map[] && Usds(m) == map[];
  }

  lemma SumBalancesWithout<K>(m: map<K, Balance>, k: K)
    requires k in m
    ensures SumBalances(m) == m[k].Add(SumBalances(m - {k}))
  {
    SumWithout(Amounts(m), k);
    SumWithout(Usds(m), k);
    assert Amounts(m) - {k} == Amounts(m - {k}) && Usds(m) - {k} == Usds(m - {k});
  }

  lemma SumBalancesAdd<K>(m: map<K, Balance>, k: K, b: Balance)
    ensures SumBalances(m[k := Read(m, k).Add(b)]) == SumBalances(m).Add(b)
  {
    var v := Read(m, k).Add(b);
    SumUpdate(Amounts(m), k, v.amount);
    SumUpdate(Usds(m), k, v.usd);
    assert Amounts(m[k := v]) == Amounts(m)[k := v.amount] && Usds(m[k := v]) == Usds(m)[k := v.usd];
  }

  /** The entries for the given keys. */
  function Only<K, V>(m: map<K, V>, keys: set<K>): map<K, V> {
    map k | k in m && k in keys :: m[k]
  }

  lemma {:induction false} SumBalancesSplit<K>(m: map<K, Balance>, keys: set<K>)
    ensures SumBalances(m) == SumBalances(m - keys).Add(SumBalances(Only(m, keys)))
    decreases |m|
  {
    hide SumBalances, Only;
    SumBalancesEmpty<K>();
    if m == map[] {
      SplitNothing<K, Balance>(keys);
    } else {
      var k :| k in m;
      Fewer(m, k);
      SumBalancesWithout(m, k);
      SumBalancesSplit(m - {k}, keys);
      if k in keys {
        SplitInside(m, keys, k);
        SumBalancesWithout(Only(m, keys), k);
      } else {
        SplitOutside(m, keys, k);
        SumBalancesWithout(m - keys, k);
      }
    }
  }

  lemma SplitNothing<K, V>(keys: set<K>)
    ensures var m: map<K, V> := map[]; m - keys == map[] && Only(m, keys) == map[]
  {
  }

  lemma SplitInside<K, V>(m: map<K, V>, keys: set<K>, k: K)
    requires k in m && k in keys
    ensures k in Only(m, keys) && Only(m, keys)[k] == m[k]
    ensures m - {k} - keys == m - keys
    ensures Only(m - {k}, keys) == Only(m, keys) - {k}
  {
  }

  lemma SplitOutside<K, V>(m: map<K, V>, keys: set<K>, k: K)
    requires k in m && k !in keys
    ensures k in m - keys && (m - keys)[k] == m[k]
    ensures m - {k} - keys == m - keys - {k}
    ensures Only(m - {k}, keys) == Only(m, keys)
  {
  }

  // ----- Totals of one chain -----

  /** What every account of a chain holds, or owes, of one asset. */
  function Column(sheets: map<Address, Sheet>, asset: Asset, side: Side): map<Address, Balance> {
    map x | x in sheets :: Cell(sheets[x], asset, side)
  }

  function CoinOf(chain: Chain): Asset {
    if chain.Bitcoin? then A_BTC else A_BCH
  }

  ghost function ChainSum(h: Holdings, chain: Chain, asset: Asset, side: Side): Balance {
    match h
    case Tokens(sheets) => SumBalances(Column(sheets, asset, side))
    case Coins(coins) => if side.Assets? && asset == CoinOf(chain) then SumBalances(coins) else ZERO
  }

  /** Pointwise sum, as combining two dictionaries gives it. */
  function CombineDicts(a: map<Asset, Balance>, b: map<Asset, Balance>): map<Asset, Balance> {
    map k | k in a.Keys + b.Keys :: Read(a, k).Add(Read(b, k))
  }

  function AddSheets(a: Sheet, b: Sheet): Sheet {
    Sheet(CombineDicts(a.assets, b.assets), CombineDicts(a.liabilities, b.liabilities))
  }

  lemma AddSheetsCell(a: Sheet, b: Sheet, asset: Asset, side: Side)
    ensures Cell(AddSheets(a, b), asset, side) == Cell(a, asset, side).Add(Cell(b, asset, side))
  {
  }

  lemma CombineStep(totals: Sheet, left: map<Address, Sheet>, x: Address, asset: Asset, side: Side)
    requires x in left
    ensures Cell(AddSheets(totals, left[x]), asset, side).Add(SumBalances(Column(left - {x}, asset, side)))
         == Cell(totals, asset, side).Add(SumBalances(Column(left, asset, side)))
  {
    hide AddSheets, SumBalances, Column, Cell;
    AddSheetsCell(totals, left[x], asset, side);
    ColumnWithout(left, x, asset, side);
  }

  lemma ColumnWithout(left: map<Address, Sheet>, x: Address, asset: Asset, side: Side)
    requires x in left
    ensures SumBalances(Column(left, asset, side))
         == Cell(left[x], asset, side).Add(SumBalances(Column(left - {x}, asset, side)))
  {
    hide SumBalances;
    SumBalancesWithout(Column(left, asset, side), x);
    assert Column(left, asset, side) - {x} == Column(left - {x}, asset, side);
  }

  /** Adds every account of a token chain to running totals. */
  method AddAccounts(totals0: Sheet, sheets: map<Address, Sheet>) returns (totals: Sheet)
    ensures forall asset: Asset, side: Side ::
              Cell(totals, asset, side) == Cell(totals0, asset, side).Add(SumBalances(Column(sheets, asset, side)))
  {
    hide AddSheets, SumBalances, Cell, Column;
    totals := totals0;
    var left := sheets;
    while left != map[]
      invariant forall asset: Asset, side: Side ::
                  Cell(totals, asset, side).Add(SumBalances(Column(left, asset, side)))
                  == Cell(totals0, asset, side).Add(SumBalances(Column(sheets, asset, side)))
      decreases |left|
    {
      var x :| x in left;
      forall asset: Asset, side: Side
        ensures Cell(AddSheets(totals, left[x]), asset, side).Add(SumBalances(Column(left - {x}, asset, side)))
             == Cell(totals0, asset, side).Add(SumBalances(Column(sheets, asset, side)))
      {
        CombineStep(totals, left, x, asset, side);
      }
      totals := AddSheets(totals, left[x]);
      assert (left - {x}).Keys == left.Keys - {x};
      left := left - {x};
    }
    forall asset: Asset, side: Side
      ensures Cell(totals, asset, side) == Cell(totals0, asset, side).Add(SumBalances(Column(sheets, asset, side)))
    {
      EmptyColumn(asset, side);
      assert Cell(totals, asset, side).Add(SumBalances(Column(map[], asset, side)))
          == Cell(totals0, asset, side).Add(SumBalances(Column(sheets, asset, side)));
    }
  }

  lemma EmptyColumn(asset: Asset, side: Side)
    ensures SumBalances(Column(map[], asset, side)) == ZERO
  {
    assert Column(map[], asset, side) == map[];
    SumBalancesEmpty<Address>();
  }

  /** Adds every address of a bitcoin chain to the chain's coin. */
  method AddCoins(totals0: Sheet, coins: map<Address, Balance>, coin: Asset) returns (totals: Sheet)
    ensures totals.liabilities == totals0.liabilities
    ensures forall asset: Asset ::
              Read(totals.assets, asset) == if asset == coin then Read(totals0.assets, coin).Add(SumBalances(coins))
                                            else Read(totals0.assets, asset)
  {
    hide SumBalances;
    totals := totals0;
    var left := coins;
    while left != map[]
      invariant totals.liabilities == totals0.liabilities
      invariant Read(totals.assets, coin).Add(SumBalances(left)) == Read(totals0.assets, coin).Add(SumBalances(coins))
      invariant forall asset: Asset :: asset != coin ==> Read(totals.assets, asset) == Read(totals0.assets, asset)
      decreases |left|
    {
      var x :| x in left;
      SumBalancesWithout(left, x);
      totals := totals.(assets := totals.assets[coin := Read(totals.assets, coin).Add(left[x])]);
      assert (left - {x}).Keys == left.Keys - {x};
      left := left - {x};
    }
    SumBalancesEmpty<Address>();
  }


  /** Totals of one chain, as a balance update for that chain reports them. */
  method ChainTotals(h: Holdings, chain: Chain) returns (totals: Sheet)
    ensures forall asset: Asset, side: Side :: Cell(totals, asset, side) == ChainSum(h, chain, asset, side)
  {
    hide SumBalances, Column, CoinOf;
    match h {
      case Tokens(sheets) => totals := AddAccounts(EMPTY_SHEET, sheets);
      case Coins(coins) => totals := AddCoins(EMPTY_SHEET, coins, CoinOf(chain));
    }
  }

  // ----- Totals of all chains -----

  predicate IsBitcoin(chain: Chain) {
    chain.Bitcoin? || chain.BitcoinCash?
  }

  /** Every chain has holdings of its own kind. */
  ghost predicate Complete(bs: AllBalances) {
    forall c: Chain :: c in bs && (bs[c].Coins? <==> IsBitcoin(c))
  }

  function TokenChains(bs: AllBalances): set<Chain> {
    set c | c in bs && bs[c].Tokens?
  }

  /** The chain sums of the given chains. */
  ghost function ChainSums(bs: AllBalances, chains: set<Chain>, asset: Asset, side: Side): map<Chain, Balance> {
    map c | c in bs && c in chains :: ChainSum(bs[c], c, asset, side)
  }

  /** The sum, over all chains, of the chain's own totals. */
  ghost function TotalSum(bs: AllBalances, asset: Asset, side: Side): Balance {
    SumBalances(ChainSums(bs, bs.Keys, asset, side))
  }

  lemma TakeChain(bs: AllBalances, chains: set<Chain>, c: Chain, asset: Asset, side: Side)
    requires c in bs && c in chains
    ensures SumBalances(ChainSums(bs, chains, asset, side))
         == ChainSum(bs[c], c, asset, side).Add(SumBalances(ChainSums(bs, chains - {c}, asset, side)))
  {
    hide SumBalances, ChainSum;
    SumBalancesWithout(ChainSums(bs, chains, asset, side), c);
    assert ChainSums(bs, chains, asset, side) - {c} == ChainSums(bs, chains - {c}, asset, side);
  }

  lemma NoChains(bs: AllBalances, asset: Asset, side: Side)
    ensures SumBalances(ChainSums(bs, {}, asset, side)) == ZERO
  {
    assert ChainSums(bs, {}, asset, side) == map[];
    SumBalancesEmpty<Chain>();
  }

  /** `totals` accounts for all chains but the ones left. */
  ghost predicate Covers(bs: AllBalances, totals: Sheet, left: set<Chain>) {
    forall asset: Asset, side: Side ::
      Cell(totals, asset, side).Add(SumBalances(ChainSums(bs, left, asset, side))) == TotalSum(bs, asset, side)
  }

  lemma CoverOne(bs: AllBalances, totals: Sheet, next: Sheet, left: set<Chain>, c: Chain)
    requires Covers(bs, totals, left) && c in bs && c in left
    requires forall asset: Asset, side: Side ::
               Cell(next, asset, side) == Cell(totals, asset, side).Add(ChainSum(bs[c], c, asset, side))
    ensures Covers(bs, next, left - {c})
  {
    hide Covers, SumBalances, ChainSum, TotalSum, ChainSums, Cell;
    forall asset: Asset, side: Side
      ensures Cell(next, asset, side).Add(SumBalances(ChainSums(bs, left - {c}, asset, side)))
              == TotalSum(bs, asset, side)
    {
      TakeChain(bs, left, c, asset, side);
      CoversCell(bs, totals, left, asset, side);
    }
    CoversFromCells(bs, next, left - {c});
  }

  lemma CoversCell(bs: AllBalances, totals: Sheet, left: set<Chain>, asset: Asset, side: Side)
    requires Covers(bs, totals, left)
    ensures Cell(totals, asset, side).Add(SumBalances(ChainSums(bs, left, asset, side))) == TotalSum(bs, asset, side)
  {
    hide SumBalances, TotalSum, ChainSums;
  }

  lemma CoversFromCells(bs: AllBalances, totals: Sheet, left: set<Chain>)
    requires forall asset: Asset, side: Side ::
               Cell(totals, asset, side).Add(SumBalances(ChainSums(bs, left, asset, side))) == TotalSum(bs, asset, side)
    ensures Covers(bs, totals, left)
  {
    hide SumBalances, TotalSum, ChainSums;
  }

  /** `recalculate_totals`: token chains first, then the two bitcoin chains. The result is, for
      every asset and liability, the sum over all chains of what each chain's own totals say. */
  method RecalculateTotals(bs: AllBalances) returns (totals: Sheet)
    requires Complete(bs)
    ensures forall asset: Asset, side: Side :: Cell(totals, asset, side) == TotalSum(bs, asset, side)
  {
    hide SumBalances, ChainSum, Covers, TotalSum, ChainSums;
    totals := EMPTY_SHEET;
    var tokens := TokenChains(bs);
    CoversNothing(bs);
    ghost var left := bs.Keys;
    while tokens != {}
      invariant tokens <= TokenChains(bs) && left == tokens + {Bitcoin, BitcoinCash}
      invariant Covers(bs, totals, left)
      decreases |tokens|
    {
      var c :| c in tokens;
      ghost var before := totals;
      totals := AddAccounts(totals, bs[c].sheets);
      TokenChainSum(bs, c);
      CoverOne(bs, before, totals, left, c);
      left := left - {c};
      tokens := tokens - {c};
    }
    ghost var before := totals;
    totals := AddCoins(totals, bs[Bitcoin].coins, A_BTC);
    CoinsAdded(bs[Bitcoin].coins, Bitcoin, before, totals);
    CoverOne(bs, before, totals, left, Bitcoin);
    before := totals;
    totals := AddCoins(totals, bs[BitcoinCash].coins, A_BCH);
    CoinsAdded(bs[BitcoinCash].coins, BitcoinCash, before, totals);
    CoverOne(bs, before, totals, left - {Bitcoin}, BitcoinCash);
    assert left - {Bitcoin} - {BitcoinCash} == {};
    CoversAll(bs, totals);
  }

  lemma CoversNothing(bs: AllBalances)
    requires Complete(bs)
    ensures Covers(bs, EMPTY_SHEET, bs.Keys) && bs.Keys == TokenChains(bs) + {Bitcoin, BitcoinCash}
  {
  }

  lemma CoversAll(bs: AllBalances, totals: Sheet)
    requires Covers(bs, totals, {})
    ensures forall asset: Asset, side: Side :: Cell(totals, asset, side) == TotalSum(bs, asset, side)
  {
    forall asset: Asset, side: Side ensures Cell(totals, asset, side) == TotalSum(bs, asset, side) {
      NoChains(bs, asset, side);
    }
  }

  lemma TokenChainSum(bs: AllBalances, c: Chain)
    requires c in bs && bs[c].Tokens?
    ensures forall asset: Asset, side: Side ::
              ChainSum(bs[c], c, asset, side) == SumBalances(Column(bs[c].sheets, asset, side))
  {
  }

  lemma CoinsAdded(coins: map<Address, Balance>, chain: Chain, before: Sheet, after: Sheet)
    requires after.liabilities == before.liabilities
    requires forall asset: Asset ::
              Read(after.assets, asset)
              == if asset == CoinOf(chain) then Read(before.assets, CoinOf(chain)).Add(SumBalances(coins))
                 else Read(before.assets, asset)
    ensures forall asset: Asset, side: Side ::
              Cell(after, asset, side) == Cell(before, asset, side).Add(ChainSum(Coins(coins), chain, asset, side))
  {
    hide SumBalances;
  }

  // ----- Aggregation by asset and by location -----

  type Location = string

  const BLOCKCHAIN: Location := "blockchain"

  type ByLocation = map<Location, map<Asset, Balance>>

  datatype ManualEntry = ManualEntry(location: Location, asset: Asset, value: Balance)

  function At(bs: ByLocation, location: Location, asset: Asset): Balance {
    if location in bs then Read(bs[location], asset) else ZERO
  }

  /** The sums of the locations. */
  ghost function LocationSums(bs: ByLocation): map<Location, Balance> {
    map l | l in bs :: SumBalances(bs[l])
  }

  ghost function GrandTotal(bs: ByLocation): Balance {
    SumBalances(LocationSums(bs))
  }

  function EntriesAt(entries: seq<ManualEntry>, location: Location, asset: Asset): Balance {
    if entries == [] then ZERO
    else
      var e := entries[|entries| - 1];
      var rest := EntriesAt(entries[..|entries| - 1], location, asset);
      if e.location == location && e.asset == asset then rest.Add(e.value) else rest
  }

  function EntriesTotal(entries: seq<ManualEntry>): Balance {
    if entries == [] then ZERO else EntriesTotal(entries[..|entries| - 1]).Add(entries[|entries| - 1].value)
  }

  function AddEntry(bs: ByLocation, e: ManualEntry): ByLocation {
    if e.location !in bs then bs[e.location := map[e.asset := e.value]]
    else if e.asset !in bs[e.location] then bs[e.location := bs[e.location][e.asset := e.value]]
    else bs[e.location := bs[e.location][e.asset := bs[e.location][e.asset].Add(e.value)]]
  }

  lemma AddEntryTotal(bs: ByLocation, e: ManualEntry)
    ensures GrandTotal(AddEntry(bs, e)) == GrandTotal(bs).Add(e.value)
  {
    hide SumBalances;
    var before := if e.location in bs then bs[e.location] else map[];
    var after := before[e.asset := Read(before, e.asset).Add(e.value)];
    assert AddEntry(bs, e) == bs[e.location := after];
    SumBalancesAdd(before, e.asset, e.value);
    SumBalancesEmpty<Asset>();
    assert LocationSums(bs[e.location := after])
        == LocationSums(bs)[e.location := Read(LocationSums(bs), e.location).Add(e.value)];
    SumBalancesAdd(LocationSums(bs), e.location, e.value);
  }

  lemma AddEntryAt(bs: ByLocation, e: ManualEntry, l: Location, a: Asset)
    ensures At(AddEntry(bs, e), l, a)
         == if e.location == l && e.asset == a then At(bs, l, a).Add(e.value) else At(bs, l, a)
    ensures AddEntry(bs, e).Keys == bs.Keys + {e.location}
  {
  }

  /** The entries of a prefix, one more at a time. */
  lemma EntriesGrow(entries: seq<ManualEntry>, i: nat, l: Location, a: Asset)
    requires i < |entries|
    ensures EntriesAt(entries[..i + 1], l, a)
         == if entries[i].location == l && entries[i].asset == a
            then EntriesAt(entries[..i], l, a).Add(entries[i].value)
            else EntriesAt(entries[..i], l, a)
    ensures EntriesTotal(entries[..i + 1]) == EntriesTotal(entries[..i]).Add(entries[i].value)
  {
    assert entries[..i + 1][..i] == entries[..i];
  }

  /** Adds all manually tracked balances: every location and asset gains exactly its entries, and
      the overall total exactly their sum. */
  method AccountForManualBalances(bs0: ByLocation, entries: seq<ManualEntry>) returns (bs: ByLocation)
    ensures forall l: Location, a: Asset :: At(bs, l, a) == At(bs0, l, a).Add(EntriesAt(entries, l, a))
    ensures GrandTotal(bs) == GrandTotal(bs0).Add(EntriesTotal(entries))
    ensures bs.Keys == bs0.Keys + set i | 0 <= i < |entries| :: entries[i].location
  {
    hide GrandTotal, At, AddEntry, EntriesAt, EntriesTotal;
    bs := bs0;
    NoEntries(entries);
    var i := 0;
    while i < |entries|
      invariant 0 <= i <= |entries|
      invariant forall l: Location, a: Asset :: At(bs, l, a) == At(bs0, l, a).Add(EntriesAt(entries[..i], l, a))
      invariant GrandTotal(bs) == GrandTotal(bs0).Add(EntriesTotal(entries[..i]))
      invariant bs.Keys == bs0.Keys + set j | 0 <= j < i :: entries[j].location
    {
      var e := entries[i];
      AddEntryTotal(bs, e);
      forall l: Location, a: Asset
        ensures At(AddEntry(bs, e), l, a) == At(bs0, l, a).Add(EntriesAt(entries[..i + 1], l, a))
      {
        AddEntryAt(bs, e, l, a);
        EntriesGrow(entries, i, l, a);
        assert At(bs, l, a) == At(bs0, l, a).Add(EntriesAt(entries[..i], l, a));
      }
      AddEntryAt(bs, e, "", "");
      EntriesGrow(entries, i, "", "");
      bs := AddEntry(bs, e);
      i := i + 1;
    }
    assert entries[..i] == entries;
  }

  lemma NoEntries(entries: seq<ManualEntry>)
    ensures EntriesTotal(entries[..0]) == ZERO
    ensures forall l: Location, a: Asset :: EntriesAt(entries[..0], l, a) == ZERO
  {
  }

  /** One location: adds each of its balances to the asset totals and sums its value. */
  method AddLocation(totals0: map<Asset, Balance>, assets: map<Asset, Balance>)
    returns (totals: map<Asset, Balance>, usd: real)
    ensures forall a: Asset :: Read(totals, a) == Read(totals0, a).Add(Read(assets, a))
    ensures SumBalances(totals) == SumBalances(totals0).Add(SumBalances(assets))
    ensures usd == SumBalances(assets).usd
  {
    hide SumBalances, Read;
    totals, usd := totals0, 0.0;
    var left := assets;
    SumBalancesEmpty<Asset>();
    while left != map[]
      invariant left.Keys <= assets.Keys && forall a :: a in left ==> left[a] == assets[a]
      invariant forall a: Asset :: Read(totals, a).Add(Read(left, a)) == Read(totals0, a).Add(Read(assets, a))
      invariant SumBalances(totals).Add(SumBalances(left)) == SumBalances(totals0).Add(SumBalances(assets))
      invariant usd + SumBalances(left).usd == SumBalances(assets).usd
      decreases |left|
    {
      var a :| a in left;
      SumBalancesWithout(left, a);
      SumBalancesAdd(totals, a, left[a]);
      forall b: Asset
        ensures Read(totals[a := Read(totals, a).Add(left[a])], b).Add(Read(left - {a}, b))
                == Read(totals, b).Add(Read(left, b))
      {
        MoveOne(totals, left, a, b);
      }
      usd := usd + left[a].usd;
      totals := totals[a := Read(totals, a).Add(left[a])];
      assert (left - {a}).Keys == left.Keys - {a};
      left := left - {a};
    }
    forall b: Asset ensures Read(totals, b) == Read(totals0, b).Add(Read(assets, b)) {
      ReadNothing(b);
      assert Read(totals, b).Add(Read(map[], b)) == Read(totals0, b).Add(Read(assets, b));
    }
  }

  lemma ReadNothing(a: Asset)
    ensures Read(map[], a) == ZERO
  {
  }

  lemma MoveOne(totals: map<Asset, Balance>, left: map<Asset, Balance>, a: Asset, b: Asset)
    requires a in left
    ensures Read(totals[a := Read(totals, a).Add(left[a])], b).Add(Read(left - {a}, b))
            == Read(totals, b).Add(Read(left, b))
  {
  }

  /** What each of the given locations holds of one asset. */
  ghost function AssetColumn(bs: ByLocation, locations: set<Location>, asset: Asset): map<Location, Balance> {
    map l | l in bs && l in locations :: Read(bs[l], asset)
  }

  datatype Snapshot = Snapshot(assets: map<Asset, Balance>, locations: map<Location, real>, net: real,
                               shares: map<Location, real>)

  lemma AssetColumnGrows(bs: ByLocation, done: set<Location>, l: Location, asset: Asset)
    requires l in bs && l !in done
    ensures SumBalances(AssetColumn(bs, done + {l}, asset))
            == SumBalances(AssetColumn(bs, done, asset)).Add(Read(bs[l], asset))
  {
    hide SumBalances, AssetColumn;
    OneMoreColumn(bs, done, l, asset);
    SumBalancesWithout(AssetColumn(bs, done + {l}, asset), l);
  }

  lemma OneMoreColumn(bs: ByLocation, done: set<Location>, l: Location, asset: Asset)
    requires l in bs && l !in done
    ensures var column := AssetColumn(bs, done + {l}, asset);
            && l in column && column[l] == Read(bs[l], asset)
            && column - {l} == AssetColumn(bs, done, asset)
  {
    hide Read;
  }

  /** The values of the locations already visited. */
  ghost predicate LocationsDone(bs: ByLocation, done: set<Location>, locations: map<Location, real>) {
    done <= bs.Keys && locations.Keys == done && forall l :: l in done ==> locations[l] == SumBalances(bs[l]).usd
  }

  /** The totals loop: by asset and by location at once, with the same overall value. */
  method SumUp(bs: ByLocation) returns (assets: map<Asset, Balance>, locations: map<Location, real>)
    ensures forall a: Asset :: Read(assets, a) == SumBalances(AssetColumn(bs, bs.Keys, a))
    ensures LocationsDone(bs, bs.Keys, locations)
    ensures SumValues(locations) == SumBalances(assets).usd == GrandTotal(bs).usd
  {
    hide SumBalances, AssetColumn;
    assets, locations := map[], map[];
    var done: set<Location> := {};
    SumBalancesEmpty<Asset>();
    forall a: Asset ensures SumBalances(AssetColumn(bs, {}, a)) == ZERO {
      EmptyAssetColumn(bs, a);
    }
    var left := bs.Keys;
    while left != {}
      invariant done + left == bs.Keys && done !! left
      invariant LocationsDone(bs, done, locations)
      invariant forall a: Asset :: Read(assets, a) == SumBalances(AssetColumn(bs, done, a))
      invariant SumValues(locations) == SumBalances(assets).usd
      decreases left
    {
      var l :| l in left;
      forall a: Asset
        ensures SumBalances(AssetColumn(bs, done + {l}, a)) == SumBalances(AssetColumn(bs, done, a)).Add(Read(bs[l], a))
      {
        AssetColumnGrows(bs, done, l, a);
      }
      var usd;
      assets, usd := AddLocation(assets, bs[l]);
      SumUpdate(locations, l, usd);
      locations := locations[l := usd];
      done, left := done + {l}, left - {l};
    }
    GrandTotalUsd(bs, locations);
  }

  lemma EmptyAssetColumn(bs: ByLocation, asset: Asset)
    ensures SumBalances(AssetColumn(bs, {}, asset)) == ZERO
  {
    assert AssetColumn(bs, {}, asset) == map[];
    SumBalancesEmpty<Location>();
  }

  lemma GrandTotalUsd(bs: ByLocation, locations: map<Location, real>)
    requires LocationsDone(bs, bs.Keys, locations)
    ensures SumValues(locations) == GrandTotal(bs).usd
  {
    assert Usds(LocationSums(bs)) == locations;
  }

  /** The last part of `query_balances`: net value and the value shown per location, the blockchain
      location being charged with all liabilities. Asset values and location values agree, and the
      values shown add up to the net value if the blockchain location is present; without it they
      exceed it by the liabilities. The shares of the net value then add up to one. */
  method TakeSnapshot(bs: ByLocation, liabilities: map<Asset, Balance>) returns (s: Snapshot)
    ensures forall a: Asset :: Read(s.assets, a) == SumBalances(AssetColumn(bs, bs.Keys, a))
    ensures s.net == GrandTotal(bs).usd - SumBalances(liabilities).usd
    ensures s.locations.Keys == bs.Keys
    ensures forall l :: l in bs ==>
              s.locations[l] == SumBalances(bs[l]).usd - if l == BLOCKCHAIN then SumBalances(liabilities).usd else 0.0
    ensures SumValues(s.locations) == s.net + if BLOCKCHAIN in bs then 0.0 else SumBalances(liabilities).usd
    ensures s.shares.Keys == bs.Keys
    ensures s.net != 0.0 ==> SumValues(s.shares) == SumValues(s.locations) / s.net
    ensures s.net != 0.0 && BLOCKCHAIN in bs ==> SumValues(s.shares) == 1.0
    ensures s.net == 0.0 ==> forall l :: l in bs ==> s.shares[l] == 0.0
  {
    hide SumBalances, AssetColumn, GrandTotal, SumValues, Parts;
    var assets, locations := SumUp(bs);
    var net := SumUsd(assets);
    var owed := SumUsd(liabilities);
    net := net - owed;
    var stats := locations;
    if BLOCKCHAIN in locations {
      stats := locations[BLOCKCHAIN := locations[BLOCKCHAIN] - owed];
      SumUpdate(locations, BLOCKCHAIN, locations[BLOCKCHAIN] - owed);
    }
    var shares := Shares(stats, net);
    SharesAddUp(stats, net);
    s := Snapshot(assets, stats, net, shares);
  }

  /** The fraction of the net value each location holds, zero if there is no net value. */
  function Shares(stats: map<Location, real>, net: real): map<Location, real> {
    if net != 0.0 then Parts(stats, net) else map l | l in stats :: 0.0
  }

  lemma SharesAddUp(stats: map<Location, real>, net: real)
    ensures Shares(stats, net).Keys == stats.Keys
    ensures net != 0.0 ==> SumValues(Shares(stats, net)) == SumValues(stats) / net
    ensures net == 0.0 ==> forall l :: l in stats ==> Shares(stats, net)[l] == 0.0
  {
    hide SumValues;
    if net != 0.0 {
      SumParts(stats, net);
    }
  }

  method SumUsd(m: map<Asset, Balance>) returns (usd: real)
    ensures usd == SumBalances(m).usd
  {
    hide SumBalances;
    usd := 0.0;
    var left := m;
    SumBalancesEmpty<Asset>();
    while left != map[]
      invariant left.Keys <= m.Keys && forall a :: a in left ==> left[a] == m[a]
      invariant usd + SumBalances(left).usd == SumBalances(m).usd
      decreases |left|
    {
      var a :| a in left;
      SumBalancesWithout(left, a);
      usd := usd + left[a].usd;
      assert (left - {a}).Keys == left.Keys - {a};
      left := left - {a};
    }
  }
}
