/** The cost basis calculator of an accounting pot: one book per asset (WETH shares ETH's), a list
    of missing acquisitions, and the loops that spend and reduce. */
module CostBasisCalculator {
  import opened Common
  import opened CostBasis

  datatype MissingAcquisition = MissingAcquisition(asset: Asset, time: Timestamp, found: real, missing: real)

  datatype Settings = Settings(policy: Policy, period: Option<int>)

  datatype CostState = CostState(books: map<Asset, Book>, missing: seq<MissingAcquisition>)

  datatype SpendResult = SpendResult(state: CostState, info: Option<CostBasisInfo>, error: Option<Error>)

  datatype ReduceResult = ReduceResult(state: CostState, enough: bool, error: Option<Error>)

  const NO_HISTORY := CostState(map[], [])

  /** Assets with a common cost basis. */
  function Alias(asset: Asset): Asset {
    if asset == A_WETH then A_ETH else asset
  }

  function BookOf(cs: CostState, s: Settings, asset: Asset): Book {
    if Alias(asset) in cs.books then cs.books[Alias(asset)] else EmptyBook(s.policy)
  }

  function SetBook(cs: CostState, asset: Asset, b: Book): CostState {
    cs.(books := cs.books[Alias(asset) := b])
  }

  function Obtain(cs: CostState, s: Settings, asset: Asset, amount: real, timestamp: Timestamp,
                  rate: real, index: int): CostState {
    SetBook(cs, asset, AddLot(BookOf(cs, s, asset), amount, timestamp, rate, index))
  }

  function Report(cs: CostState, asset: Asset, now: Timestamp, found: real, missing: real): CostState {
    cs.(missing := cs.missing + [MissingAcquisition(asset, now, found, missing)])
  }

  /** The cost basis of a spend, from the lots `Take` used. Whatever is missing counts as taxable. */
  function Info(t: Taken, amount: real, average: Option<real>, s: Settings, now: Timestamp): CostBasisInfo {
    var free, taxed := Select(t.used, s.period, now, true), Select(t.used, s.period, now, false);
    CostBasisInfo(
      if t.missing == 0.0 then AmountUsed(taxed) else amount - AmountUsed(free),
      CostUsed(taxed, average), CostUsed(free, average), t.used, t.missing == 0.0)
  }

  function Calculate(cs: CostState, s: Settings, asset: Asset, amount: real, now: Timestamp): SpendResult {
    var b := BookOf(cs, s, asset);
    if b.policy.Acb? && b.amount == 0.0 then
      SpendResult(Report(SetBook(cs, asset, b), asset, now, b.amount, amount),
                  Some(CostBasisInfo(amount, 0.0, 0.0, [], false)), None)
    else
      var t := Take(b, amount);
      var cs1 := SetBook(cs, asset, t.book);
      if t.error.Some? then SpendResult(cs1, None, t.error)
      else SpendResult(if t.missing == 0.0 then cs1 else Report(cs1, asset, now, AmountUsed(t.used), t.missing),
                       Some(Info(t, amount, AverageCost(b), s, now)), None)
  }

  function Reduce(cs: CostState, s: Settings, fiat: bool, asset: Asset, amount: real, now: Timestamp): ReduceResult {
    var b := BookOf(cs, s, asset);
    if b.lots == [] then ReduceResult(SetBook(cs, asset, b), false, None)
    else
      var t := Take(b, amount);
      var cs1 := SetBook(cs, asset, t.book);
      if t.error.Some? then ReduceResult(cs1, false, t.error)
      else if t.missing == 0.0 then ReduceResult(cs1, true, None)
      else ReduceResult(if fiat then cs1 else Report(cs1, asset, now, amount - t.missing, t.missing), false, None)
  }

  function Spend(cs: CostState, s: Settings, fiat: bool, asset: Asset, amount: real, now: Timestamp,
                 taxable: bool): SpendResult {
    if !fiat && taxable then Calculate(cs, s, asset, amount, now)
    else
      var r := Reduce(cs, s, fiat, asset, amount, now);
      SpendResult(r.state, None, r.error)
  }

  // ----- The imperative calculator -----

  lemma {:induction false} AmountUsedAppend(us: seq<Use>, u: Use)
    ensures AmountUsed(us + [u]) == AmountUsed(us) + u.amount
  {
    if us == [] {
      assert us + [u] == [u] && [u][1..] == [];
    } else {
      AmountUsedAppend(us[1..], u);
      assert (us + [u])[1..] == us[1..] + [u];
    }
  }

  lemma {:induction false} CostUsedAppend(us: seq<Use>, u: Use, average: Option<real>)
    ensures CostUsed(us + [u], average) ==
            CostUsed(us, average) + (if average.Some? then average.value else u.lot.rate) * u.amount
  {
    if us == [] {
      assert us + [u] == [u] && [u][1..] == [];
    } else {
      CostUsedAppend(us[1..], u, average);
      assert (us + [u])[1..] == us[1..] + [u];
    }
  }

  lemma {:induction false} SelectAppend(us: seq<Use>, u: Use, period: Option<int>, now: Timestamp, free: bool)
    ensures Select(us + [u], period, now, free) ==
            if TaxFree(u.lot, period, now) == free then Select(us, period, now, free) + [u]
            else Select(us, period, now, free)
  {
    if us == [] {
      assert us + [u] == [u] && [u][1..] == [];
    } else {
      SelectAppend(us[1..], u, period, now, free);
      assert (us + [u])[1..] == us[1..] + [u];
    }
  }

  /** The four running sums of a spend, as folds over the uses recorded so far. */
  ghost predicate Sums(used: seq<Use>, s: Settings, now: Timestamp, average: Option<real>,
                       freeAmount: real, freeCost: real, taxedAmount: real, taxedCost: real) {
    && freeAmount == AmountUsed(Select(used, s.period, now, true))
    && freeCost == CostUsed(Select(used, s.period, now, true), average)
    && taxedAmount == AmountUsed(Select(used, s.period, now, false))
    && taxedCost == CostUsed(Select(used, s.period, now, false), average)
    && freeAmount + taxedAmount == AmountUsed(used)
  }

  lemma SumsOfNothing(s: Settings, now: Timestamp, average: Option<real>)
    ensures Sums([], s, now, average, 0.0, 0.0, 0.0, 0.0)
  {
  }

  lemma InfoFromSums(t: Taken, amount: real, s: Settings, now: Timestamp, average: Option<real>,
                     freeAmount: real, freeCost: real, taxedAmount: real, taxedCost: real)
    requires Sums(t.used, s, now, average, freeAmount, freeCost, taxedAmount, taxedCost)
    ensures Info(t, amount, average, s, now) ==
            CostBasisInfo(if t.missing == 0.0 then taxedAmount else amount - freeAmount, taxedCost, freeCost, t.used,
                          t.missing == 0.0)
    ensures taxedAmount + freeAmount == AmountUsed(t.used)
  {
    hide Select, AmountUsed, CostUsed;
  }

  method AddUse(used: seq<Use>, u: Use, s: Settings, now: Timestamp, average: Option<real>,
                freeAmount0: real, freeCost0: real, taxedAmount0: real, taxedCost0: real)
    returns (freeAmount: real, freeCost: real, taxedAmount: real, taxedCost: real)
    requires Sums(used, s, now, average, freeAmount0, freeCost0, taxedAmount0, taxedCost0)
    ensures Sums(used + [u], s, now, average, freeAmount, freeCost, taxedAmount, taxedCost)
  {
    freeAmount, freeCost, taxedAmount, taxedCost := freeAmount0, freeCost0, taxedAmount0, taxedCost0;
    var cost := (if average.Some? then average.value else u.lot.rate) * u.amount;
    AmountUsedAppend(used, u);
    SelectAppend(used, u, s.period, now, true);
    SelectAppend(used, u, s.period, now, false);
    var free := TaxFree(u.lot, s.period, now);
    AmountUsedAppend(Select(used, s.period, now, free), u);
    CostUsedAppend(Select(used, s.period, now, free), u, average);
    if free {
      freeAmount, freeCost := freeAmount + u.amount, freeCost + cost;
    } else {
      taxedAmount, taxedCost := taxedAmount + u.amount, taxedCost + cost;
    }
  }

  class Calculator {
    var settings: Settings
    var books: map<Asset, Book>
    var missing: seq<MissingAcquisition>

    function State(): CostState
      reads this
    {
      CostState(books, missing)
    }

    constructor (settings: Settings)
      ensures this.settings == settings && State() == NO_HISTORY
    {
      this.settings := settings;
      books, missing := map[], [];
    }

    method Reset(settings: Settings)
      modifies this
      ensures this.settings == settings && State() == NO_HISTORY
    {
      this.settings := settings;
      books, missing := map[], [];
    }

    method ObtainAsset(asset: Asset, amount: real, timestamp: Timestamp, rate: real, index: int)
      modifies this
      ensures settings == old(settings)
              && State() == Obtain(old(State()), settings, asset, amount, timestamp, rate, index)
    {
      var b := BookOf(State(), settings, asset);
      books := books[Alias(asset) := AddLot(b, amount, timestamp, rate, index)];
    }

    /** The loop over the processing iterator that computes a taxable spend's cost basis. */
    method CalculateSpendCostBasis(asset: Asset, amount: real, now: Timestamp)
      returns (info: Option<CostBasisInfo>, error: Option<Error>)
      modifies this
      ensures settings == old(settings)
      ensures SpendResult(State(), info, error) == Calculate(old(State()), settings, asset, amount, now)
    {
      hide Sums, Info, AverageCost, ConsumeFirst, Select, AmountUsed, CostUsed;
      var b := BookOf(State(), settings, asset);
      if b.policy.Acb? && b.amount == 0.0 {
        books := books[Alias(asset) := b];
        missing := missing + [MissingAcquisition(asset, now, b.amount, amount)];
        return Some(CostBasisInfo(amount, 0.0, 0.0, [], false)), None;
      }
      SumsOfNothing(settings, now, AverageCost(b));
      var average := AverageCost(b);
      var book, remaining, used := b, amount, [];
      var freeAmount, freeCost, taxedAmount, taxedCost := 0.0, 0.0, 0.0, 0.0;
      while book.lots != []
        invariant Take(b, amount) == Join(used, Take(book, remaining))
        invariant Sums(used, settings, now, average, freeAmount, freeCost, taxedAmount, taxedCost)
        invariant unchanged(this)
        decreases |book.lots|
      {
        var lot := book.lots[0];
        var part := if remaining < lot.remaining then remaining else lot.remaining;
        freeAmount, freeCost, taxedAmount, taxedCost :=
          AddUse(used, Use(part, lot), settings, now, average, freeAmount, freeCost, taxedAmount, taxedCost);
        var c := ConsumeFirst(book, part);
        if c.error.Some? {
          books := books[Alias(asset) := c.book];
          return None, c.error;
        }
        ghost var before := used;
        used := used + [Use(part, lot)];
        if remaining < lot.remaining {
          book, remaining := c.book, 0.0;
          break;
        }
        ConsumeWhole(book);
        JoinTwice(before, Use(part, lot), Take(c.book, remaining - part));
        book, remaining := c.book, remaining - lot.remaining;
      }
      assert Take(b, amount) == Taken(book, used, remaining, None);
      InfoFromSums(Take(b, amount), amount, settings, now, average, freeAmount, freeCost, taxedAmount, taxedCost);
      books := books[Alias(asset) := book];
      var complete := remaining == 0.0;
      if !complete {
        missing := missing + [MissingAcquisition(asset, now, taxedAmount + freeAmount, remaining)];
        taxedAmount := amount - freeAmount;
      }
      info, error := Some(CostBasisInfo(taxedAmount, taxedCost, freeCost, used, complete)), None;
    }

    method ReduceAssetAmount(fiat: bool, asset: Asset, amount: real, now: Timestamp)
      returns (enough: bool, error: Option<Error>)
      modifies this
      ensures settings == old(settings)
      ensures ReduceResult(State(), enough, error) == Reduce(old(State()), settings, fiat, asset, amount, now)
    {
      var b := BookOf(State(), settings, asset);
      if b.lots == [] {
        books := books[Alias(asset) := b];
        return false, None;
      }
      var book, remaining := b, amount;
      ghost var used := [];
      while book.lots != []
        invariant Take(b, amount) == Join(used, Take(book, remaining))
        invariant unchanged(this)
        decreases |book.lots|
      {
        var lot := book.lots[0];
        var part := if remaining < lot.remaining then remaining else lot.remaining;
        var c := ConsumeFirst(book, part);
        if c.error.Some? {
          books := books[Alias(asset) := c.book];
          return false, c.error;
        }
        ghost var before := used;
        used := used + [Use(part, lot)];
        if remaining < lot.remaining {
          book, remaining := c.book, 0.0;
          break;
        }
        JoinTwice(before, Use(part, lot), Take(c.book, remaining - part));
        book, remaining := c.book, remaining - lot.remaining;
      }
      assert Take(b, amount) == Taken(book, used, remaining, None);
      books := books[Alias(asset) := book];
      enough, error := remaining == 0.0, None;
      if !enough && !fiat {
        missing := missing + [MissingAcquisition(asset, now, amount - remaining, remaining)];
      }
    }

    method SpendAsset(fiat: bool, asset: Asset, amount: real, now: Timestamp, taxable: bool)
      returns (info: Option<CostBasisInfo>, error: Option<Error>)
      modifies this
      ensures settings == old(settings)
      ensures SpendResult(State(), info, error) == Spend(old(State()), settings, fiat, asset, amount, now, taxable)
    {
      if !fiat && taxable {
        info, error := CalculateSpendCostBasis(asset, amount, now);
      } else {
        info := None;
        var _, e := ReduceAssetAmount(fiat, asset, amount, now);
        error := e;
      }
    }
  }

  lemma JoinTwice(before: seq<Use>, u: Use, t: Taken)
    ensures Join(before, Join([u], t)) == Join(before + [u], t)
  {
    assert before + ([u] + t.used) == (before + [u]) + t.used;
  }

  // ----- One spend -----

  lemma {:induction false} SelectSplits(us: seq<Use>, period: Option<int>, now: Timestamp, average: Option<real>)
    ensures AmountUsed(Select(us, period, now, true)) + AmountUsed(Select(us, period, now, false)) == AmountUsed(us)
    ensures CostUsed(Select(us, period, now, true), average) + CostUsed(Select(us, period, now, false), average)
            == CostUsed(us, average)
  {
    if us != [] {
      var n := |us| - 1;
      var u := us[n];
      assert us == us[..n] + [u];
      SelectSplits(us[..n], period, now, average);
      SelectAppend(us[..n], u, period, now, true);
      SelectAppend(us[..n], u, period, now, false);
      var free := TaxFree(u.lot, period, now);
      AmountUsedAppend(Select(us[..n], period, now, free), u);
      AmountUsedAppend(us[..n], u);
      CostUsedAppend(Select(us[..n], period, now, free), u, average);
      CostUsedAppend(us[..n], u, average);
    }
  }

  ghost predicate Healthy(b: Book) {
    Sound(b) && Ordered(b.lots) && Numbered(b) && (b.lots == [] ==> Stock(b) == 0.0)
  }

  /** A taxable spend's cost basis: it is complete exactly when the holdings cover the amount, the
      taxable part is the amount minus what was held past the tax-free period, and both bought
      costs together are the cost that left the book. */
  lemma CalculateAccounts(cs: CostState, s: Settings, asset: Asset, amount: real, now: Timestamp)
    requires Healthy(BookOf(cs, s, asset)) && amount > 0.0
    ensures var r := Calculate(cs, s, asset, amount, now);
            var b, b1 := BookOf(cs, s, asset), BookOf(r.state, s, asset);
            && r.error.None? && r.info.Some?
            && r.info.value.complete == (Held(b.lots) >= amount)
            && r.info.value.taxableAmount == amount - AmountUsed(Select(r.info.value.matched, s.period, now, true))
            && r.info.value.taxableCost + r.info.value.taxfreeCost == Stock(b) - Stock(b1)
            && r.state.missing == cs.missing
               + if Held(b.lots) >= amount then []
                 else [MissingAcquisition(asset, now, Held(b.lots), amount - Held(b.lots))]
  {
    hide Take, Select, AmountUsed, CostUsed, Held, Draw;
    var b := BookOf(cs, s, asset);
    HeldNonNegative(b.lots);
    var t := Take(b, amount);
    TakeMissing(b, amount);
    TakeRefinesDraw(b, amount);
    DrawConserves(b.lots, amount);
    TakeStock(b, amount);
    SelectSplits(t.used, s.period, now, AverageCost(b));
    SelectNothing(s.period, now, true);
  }

  lemma SelectNothing(period: Option<int>, now: Timestamp, free: bool)
    ensures AmountUsed(Select([], period, now, free)) == 0.0
  {
  }

  // ----- The tax-free period -----

  /** Amount of the uses of lots acquired before a time. */
  function AmountBefore(us: seq<Use>, cutoff: Timestamp): real {
    if us == [] then 0.0
    else (if us[0].lot.timestamp < cutoff then us[0].amount else 0.0) + AmountBefore(us[1..], cutoff)
  }

  /** Cost of the uses of lots acquired before a time, at the average if one is given. */
  function CostBefore(us: seq<Use>, cutoff: Timestamp, average: Option<real>): real {
    if us == [] then 0.0
    else
      var rate := if average.Some? then average.value else us[0].lot.rate;
      (if us[0].lot.timestamp < cutoff then rate * us[0].amount else 0.0) + CostBefore(us[1..], cutoff, average)
  }

  /** Cost of the other uses. */
  function CostSince(us: seq<Use>, cutoff: Timestamp, average: Option<real>): real {
    if us == [] then 0.0
    else
      var rate := if average.Some? then average.value else us[0].lot.rate;
      (if us[0].lot.timestamp >= cutoff then rate * us[0].amount else 0.0) + CostSince(us[1..], cutoff, average)
  }

  lemma UsedCons(u: Use, us: seq<Use>, average: Option<real>)
    ensures AmountUsed([u] + us) == u.amount + AmountUsed(us)
    ensures CostUsed([u] + us, average)
         == (if average.Some? then average.value else u.lot.rate) * u.amount + CostUsed(us, average)
  {
    assert ([u] + us)[1..] == us;
  }

  lemma {:induction false} SelectByAge(us: seq<Use>, p: int, now: Timestamp, average: Option<real>)
    ensures AmountUsed(Select(us, Some(p), now, true)) == AmountBefore(us, now - p)
    ensures CostUsed(Select(us, Some(p), now, true), average) == CostBefore(us, now - p, average)
    ensures CostUsed(Select(us, Some(p), now, false), average) == CostSince(us, now - p, average)
  {
    hide AmountUsed, CostUsed;
    if us == [] {
      NothingUsed(average);
    }
    if us != [] {
      SelectByAge(us[1..], p, now, average);
      var u, aged := us[0], Select(us[1..], Some(p), now, true);
      var young := Select(us[1..], Some(p), now, false);
      assert [] + aged == aged && [] + young == young;
      if u.lot.timestamp < now - p {
        UsedCons(u, aged, average);
      } else {
        UsedCons(u, young, average);
      }
    }
  }

  lemma {:induction false} SelectWithoutPeriod(us: seq<Use>, now: Timestamp)
    ensures Select(us, None, now, true) == [] && Select(us, None, now, false) == us
  {
    if us != [] {
      SelectWithoutPeriod(us[1..], now);
      assert us == [us[0]] + us[1..];
    }
  }

  lemma {:induction false} AllBefore(us: seq<Use>, cutoff: Timestamp, average: Option<real>)
    requires forall i :: 0 <= i < |us| ==> us[i].lot.timestamp < cutoff
    ensures AmountBefore(us, cutoff) == AmountUsed(us) && CostSince(us, cutoff, average) == 0.0
  {
    if us != [] {
      AllBefore(us[1..], cutoff, average);
    }
  }

  lemma {:induction false} NoneBefore(us: seq<Use>, cutoff: Timestamp, average: Option<real>)
    requires forall i :: 0 <= i < |us| ==> us[i].lot.timestamp >= cutoff
    ensures AmountBefore(us, cutoff) == 0.0 && CostBefore(us, cutoff, average) == 0.0
  {
    if us != [] {
      NoneBefore(us[1..], cutoff, average);
    }
  }

  /** The lots used are those drawn from the front of the book. Uses of lots held longer than the
      period, that is acquired before `now - p`, are free, all others and whatever is missing taxable;
      without a period everything is taxable. */
  lemma CalculateByAge(cs: CostState, s: Settings, asset: Asset, amount: real, now: Timestamp)
    requires Healthy(BookOf(cs, s, asset)) && amount > 0.0
    ensures var info := Calculate(cs, s, asset, amount, now).info;
            var b := BookOf(cs, s, asset);
            && info.Some? && info.value.matched == Draw(b.lots, amount).used
            && match s.period
               case None =>
                 info.value.taxableAmount == amount && info.value.taxfreeCost == 0.0
                 && info.value.taxableCost == CostUsed(info.value.matched, AverageCost(b))
               case Some(p) =>
                 && info.value.taxableAmount == amount - AmountBefore(info.value.matched, now - p)
                 && info.value.taxableCost == CostSince(info.value.matched, now - p, AverageCost(b))
                 && info.value.taxfreeCost == CostBefore(info.value.matched, now - p, AverageCost(b))
  {
    hide Take, Select, AmountUsed, CostUsed, Held, Draw, AmountBefore, CostBefore, CostSince, Healthy;
    var b := BookOf(cs, s, asset);
    CalculateAccounts(cs, s, asset, amount, now);
    HealthyIsSound(b);
    HeldNonNegative(b.lots);
    TakeRefinesDraw(b, amount);
    CalculateInfo(cs, s, asset, amount, now);
    var us := Draw(b.lots, amount).used;
    match s.period
    case None =>
      SelectWithoutPeriod(us, now);
      NothingUsed(AverageCost(b));
    case Some(p) => SelectByAge(us, p, now, AverageCost(b));
  }

  lemma HealthyIsSound(b: Book)
    requires Healthy(b)
    ensures Sound(b)
  {
  }

  lemma NothingUsed(average: Option<real>)
    ensures AmountUsed([]) == 0.0 && CostUsed([], average) == 0.0
  {
  }

  /** On a healthy book also the shortcut for an empty average-cost book agrees with the general case. */
  lemma CalculateInfo(cs: CostState, s: Settings, asset: Asset, amount: real, now: Timestamp)
    requires Healthy(BookOf(cs, s, asset)) && amount > 0.0
    ensures var info := Calculate(cs, s, asset, amount, now).info;
            var b := BookOf(cs, s, asset);
            var used := Take(b, amount).used;
            && info.Some? && info.value.matched == used
            && info.value.taxableCost == CostUsed(Select(used, s.period, now, false), AverageCost(b))
            && info.value.taxfreeCost == CostUsed(Select(used, s.period, now, true), AverageCost(b))
  {
    hide Take, Held, Draw;
    var b := BookOf(cs, s, asset);
    HeldNonNegative(b.lots);
    TakeRefinesDraw(b, amount);
    if b.lots == [] {
      TakeEmpty(b, amount);
    }
  }

  /** If every lot held is past the period, only what the holdings do not cover is taxable, at no cost;
      if none is, nothing is free. */
  lemma CalculateUniformAge(cs: CostState, s: Settings, asset: Asset, amount: real, now: Timestamp, p: int)
    requires Healthy(BookOf(cs, s, asset)) && amount > 0.0 && s.period == Some(p)
    ensures var info := Calculate(cs, s, asset, amount, now).info;
            var lots := BookOf(cs, s, asset).lots;
            && info.Some?
            && ((forall i :: 0 <= i < |lots| ==> lots[i].timestamp + p < now) ==>
                  && info.value.taxableAmount == (if Held(lots) < amount then amount - Held(lots) else 0.0)
                  && info.value.taxableCost == 0.0)
            && ((forall i :: 0 <= i < |lots| ==> lots[i].timestamp + p >= now) ==>
                  info.value.taxableAmount == amount && info.value.taxfreeCost == 0.0)
  {
    hide Take, Select, AmountUsed, CostUsed, Held, Draw, AmountBefore, CostBefore, CostSince, Healthy, Calculate;
    var b := BookOf(cs, s, asset);
    CalculateByAge(cs, s, asset, amount, now);
    HealthyIsSound(b);
    TakeMissing(b, amount);
    TakeRefinesDraw(b, amount);
    DrawConserves(b.lots, amount);
    var us := Draw(b.lots, amount).used;
    forall i | 0 <= i < |us| ensures i < |b.lots| && us[i].lot == b.lots[i] {
      DrawUsesPrefix(b.lots, amount, i);
    }
    if forall i :: 0 <= i < |b.lots| ==> b.lots[i].timestamp + p < now {
      AllBefore(us, now - p, AverageCost(b));
    }
    if forall i :: 0 <= i < |b.lots| ==> b.lots[i].timestamp + p >= now {
      NoneBefore(us, now - p, AverageCost(b));
    }
  }

  /** Reducing without counting anything uses up the very same lots as a taxable spend does; it
      answers true exactly when there are lots and they suffice. A shortfall is reported unless the
      asset is fiat or nothing at all is held. */
  lemma ReduceLikeCalculate(cs: CostState, s: Settings, fiat: bool, asset: Asset, amount: real, now: Timestamp)
    requires Healthy(BookOf(cs, s, asset)) && amount > 0.0
    ensures var r, c := Reduce(cs, s, fiat, asset, amount, now), Calculate(cs, s, asset, amount, now);
            && r.state.books == c.state.books && r.error == c.error
            && r.enough == (Held(BookOf(cs, s, asset).lots) >= amount)
            && r.state.missing == cs.missing
               + var held := Held(BookOf(cs, s, asset).lots);
                 if fiat || held == 0.0 || held >= amount then []
                 else [MissingAcquisition(asset, now, held, amount - held)]
  {
    hide Take, Held, Draw;
    var b := BookOf(cs, s, asset);
    HeldNonNegative(b.lots);
    TakeMissing(b, amount);
    TakeRefinesDraw(b, amount);
    if b.lots == [] {
      TakeEmpty(b, amount);
    }
  }

  lemma TakeEmpty(b: Book, amount: real)
    requires b.lots == []
    ensures Take(b, amount) == Taken(b, [], amount, None)
  {
  }

  /** A spend has a cost basis exactly if it is taxable and the asset is not fiat. */
  lemma SpendInfoIff(cs: CostState, s: Settings, fiat: bool, asset: Asset, amount: real, now: Timestamp, taxable: bool)
    requires Healthy(BookOf(cs, s, asset)) && amount > 0.0
    ensures var r := Spend(cs, s, fiat, asset, amount, now, taxable);
            && r.error.None?
            && (r.info.Some? <==> taxable && !fiat)
            && (taxable && !fiat ==> r == Calculate(cs, s, asset, amount, now))
  {
    hide Calculate, Reduce, Healthy;
    CalculateAccounts(cs, s, asset, amount, now);
    ReduceLikeCalculate(cs, s, fiat, asset, amount, now);
  }

  /** Two assets share a book exactly if they are the same or are ETH and wrapped ETH. */
  lemma ShareBookIff(a: Asset, b: Asset)
    ensures Alias(a) == Alias(b) <==> a == b || (a == A_ETH && b == A_WETH) || (a == A_WETH && b == A_ETH)
  {
  }

  // ----- Whole runs -----

  datatype Op =
    | Got(asset: Asset, amount: real, time: Timestamp, rate: real, index: int)
    | Gone(asset: Asset, amount: real, time: Timestamp, fiat: bool, taxable: bool)

  function Apply(cs: CostState, s: Settings, op: Op): SpendResult {
    match op
    case Got(asset, amount, time, rate, index) =>
      SpendResult(Obtain(cs, s, asset, amount, time, rate, index), None, None)
    case Gone(asset, amount, time, fiat, taxable) => Spend(cs, s, fiat, asset, amount, time, taxable)
  }

  /** The state after a run; a raised error stops it. */
  function Run(cs: CostState, s: Settings, ops: seq<Op>): SpendResult
    decreases |ops|
  {
    if ops == [] then SpendResult(cs, None, None)
    else
      var r := Apply(cs, s, ops[0]);
      if r.error.Some? then r else Run(r.state, s, ops[1..])
  }

  ghost predicate AllHealthy(cs: CostState, s: Settings) {
    forall asset: Asset :: Healthy(BookOf(cs, s, asset))
  }

  datatype Tally = Tally(amount: real, cost: real)

  function Plus(a: Tally, b: Tally): Tally {
    Tally(a.amount + b.amount, a.cost + b.cost)
  }

  /** Amount and cost of what an operation brings in for an asset. */
  function Inflow(op: Op, asset: Asset): Tally {
    if op.Got? && Alias(op.asset) == Alias(asset) then Tally(op.amount, op.amount * op.rate) else Tally(0.0, 0.0)
  }

  /** Amount and cost of the lots an operation uses up for an asset. */
  function Outflow(cs: CostState, s: Settings, op: Op, asset: Asset): Tally {
    if op.Gone? && Alias(op.asset) == Alias(asset) then
      var b := BookOf(cs, s, asset);
      var used := Take(b, op.amount).used;
      Tally(AmountUsed(used), CostUsed(used, AverageCost(b)))
    else Tally(0.0, 0.0)
  }

  function Inflows(ops: seq<Op>, asset: Asset): Tally {
    if ops == [] then Tally(0.0, 0.0) else Plus(Inflow(ops[0], asset), Inflows(ops[1..], asset))
  }

  function Outflows(cs: CostState, s: Settings, ops: seq<Op>, asset: Asset): Tally
    decreases |ops|
  {
    if ops == [] then Tally(0.0, 0.0)
    else Plus(Outflow(cs, s, ops[0], asset), Outflows(Apply(cs, s, ops[0]).state, s, ops[1..], asset))
  }

  function Holding(cs: CostState, s: Settings, asset: Asset): Tally {
    Tally(Held(BookOf(cs, s, asset).lots), Stock(BookOf(cs, s, asset)))
  }

  /** What a spend, counted or not, does to the books. */
  lemma SpendBooks(cs: CostState, s: Settings, fiat: bool, asset: Asset, amount: real, now: Timestamp, taxable: bool)
    requires Healthy(BookOf(cs, s, asset)) && amount > 0.0
    ensures var r := Spend(cs, s, fiat, asset, amount, now, taxable);
            && r.error.None?
            && r.state.books == cs.books[Alias(asset) := Take(BookOf(cs, s, asset), amount).book]
  {
    hide Take, Held, Draw;
    ReduceLikeCalculate(cs, s, fiat, asset, amount, now);
    var b := BookOf(cs, s, asset);
    HeldNonNegative(b.lots);
    TakeRefinesDraw(b, amount);
    if b.lots == [] {
      TakeEmpty(b, amount);
    }
  }

  lemma AddLotHealthy(b: Book, amount: real, time: Timestamp, rate: real, index: int)
    requires Healthy(b) && amount > 0.0
    ensures var b1 := AddLot(b, amount, time, rate, index);
            && Healthy(b1)
            && Held(b1.lots) == Held(b.lots) + amount
            && Stock(b1) == Stock(b) + amount * rate
  {
    hide Held, AddLot, Stock, Ordered, Numbered;
    AddLotConserves(b, amount, time, rate, index);
    AddLotPosition(b, amount, time, rate, index);
    HeldNonNegative(b.lots);
    HeldNonNegative(AddLot(b, amount, time, rate, index).lots);
  }

  lemma GotConserves(cs: CostState, s: Settings, op: Op, asset: Asset)
    requires AllHealthy(cs, s) && op.Got? && op.amount > 0.0
    ensures var cs1 := Apply(cs, s, op).state;
            && AllHealthy(cs1, s)
            && Holding(cs1, s, asset) == Plus(Holding(cs, s, asset), Inflow(op, asset))
  {
    hide Healthy, Held, AddLot, Stock;
    var b := BookOf(cs, s, op.asset);
    var b1 := AddLot(b, op.amount, op.time, op.rate, op.index);
    AddLotHealthy(b, op.amount, op.time, op.rate, op.index);
    OneBookChanges(cs, s, op.asset, b1, Apply(cs, s, op).state);
  }

  lemma GoneConserves(cs: CostState, s: Settings, op: Op, asset: Asset)
    requires AllHealthy(cs, s) && op.Gone? && op.amount > 0.0
    ensures var r := Apply(cs, s, op);
            && r.error.None? && AllHealthy(r.state, s)
            && Plus(Holding(r.state, s, asset), Outflow(cs, s, op, asset)) == Holding(cs, s, asset)
  {
    hide Take, Held, Draw, Stock, AmountUsed, CostUsed, Ordered, Numbered, AverageCost, Spend;
    var b := BookOf(cs, s, op.asset);
    assert Healthy(b);
    TakeHealthy(b, op.amount);
    SpendBooks(cs, s, op.fiat, op.asset, op.amount, op.time, op.taxable);
    OneBookChanges(cs, s, op.asset, Take(b, op.amount).book, Apply(cs, s, op).state);
  }

  lemma TakeHealthy(b: Book, amount: real)
    requires Healthy(b) && amount > 0.0
    ensures var t := Take(b, amount);
            && Healthy(t.book)
            && Held(t.book.lots) + AmountUsed(t.used) == Held(b.lots)
            && Stock(t.book) + CostUsed(t.used, AverageCost(b)) == Stock(b)
  {
    hide Take, Held, Draw, Stock, AmountUsed, CostUsed, Ordered, Numbered, AverageCost;
    TakeRefinesDraw(b, amount);
    DrawConserves(b.lots, amount);
    TakeStock(b, amount);
    TakeKeepsOrder(b, amount);
  }

  lemma ApplyConserves(cs: CostState, s: Settings, op: Op, asset: Asset)
    requires AllHealthy(cs, s) && op.amount > 0.0
    ensures var r := Apply(cs, s, op);
            && r.error.None? && AllHealthy(r.state, s)
            && Plus(Holding(r.state, s, asset), Outflow(cs, s, op, asset))
               == Plus(Holding(cs, s, asset), Inflow(op, asset))
  {
    hide Holding, AllHealthy, Spend, Obtain;
    if op.Got? {
      GotConserves(cs, s, op, asset);
    } else {
      GoneConserves(cs, s, op, asset);
    }
  }

  lemma OneBookChanges(cs: CostState, s: Settings, asset: Asset, b: Book, cs1: CostState)
    requires AllHealthy(cs, s) && Healthy(b)
    requires cs1.books == cs.books[Alias(asset) := b]
    ensures AllHealthy(cs1, s)
    ensures forall a: Asset :: BookOf(cs1, s, a) == if Alias(a) == Alias(asset) then b else BookOf(cs, s, a)
  {
    forall a: Asset ensures BookOf(cs1, s, a) == if Alias(a) == Alias(asset) then b else BookOf(cs, s, a) {
    }
    assert forall a: Asset :: Healthy(BookOf(cs, s, a));
  }

  /** Conservation over whole runs. From an empty history, whatever the order of acquisitions and
      spends of positive amounts and whatever the policy, no check ever fails, and for every asset
      amount and cost acquired equal amount and cost still held plus amount and cost used up. */
  lemma {:induction false} RunConserves(cs: CostState, s: Settings, ops: seq<Op>, asset: Asset)
    requires AllHealthy(cs, s)
    requires forall i :: 0 <= i < |ops| ==> ops[i].amount > 0.0
    ensures var r := Run(cs, s, ops);
            && r.error.None? && AllHealthy(r.state, s)
            && Plus(Holding(r.state, s, asset), Outflows(cs, s, ops, asset))
               == Plus(Holding(cs, s, asset), Inflows(ops, asset))
    decreases |ops|
  {
    hide Apply, Holding, Outflow, Inflow;
    if ops != [] {
      ApplyConserves(cs, s, ops[0], asset);
      RunConserves(Apply(cs, s, ops[0]).state, s, ops[1..], asset);
    }
  }

  /** `get_calculated_asset_amount` after a run from scratch: acquired minus used, or none. */
  function CalculatedAmount(cs: CostState, s: Settings, asset: Asset): Option<real> {
    var held := Held(BookOf(cs, s, asset).lots);
    if held == 0.0 then None else Some(held)
  }

  lemma CalculatedAmountAfterRun(s: Settings, ops: seq<Op>, asset: Asset)
    requires forall i :: 0 <= i < |ops| ==> ops[i].amount > 0.0
    ensures var net := Inflows(ops, asset).amount - Outflows(NO_HISTORY, s, ops, asset).amount;
            && net >= 0.0
            && CalculatedAmount(Run(NO_HISTORY, s, ops).state, s, asset) == if net == 0.0 then None else Some(net)
  {
    hide Run, Outflows, Inflows;
    assert Healthy(EmptyBook(s.policy));
    assert AllHealthy(NO_HISTORY, s);
    RunConserves(NO_HISTORY, s, ops, asset);
    var cs := Run(NO_HISTORY, s, ops).state;
    assert Healthy(BookOf(cs, s, asset));
    HeldNonNegative(BookOf(cs, s, asset).lots);
  }
}
