/** Cost basis bookkeeping for one asset: a priority queue of acquisitions (lots) that spends
    use up from the front, under the FIFO, LIFO, HIFO and average-cost (ACB) methods.
    Amounts are exact reals. The heap is kept as the sequence in which it would be popped. */
module CostBasis {
  import opened Common

  datatype Policy = Fifo | Lifo | Hifo | Acb

  datatype Lot = Lot(acquired: real, remaining: real, timestamp: Timestamp, rate: real, index: int,
                     priority: real)

  /** `amount` and `acb` are maintained by the average-cost method only. */
  datatype Book = Book(policy: Policy, lots: seq<Lot>, count: int, amount: real, acb: real)

  /** A part of a lot used by a spend. */
  datatype Use = Use(amount: real, lot: Lot)

  datatype Consumed = Consumed(book: Book, error: Option<Error>)

  datatype Taken = Taken(book: Book, used: seq<Use>, missing: real, error: Option<Error>)

  datatype CostBasisInfo = CostBasisInfo(taxableAmount: real, taxableCost: real, taxfreeCost: real,
                                         matched: seq<Use>, complete: bool)

  function EmptyBook(m: Policy): Book {
    Book(m, [], 0, 0.0, 0.0)
  }

  // ----- The priority queue -----

  /** Heap elements compare by priority, then by the acquisition's timestamp. */
  predicate Before(a: Lot, b: Lot) {
    a.priority < b.priority || (a.priority == b.priority && a.timestamp < b.timestamp)
  }

  function Insert(lots: seq<Lot>, lot: Lot): seq<Lot> {
    if lots == [] || Before(lot, lots[0]) then [lot] + lots
    else [lots[0]] + Insert(lots[1..], lot)
  }

  function Priority(b: Book, rate: real): real {
    match b.policy
    case Fifo => b.count as real
    case Lifo => -(b.count as real)
    case Hifo => -rate
    case Acb => b.count as real
  }

  /** Adds an acquisition, as the `add_in_event` of each method does. */
  function AddLot(b: Book, amount: real, timestamp: Timestamp, rate: real, index: int): Book {
    var lot := Lot(amount, amount, timestamp, rate, index, Priority(b, rate));
    Book(b.policy, Insert(b.lots, lot), b.count + 1,
         if b.policy.Acb? then b.amount + amount else b.amount,
         if b.policy.Acb? then b.acb + amount * rate else b.acb)
  }

  // ----- Consuming lots -----

  /** `consume_result`: uses part of the first lot and drops it once nothing remains. The
      average-cost totals change before the interval assertion is evaluated. */
  function ConsumeFirst(b: Book, used: real): Consumed
    requires b.lots != []
  {
    if b.policy.Acb? && b.amount == 0.0 then Consumed(b, Some(AccountingError))
    else
      var b1 := if b.policy.Acb?
                then b.(acb := b.acb * ((b.amount - used) / b.amount), amount := b.amount - used)
                else b;
      var lot := b.lots[0];
      if !(0.0 <= used <= lot.remaining) then Consumed(b1, Some(AssertionError))
      else if lot.remaining - used == 0.0 then Consumed(b1.(lots := b.lots[1..]), None)
      else Consumed(b1.(lots := [Reduced(lot, used)] + b.lots[1..]), None)
  }

  function Join(before: seq<Use>, t: Taken): Taken {
    t.(used := before + t.used)
  }

  /** What spending `amount` does to a book: lots are used up in order until the amount is
      covered, the lots run out, or a check fails. */
  function Take(b: Book, amount: real): Taken
    decreases |b.lots|
  {
    if b.lots == [] then Taken(b, [], amount, None)
    else
      var lot := b.lots[0];
      if amount < lot.remaining then
        var c := ConsumeFirst(b, amount);
        if c.error.Some? then Taken(c.book, [], amount, c.error)
        else Taken(c.book, [Use(amount, lot)], 0.0, None)
      else
        var c := ConsumeFirst(b, lot.remaining);
        if c.error.Some? then Taken(c.book, [], amount, c.error)
        else Join([Use(lot.remaining, lot)], Take(c.book, amount - lot.remaining))
  }

  datatype Drawn = Drawn(lots: seq<Lot>, used: seq<Use>, missing: real)

  /** Drawing an amount from a queue of positive lots, without totals or checks: the reference
      that `Take` is compared with. */
  function Draw(lots: seq<Lot>, amount: real): Drawn {
    if lots == [] then Drawn([], [], amount)
    else if amount < lots[0].remaining then
      Drawn([Reduced(lots[0], amount)] + lots[1..], [Use(amount, lots[0])], 0.0)
    else
      var rest := Draw(lots[1..], amount - lots[0].remaining);
      Drawn(rest.lots, [Use(lots[0].remaining, lots[0])] + rest.used, rest.missing)
  }

  function Reduced(lot: Lot, used: real): Lot {
    lot.(remaining := lot.remaining - used)
  }

  // ----- Sums -----

  function Held(lots: seq<Lot>): real {
    if lots == [] then 0.0 else lots[0].remaining + Held(lots[1..])
  }

  function Worth(lots: seq<Lot>): real {
    if lots == [] then 0.0 else lots[0].remaining * lots[0].rate + Worth(lots[1..])
  }

  function AmountUsed(us: seq<Use>): real {
    if us == [] then 0.0 else us[0].amount + AmountUsed(us[1..])
  }

  /** Cost of the used parts, at the average cost when one is given, else at each lot's rate. */
  function CostUsed(us: seq<Use>, average: Option<real>): real {
    if us == [] then 0.0
    else (if average.Some? then average.value else us[0].lot.rate) * us[0].amount
         + CostUsed(us[1..], average)
  }

  /** Whether the lot is held longer than the tax-free period when spent at `now`. */
  predicate TaxFree(lot: Lot, period: Option<int>, now: Timestamp) {
    period.Some? && lot.timestamp + period.value < now
  }

  function Select(us: seq<Use>, period: Option<int>, now: Timestamp, free: bool): seq<Use> {
    if us == [] then []
    else (if TaxFree(us[0].lot, period, now) == free then [us[0]] else [])
         + Select(us[1..], period, now, free)
  }

  function AverageCost(b: Book): Option<real> {
    if b.policy.Acb? && b.amount != 0.0 then Some(b.acb / b.amount) else None
  }

  /** The total cost of what a book still holds. */
  function Stock(b: Book): real {
    if b.policy.Acb? then b.acb else Worth(b.lots)
  }

  // ----- Invariant -----

  /** Books fed with positive amounts only. */
  ghost predicate Sound(b: Book) {
    && Positive(b.lots)
    && (b.policy.Acb? ==> b.amount == Held(b.lots))
  }

  ghost predicate Positive(lots: seq<Lot>) {
    forall i :: 0 <= i < |lots| ==> lots[i].remaining > 0.0
  }

  ghost predicate Ordered(lots: seq<Lot>) {
    forall i, j :: 0 <= i < j < |lots| ==> !Before(lots[j], lots[i])
  }

  lemma {:induction false} HeldNonNegative(lots: seq<Lot>)
    requires Positive(lots)
    ensures Held(lots) >= 0.0
    ensures lots != [] ==> Held(lots) >= lots[0].remaining
    ensures Held(lots) == 0.0 <==> lots == []
  {
    if lots != [] {
      HeldNonNegative(lots[1..]);
    }
  }

  // ----- Adding lots -----

  lemma {:induction false} InsertHeld(lots: seq<Lot>, lot: Lot)
    ensures Held(Insert(lots, lot)) == Held(lots) + lot.remaining
  {
    if lots == [] || Before(lot, lots[0]) {
      assert ([lot] + lots)[1..] == lots;
    } else {
      InsertHeld(lots[1..], lot);
      assert Insert(lots, lot)[1..] == Insert(lots[1..], lot);
    }
  }

  lemma {:induction false} InsertWorth(lots: seq<Lot>, lot: Lot)
    ensures Worth(Insert(lots, lot)) == Worth(lots) + lot.remaining * lot.rate
  {
    if lots == [] || Before(lot, lots[0]) {
      assert ([lot] + lots)[1..] == lots;
    } else {
      InsertWorth(lots[1..], lot);
      assert Insert(lots, lot)[1..] == Insert(lots[1..], lot);
    }
  }

  lemma {:induction false} InsertMembers(lots: seq<Lot>, lot: Lot)
    ensures forall x :: x in Insert(lots, lot) <==> x == lot || x in lots
  {
    if lots != [] && !Before(lot, lots[0]) {
      InsertMembers(lots[1..], lot);
      assert lots == [lots[0]] + lots[1..];
    }
  }

  lemma {:induction false} InsertOrdered(lots: seq<Lot>, lot: Lot)
    requires Ordered(lots)
    ensures Ordered(Insert(lots, lot))
  {
    if lots != [] && !Before(lot, lots[0]) {
      var rest := Insert(lots[1..], lot);
      InsertOrdered(lots[1..], lot);
      InsertMembers(lots[1..], lot);
      forall j | 0 <= j < |rest| ensures !Before(rest[j], lots[0]) {
        assert rest[j] in rest;
      }
    }
  }

  lemma InsertPositive(lots: seq<Lot>, lot: Lot)
    requires Positive(lots) && lot.remaining > 0.0
    ensures Positive(Insert(lots, lot))
  {
    InsertMembers(lots, lot);
    var all := Insert(lots, lot);
    forall i | 0 <= i < |all| ensures all[i].remaining > 0.0 {
      assert all[i] in all;
    }
  }

  /** A new acquisition keeps the invariant and adds its amount and cost to the totals. */
  lemma AddLotConserves(b: Book, amount: real, timestamp: Timestamp, rate: real, index: int)
    requires Sound(b) && amount > 0.0
    ensures var b1 := AddLot(b, amount, timestamp, rate, index);
            && Sound(b1)
            && Held(b1.lots) == Held(b.lots) + amount
            && Stock(b1) == Stock(b) + amount * rate
  {
    var lot := Lot(amount, amount, timestamp, rate, index, Priority(b, rate));
    InsertHeld(b.lots, lot);
    InsertWorth(b.lots, lot);
    InsertPositive(b.lots, lot);
  }

  /** How the lots of a queue are numbered by their policy: increasing for FIFO and ACB, falling
      for LIFO, by negated rate for HIFO. */
  ghost predicate Numbered(b: Book) {
    forall i :: 0 <= i < |b.lots| ==> HasNumber(b.lots[i], b.policy, b.count)
  }

  ghost predicate HasNumber(lot: Lot, policy: Policy, count: int) {
    match policy
    case Fifo => lot.priority < count as real
    case Acb => lot.priority < count as real
    case Lifo => lot.priority > -(count as real)
    case Hifo => lot.priority == -lot.rate
  }

  /** FIFO and ACB queue a new lot last and LIFO puts it first; every policy keeps the queue
      ordered and numbered. */
  lemma AddLotPosition(b: Book, amount: real, timestamp: Timestamp, rate: real, index: int)
    requires Numbered(b) && Ordered(b.lots)
    ensures var b1 := AddLot(b, amount, timestamp, rate, index);
            var lot := Lot(amount, amount, timestamp, rate, index, Priority(b, rate));
            && Numbered(b1) && Ordered(b1.lots)
            && (forall x :: x in b1.lots <==> x == lot || x in b.lots)
            && (b.policy.Fifo? || b.policy.Acb? ==> b1.lots == b.lots + [lot])
            && (b.policy.Lifo? ==> b1.lots == [lot] + b.lots)
  {
    var lot := Lot(amount, amount, timestamp, rate, index, Priority(b, rate));
    InsertOrdered(b.lots, lot);
    InsertMembers(b.lots, lot);
    var all := Insert(b.lots, lot);
    assert forall i :: 0 <= i < |all| ==> all[i] in all;
    if b.policy.Fifo? || b.policy.Acb? {
      InsertLast(b.lots, lot);
    }
  }

  lemma {:induction false} InsertLast(lots: seq<Lot>, lot: Lot)
    requires forall i :: 0 <= i < |lots| ==> lots[i].priority < lot.priority
    ensures Insert(lots, lot) == lots + [lot]
  {
    if lots != [] {
      InsertLast(lots[1..], lot);
      assert lots == [lots[0]] + lots[1..];
    }
  }

  // ----- Spending -----

  lemma ConsumeWhole(b: Book)
    requires b.lots != []
    ensures var c := ConsumeFirst(b, b.lots[0].remaining);
            c.error.None? ==> c.book.lots == b.lots[1..]
  {
  }

  lemma ConsumeFirstSound(b: Book, used: real)
    requires Sound(b) && b.lots != [] && 0.0 <= used <= b.lots[0].remaining
    ensures var c := ConsumeFirst(b, used);
            && c.error.None? && Sound(c.book) && c.book.policy == b.policy && c.book.count == b.count
            && c.book.lots == if used == b.lots[0].remaining then b.lots[1..]
                              else [Reduced(b.lots[0], used)] + b.lots[1..]
  {
    HeldNonNegative(b.lots);
    var partial := [Reduced(b.lots[0], used)] + b.lots[1..];
    assert partial[1..] == b.lots[1..];
  }

  lemma FirstPositive(b: Book)
    requires Sound(b) && b.lots != []
    ensures b.lots[0].remaining > 0.0
  {
  }

  /** On sound books the checked, total-keeping `Take` draws exactly as `Draw` does: neither the
      interval assertion nor the average-cost guard can fail, and the invariant is kept. */
  lemma {:induction false} TakeRefinesDraw(b: Book, amount: real)
    requires Sound(b) && amount >= 0.0
    ensures var t := Take(b, amount); var d := Draw(b.lots, amount);
            && t.error.None? && Sound(t.book) && t.book.policy == b.policy && t.book.count == b.count
            && t.book.lots == d.lots && t.used == d.used && t.missing == d.missing
    decreases |b.lots|
  {
    hide ConsumeFirst, Sound;
    if b.lots != [] {
      var lot := b.lots[0];
      FirstPositive(b);
      if amount < lot.remaining {
        ConsumeFirstSound(b, amount);
      } else {
        ConsumeFirstSound(b, lot.remaining);
        TakeRefinesDraw(ConsumeFirst(b, lot.remaining).book, amount - lot.remaining);
      }
    }
  }

  lemma AmountUsedCons(u: Use, us: seq<Use>)
    ensures AmountUsed([u] + us) == u.amount + AmountUsed(us)
  {
    assert ([u] + us)[1..] == us;
  }

  lemma CostUsedCons(u: Use, us: seq<Use>)
    ensures CostUsed([u] + us, None) == u.lot.rate * u.amount + CostUsed(us, None)
  {
    assert ([u] + us)[1..] == us;
  }

  lemma HeldCons(lot: Lot, lots: seq<Lot>)
    ensures Held([lot] + lots) == lot.remaining + Held(lots)
    ensures Worth([lot] + lots) == lot.remaining * lot.rate + Worth(lots)
  {
    assert ([lot] + lots)[1..] == lots;
  }

  /** Conservation for a single spend: nothing is used that was not held, everything spent is
      either used or reported missing, and something is missing only when nothing is left. */
  lemma {:induction false} DrawConserves(lots: seq<Lot>, amount: real)
    requires Positive(lots) && amount >= 0.0
    ensures var d := Draw(lots, amount);
            && AmountUsed(d.used) + d.missing == amount
            && Held(d.lots) + AmountUsed(d.used) == Held(lots)
            && d.missing >= 0.0
            && (d.missing > 0.0 ==> d.lots == [])
  {
    if lots != [] {
      var lot := lots[0];
      if amount < lot.remaining {
        AmountUsedCons(Use(amount, lot), []);
        HeldCons(Reduced(lot, amount), lots[1..]);
      } else {
        DrawConserves(lots[1..], amount - lot.remaining);
        AmountUsedCons(Use(lot.remaining, lot), Draw(lots[1..], amount - lot.remaining).used);
      }
    }
  }

  /** A spend is fully covered exactly when the holdings suffice; otherwise all of them go. */
  lemma TakeMissing(b: Book, amount: real)
    requires Sound(b) && amount >= 0.0
    ensures Take(b, amount).missing ==
            if Held(b.lots) < amount then amount - Held(b.lots) else 0.0
  {
    TakeRefinesDraw(b, amount);
    DrawConserves(b.lots, amount);
    HeldNonNegative(Take(b, amount).book.lots);
  }

  lemma SplitProduct(whole: real, part: real, rate: real)
    ensures (whole - part) * rate + rate * part == whole * rate
  {
  }

  /** FIFO, LIFO, HIFO: the cost leaving the queue is the cost charged to the spend. */
  lemma {:induction false} DrawWorth(lots: seq<Lot>, amount: real)
    requires Positive(lots) && amount >= 0.0
    ensures var d := Draw(lots, amount);
            Worth(d.lots) + CostUsed(d.used, None) == Worth(lots)
  {
    if lots != [] {
      var lot := lots[0];
      if amount < lot.remaining {
        CostUsedCons(Use(amount, lot), []);
        HeldCons(Reduced(lot, amount), lots[1..]);
        SplitProduct(lot.remaining, amount, lot.rate);
      } else {
        DrawWorth(lots[1..], amount - lot.remaining);
        CostUsedCons(Use(lot.remaining, lot), Draw(lots[1..], amount - lot.remaining).used);
      }
    }
  }

  lemma ScaleAverage(amount: real, used: real, average: real)
    requires amount != 0.0
    ensures (average * amount) * ((amount - used) / amount) == average * (amount - used)
  {
    var q := (amount - used) / amount;
    assert amount * q == amount - used;
    assert (average * amount) * q == average * (amount * q);
  }

  lemma ConsumeKeepsAverage(b: Book, used: real, average: real)
    requires b.policy.Acb? && b.lots != [] && b.amount != 0.0 && b.acb == average * b.amount
    ensures var c := ConsumeFirst(b, used);
            c.book.acb == average * c.book.amount
  {
    ScaleAverage(b.amount, used, average);
  }

  /** ACB: a spend never moves the average cost. */
  lemma {:induction false} TakeKeepsAverage(b: Book, amount: real, average: real)
    requires Sound(b) && b.policy.Acb? && amount >= 0.0
    requires b.acb == average * b.amount
    ensures var t := Take(b, amount);
            t.book.acb == average * t.book.amount
    decreases |b.lots|
  {
    hide ConsumeFirst;
    if b.lots != [] {
      var lot := b.lots[0];
      var used := if amount < lot.remaining then amount else lot.remaining;
      HeldNonNegative(b.lots);
      ConsumeFirstSound(b, used);
      ConsumeKeepsAverage(b, used, average);
      if amount >= lot.remaining {
        TakeKeepsAverage(ConsumeFirst(b, used).book, amount - used, average);
      }
    }
  }

  lemma {:induction false} CostAtAverage(us: seq<Use>, average: real)
    ensures CostUsed(us, Some(average)) == average * AmountUsed(us)
  {
    if us != [] {
      CostAtAverage(us[1..], average);
      assert average * AmountUsed(us) == average * us[0].amount + average * AmountUsed(us[1..]);
    }
  }

  lemma Quotient(total: real, amount: real)
    requires amount != 0.0
    ensures total == (total / amount) * amount
  {
  }

  lemma SplitAverage(average: real, rest: real, used: real, whole: real)
    requires rest + used == whole
    ensures average * rest + average * used == average * whole
    ensures rest == 0.0 ==> average * rest == 0.0
  {
  }

  lemma AcbStock(b: Book, amount: real)
    requires Sound(b) && b.policy.Acb? && b.lots != [] && amount >= 0.0
    ensures var t := Take(b, amount);
            && t.book.acb + CostUsed(t.used, AverageCost(b)) == b.acb
            && (t.book.lots == [] ==> t.book.acb == 0.0)
  {
    hide Take, CostUsed, AmountUsed, Held, Draw;
    var t := Take(b, amount);
    HeldNonNegative(b.lots);
    var average := AverageCost(b).value;
    Quotient(b.acb, b.amount);
    TakeKeepsAverage(b, amount, average);
    CostAtAverage(t.used, average);
    TakeRefinesDraw(b, amount);
    DrawConserves(b.lots, amount);
    HeldNonNegative(t.book.lots);
    SplitAverage(average, t.book.amount, AmountUsed(t.used), b.amount);
  }

  /** Cost conservation under every policy: what the book loses is what the spend is charged. */
  lemma TakeStock(b: Book, amount: real)
    requires Sound(b) && amount >= 0.0
    requires b.lots == [] ==> Stock(b) == 0.0
    ensures var t := Take(b, amount);
            && Stock(t.book) + CostUsed(t.used, AverageCost(b)) == Stock(b)
            && (t.book.lots == [] ==> Stock(t.book) == 0.0)
  {
    if b.lots != [] {
      TakeRefinesDraw(b, amount);
      if b.policy.Acb? {
        AcbStock(b, amount);
      } else {
        DrawWorth(b.lots, amount);
      }
    }
  }

  // ----- Which lots are used -----

  /** The queue is drawn from the front: the `i`-th use is of the `i`-th lot, entirely unless it is
      the last use. */
  lemma {:induction false} DrawUsesPrefix(lots: seq<Lot>, amount: real, i: nat)
    requires Positive(lots) && amount >= 0.0 && i < |Draw(lots, amount).used|
    ensures var d := Draw(lots, amount);
            && i < |lots| && d.used[i].lot == lots[i] && 0.0 <= d.used[i].amount <= lots[i].remaining
            && (i < |d.used| - 1 ==> d.used[i].amount == lots[i].remaining)
  {
    if amount >= lots[0].remaining && i > 0 {
      DrawUsesPrefix(lots[1..], amount - lots[0].remaining, i - 1);
    }
  }

  /** What is left is a suffix of the queue, its first lot perhaps shortened. */
  lemma {:induction false} DrawLeavesSuffix(lots: seq<Lot>, amount: real) returns (k: nat)
    requires Positive(lots) && amount >= 0.0
    ensures var d := Draw(lots, amount);
            && k <= |lots| && |d.used| <= k + 1 && |d.lots| == |lots| - k
            && (d.lots != [] ==>
                  && d.lots[1..] == lots[k + 1..]
                  && d.lots[0] == Reduced(lots[k], lots[k].remaining - d.lots[0].remaining))
  {
    if lots == [] || amount < lots[0].remaining {
      k := 0;
    } else {
      k := DrawLeavesSuffix(lots[1..], amount - lots[0].remaining);
      assert lots[1..][k + if k < |lots[1..]| then 1 else 0..] == lots[k + 1 + if k < |lots[1..]| then 1 else 0..];
      k := k + 1;
    }
  }

  /** Spending keeps the queue ordered and numbered, whatever the policy. */
  lemma TakeKeepsOrder(b: Book, amount: real)
    requires Sound(b) && amount >= 0.0 && Ordered(b.lots) && Numbered(b)
    ensures Ordered(Take(b, amount).book.lots) && Numbered(Take(b, amount).book)
  {
    TakeRefinesDraw(b, amount);
    var k := DrawLeavesSuffix(b.lots, amount);
    SameRanks(b.lots, Draw(b.lots, amount).lots, k);
  }

  lemma SameRanks(lots: seq<Lot>, left: seq<Lot>, k: nat)
    requires k <= |lots| && |left| == |lots| - k
    requires left != [] ==> left[1..] == lots[k + 1..]
    requires left != [] ==> left[0] == Reduced(lots[k], lots[k].remaining - left[0].remaining)
    ensures forall i :: 0 <= i < |left| ==>
              && left[i].priority == lots[i + k].priority
              && left[i].timestamp == lots[i + k].timestamp
              && left[i].rate == lots[i + k].rate
  {
    forall i | 1 <= i < |left| ensures left[i] == lots[i + k] {
      assert left[1..][i - 1] == lots[k + 1..][i - 1];
    }
  }

  /** No lot left over should have been used before one that was. */
  lemma TakeRespectsPriority(b: Book, amount: real, i: nat, j: nat)
    requires Sound(b) && amount >= 0.0 && Ordered(b.lots)
    requires i < |Take(b, amount).used| && j < |Take(b, amount).book.lots|
    ensures !Before(Take(b, amount).book.lots[j], Take(b, amount).used[i].lot)
  {
    TakeRefinesDraw(b, amount);
    DrawUsesPrefix(b.lots, amount, i);
    var k := DrawLeavesSuffix(b.lots, amount);
    SameRanks(b.lots, Draw(b.lots, amount).lots, k);
    assert i <= k;
  }

  // ----- HIFO is optimal -----

  ghost function Sum(x: seq<real>): real {
    if x == [] then 0.0 else x[0] + Sum(x[1..])
  }

  ghost function CostOfAllocation(x: seq<real>, lots: seq<Lot>): real
    requires |x| == |lots|
  {
    if x == [] then 0.0 else Product(x[0], lots[0].rate) + CostOfAllocation(x[1..], lots[1..])
  }

  /** Any way of drawing amounts from the lots. */
  ghost predicate IsAllocation(x: seq<real>, lots: seq<Lot>) {
    |x| == |lots| && forall i :: 0 <= i < |x| ==> 0.0 <= x[i] <= lots[i].remaining
  }

  ghost predicate DearestFirst(lots: seq<Lot>) {
    forall i, j :: 0 <= i < j < |lots| ==> lots[i].rate >= lots[j].rate
  }

  /** The weighted difference between two allocations, measured from the price `level`. */
  ghost function Excess(x: seq<real>, g: seq<real>, lots: seq<Lot>, level: real): real
    requires |x| == |g| == |lots|
  {
    if x == [] then 0.0
    else Product(x[0] - g[0], lots[0].rate - level) + Excess(x[1..], g[1..], lots[1..], level)
  }

  ghost function Product(a: real, b: real): real {
    a * b
  }

  lemma {:induction false} ExcessIsCostDifference(x: seq<real>, g: seq<real>, lots: seq<Lot>, level: real)
    requires |x| == |g| == |lots|
    ensures Excess(x, g, lots, level) ==
            CostOfAllocation(x, lots) - CostOfAllocation(g, lots) - Product(level, Sum(x) - Sum(g))
  {
    hide Product;
    if x == [] {
      ProductZero(level);
    } else {
      ExcessIsCostDifference(x[1..], g[1..], lots[1..], level);
      ExpandProduct(x[0], g[0], lots[0].rate, level);
      ProductSum(level, x[0] - g[0], Sum(x[1..]) - Sum(g[1..]));
    }
  }

  lemma ProductZero(level: real)
    ensures Product(level, 0.0) == 0.0
  {
  }

  lemma ExpandProduct(x: real, g: real, rate: real, level: real)
    ensures Product(x - g, rate - level) == Product(x, rate) - Product(g, rate) - Product(level, x - g)
  {
  }

  lemma ProductSum(level: real, a: real, b: real)
    ensures Product(level, a + b) == Product(level, a) + Product(level, b)
  {
  }

  /** The allocation a book's `Take` makes: greedy from the front. */
  ghost function Greedy(lots: seq<Lot>, amount: real): seq<real> {
    if lots == [] then []
    else if amount < lots[0].remaining then [amount] + seq(|lots| - 1, i => 0.0)
    else [lots[0].remaining] + Greedy(lots[1..], amount - lots[0].remaining)
  }

  lemma {:induction false} ZeroAllocation(lots: seq<Lot>, x: seq<real>)
    requires |x| == |lots| && forall i :: 0 <= i < |x| ==> x[i] == 0.0
    ensures Sum(x) == 0.0 && CostOfAllocation(x, lots) == 0.0
  {
    if x != [] {
      ZeroAllocation(lots[1..], x[1..]);
    }
  }

  lemma {:induction false} GreedyAmounts(lots: seq<Lot>, amount: real)
    requires Positive(lots) && amount >= 0.0
    ensures |Greedy(lots, amount)| == |lots| && Sum(Greedy(lots, amount)) == AmountUsed(Draw(lots, amount).used)
  {
    if lots != [] {
      var g := Greedy(lots, amount);
      if amount < lots[0].remaining {
        ZeroAllocation(lots[1..], g[1..]);
        AmountUsedCons(Use(amount, lots[0]), []);
      } else {
        var rest := amount - lots[0].remaining;
        GreedyAmounts(lots[1..], rest);
        AmountUsedCons(Use(lots[0].remaining, lots[0]), Draw(lots[1..], rest).used);
        assert g[1..] == Greedy(lots[1..], rest);
      }
    }
  }

  lemma {:induction false} GreedyCost(lots: seq<Lot>, amount: real)
    requires Positive(lots) && amount >= 0.0
    ensures |Greedy(lots, amount)| == |lots|
    ensures CostOfAllocation(Greedy(lots, amount), lots) == CostUsed(Draw(lots, amount).used, None)
  {
    GreedyAmounts(lots, amount);
    if lots != [] {
      var g := Greedy(lots, amount);
      if amount < lots[0].remaining {
        ZeroAllocation(lots[1..], g[1..]);
        CostUsedCons(Use(amount, lots[0]), []);
      } else {
        var rest := amount - lots[0].remaining;
        GreedyCost(lots[1..], rest);
        CostUsedCons(Use(lots[0].remaining, lots[0]), Draw(lots[1..], rest).used);
        assert g[1..] == Greedy(lots[1..], rest);
      }
    }
  }

  /** Measured from the price of the last lot drawn on, no allocation beats the greedy one. */
  lemma {:induction false} GreedyExcess(lots: seq<Lot>, amount: real, x: seq<real>) returns (level: real)
    requires lots != [] && DearestFirst(lots) && IsAllocation(x, lots) && amount >= 0.0
    ensures |Greedy(lots, amount)| == |lots|
    ensures Excess(x, Greedy(lots, amount), lots, level) <= 0.0
    ensures level <= lots[0].rate
  {
    hide Product;
    var g := Greedy(lots, amount);
    var r := lots[0].rate;
    level := r;
    if amount < lots[0].remaining {
      CheapRest(x[1..], g[1..], lots[1..], level);
    } else if |lots| > 1 {
      level := GreedyExcess(lots[1..], amount - lots[0].remaining, x[1..]);
      assert lots[0].rate >= lots[1].rate;
      assert g[1..] == Greedy(lots[1..], amount - lots[0].remaining);
    }
    ProductSign(x[0] - g[0], r - level);
  }

  lemma ProductSign(a: real, b: real)
    ensures (a <= 0.0 && b >= 0.0) || (a >= 0.0 && b <= 0.0) || b == 0.0 ==> Product(a, b) <= 0.0
  {
  }

  lemma {:induction false} CheapRest(x: seq<real>, g: seq<real>, lots: seq<Lot>, level: real)
    requires |x| == |g| == |lots|
    requires forall i :: 0 <= i < |x| ==> x[i] >= 0.0 && g[i] == 0.0 && lots[i].rate <= level
    ensures Excess(x, g, lots, level) <= 0.0
  {
    hide Product;
    if x != [] {
      CheapRest(x[1..], g[1..], lots[1..], level);
      ProductSign(x[0] - g[0], lots[0].rate - level);
    }
  }

  lemma HifoOrder(b: Book)
    requires b.policy.Hifo? && Ordered(b.lots) && Numbered(b)
    ensures DearestFirst(b.lots)
  {
    forall i, j | 0 <= i < j < |b.lots| ensures b.lots[i].rate >= b.lots[j].rate {
      assert !Before(b.lots[j], b.lots[i]);
    }
  }

  /** Lots of equal rate are used oldest first. */
  lemma HifoTies(b: Book, i: nat, j: nat)
    requires b.policy.Hifo? && Ordered(b.lots) && Numbered(b) && i < j < |b.lots|
    ensures b.lots[i].rate == b.lots[j].rate ==> b.lots[i].timestamp <= b.lots[j].timestamp
  {
    assert !Before(b.lots[j], b.lots[i]);
  }

  /** Highest-in-first-out charges the highest cost, hence the lowest gain, among all ways of
      drawing the same amount from the lots held. */
  lemma HifoChargesMost(b: Book, amount: real, x: seq<real>)
    requires Sound(b) && b.policy.Hifo? && Ordered(b.lots) && Numbered(b) && amount >= 0.0
    requires IsAllocation(x, b.lots) && Sum(x) == AmountUsed(Take(b, amount).used)
    ensures CostOfAllocation(x, b.lots) <= CostUsed(Take(b, amount).used, None)
  {
    hide Take, Excess, Greedy, CostOfAllocation, CostUsed, Draw, Product, Sum, AmountUsed, DearestFirst;
    TakeRefinesDraw(b, amount);
    GreedyAmounts(b.lots, amount);
    GreedyCost(b.lots, amount);
    if b.lots == [] {
      assert x == Greedy(b.lots, amount);
    } else {
      HifoOrder(b);
      var level := GreedyExcess(b.lots, amount, x);
      ExcessIsCostDifference(x, Greedy(b.lots, amount), b.lots, level);
      ProductZero(level);
    }
  }

  // ----- When the checks fail -----

  /** A spend of `amount` gets as far as the lot at `k`. */
  ghost predicate Reaches(lots: seq<Lot>, amount: real, k: nat) {
    && k < |lots|
    && (forall j :: 0 <= j < k ==> lots[j].remaining >= 0.0)
    && Held(lots[..k]) <= amount
  }

  /** The lot at `k` is reached and is of negative size or, for the average-cost method, the lots
      before it add up to the whole running amount. */
  ghost predicate FailsAt(b: Book, amount: real, k: nat) {
    Reaches(b.lots, amount, k) && (b.lots[k].remaining < 0.0 || (b.policy.Acb? && b.amount == Held(b.lots[..k])))
  }

  lemma ReachesShift(lots: seq<Lot>, amount: real, k: nat)
    requires lots != [] && lots[0].remaining >= 0.0
    ensures Reaches(lots, amount, k + 1) <==> Reaches(lots[1..], amount - lots[0].remaining, k)
    ensures k + 1 < |lots| ==>
              lots[k + 1] == lots[1..][k] && Held(lots[..k + 1]) == lots[0].remaining + Held(lots[1..][..k])
  {
    if k + 1 < |lots| {
      HeldSplit(lots, k + 1);
      assert lots[1..][..k] == lots[1..k+1];
      var rest := lots[1..];
      assert forall j :: 0 <= j < k ==> rest[j] == lots[j+1];
      assert forall j :: 1 <= j < k + 1 ==> lots[j] == rest[j-1];
    }
  }

  lemma FailsShift(b: Book, amount: real, k: nat)
    requires b.lots != [] && b.lots[0].remaining >= 0.0 && ConsumeFirst(b, b.lots[0].remaining).error.None?
    ensures FailsAt(b, amount, k + 1)
            <==> FailsAt(ConsumeFirst(b, b.lots[0].remaining).book, amount - b.lots[0].remaining, k)
  {
    hide Reaches, Held;
    ConsumeWhole(b);
    ReachesShift(b.lots, amount, k);
    ReachedInside(b.lots, amount, k + 1);
    ReachedInside(b.lots[1..], amount - b.lots[0].remaining, k);
  }

  lemma ReachedInside(lots: seq<Lot>, amount: real, k: nat)
    ensures Reaches(lots, amount, k) ==> k < |lots|
  {
  }

  lemma CoveredByFirst(lots: seq<Lot>, amount: real, k: nat)
    requires lots != [] && 0.0 <= amount < lots[0].remaining && k > 0
    ensures !Reaches(lots, amount, k)
  {
    if Reaches(lots, amount, k) {
      HeldSplit(lots, k);
      PrefixNonNegative(lots[1..k]);
    }
  }

  lemma FirstReached(lots: seq<Lot>, amount: real)
    requires lots != [] && amount >= 0.0
    ensures Reaches(lots, amount, 0) && Held(lots[..0]) == 0.0
  {
  }

  /** The checks fail exactly when the spend is negative with lots held, or reaches a lot of negative
      size, or, for the average-cost method, reaches a lot when the running amount is used up. Lots
      of negative size arise when an ETH withdrawal of more than 32 is booked. */
  lemma {:induction false} TakeFailsIff(b: Book, amount: real)
    ensures Take(b, amount).error.Some? <==>
            (b.lots != [] && amount < 0.0) || exists k :: FailsAt(b, amount, k)
    decreases |b.lots|
  {
    hide Reaches, Held;
    if b.lots != [] && amount >= 0.0 {
      var lot := b.lots[0];
      FirstReached(b.lots, amount);
      if lot.remaining < 0.0 || (b.policy.Acb? && b.amount == 0.0) {
        assert FailsAt(b, amount, 0);
      } else if amount < lot.remaining {
        forall k: nat ensures !FailsAt(b, amount, k) {
          if k > 0 {
            CoveredByFirst(b.lots, amount, k);
          }
        }
      } else {
        FailsLater(b, amount);
      }
    } else {
      NoLots(b, amount);
    }
  }

  lemma {:induction false} FailsLater(b: Book, amount: real)
    requires b.lots != [] && 0.0 <= b.lots[0].remaining <= amount && !(b.policy.Acb? && b.amount == 0.0)
    ensures Take(b, amount).error.Some? <==> exists k :: FailsAt(b, amount, k)
    decreases |b.lots|, 0
  {
    var c := ConsumeFirst(b, b.lots[0].remaining);
    var due := amount - b.lots[0].remaining;
    TakeFailsIff(c.book, due);
    hide Reaches, Held;
    FirstReached(b.lots, amount);
    if k: nat :| FailsAt(b, amount, k) {
      FailsShift(b, amount, k - 1);
    }
    if k: nat :| FailsAt(c.book, due, k) {
      FailsShift(b, amount, k);
    }
  }

  lemma NoLots(b: Book, amount: real)
    requires b.lots == [] || amount < 0.0
    ensures Take(b, amount).error.Some? <==> b.lots != []
    ensures b.lots == [] ==> forall k :: !FailsAt(b, amount, k)
  {
  }

  lemma HeldSplit(lots: seq<Lot>, k: nat)
    requires 0 < k <= |lots|
    ensures Held(lots[..k]) == lots[0].remaining + Held(lots[1..k])
  {
    assert lots[..k][1..] == lots[1..k];
  }

  lemma {:induction false} PrefixNonNegative(lots: seq<Lot>)
    requires forall j :: 0 <= j < |lots| ==> lots[j].remaining >= 0.0
    ensures Held(lots) >= 0.0
  {
    if lots != [] {
      PrefixNonNegative(lots[1..]);
    }
  }

  /** The average-cost guard, said to be unreachable, is reached by acquisitions of -1 and 1:
      the totals cancel while lots are still held. */
  lemma AcbGuardReachable(rate: real)
    ensures var b := AddLot(AddLot(EmptyBook(Acb), -1.0, 0, rate, 0), 1.0, 0, rate, 1);
            b.lots != [] && Take(b, 1.0).error == Some(AccountingError)
  {
    var b0 := AddLot(EmptyBook(Acb), -1.0, 0, rate, 0);
    assert b0.lots == [Lot(-1.0, -1.0, 0, rate, 0, 0.0)];
    AddLotPosition(b0, 1.0, 0, rate, 1);
  }
}
