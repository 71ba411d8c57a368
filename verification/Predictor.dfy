/** The predictor behind the "missing accounting rule" check: which events a report would consume
    together with a given one, without running the report. */
module Predictor {
  import opened Common
  import opened Pot
  import opened Events
  import opened EventsAccounting
  import opened Rules

  /** Registered callbacks: how many events they process, negative if that varies. */
  datatype Callbacks = Callbacks(counts: map<int, int>, run: (Event, seq<Event>) -> int)

  datatype Prediction = Prediction(ids: seq<int>, pos: nat)

  predicate IsGas(e: Event) {
    e.counterparty == Some(CPT_GAS)
  }

  /** The next `n` events of the iterator, or as many as there are. */
  function TakeNext(events: seq<Event>, pos: nat, n: int): Prediction
    requires pos <= |events|
    decreases |events| - pos
  {
    if n <= 0 || pos == |events| then Prediction([], pos)
    else
      var rest := TakeNext(events, pos + 1, n - 1);
      Prediction([events[pos].id] + rest.ids, rest.pos)
  }

  /** `_events_to_consume`. `events` are all history entries; `pos` is the position after `e`. */
  function EventsToConsume(rows: seq<Row>, ident: Identifier, cbs: Callbacks, events: seq<Event>, pos: nat,
                           next: seq<Event>, e: Event): Prediction
    requires pos <= |events|
  {
    var row := TableRule(rows, e);
    if IsGas(e) then Prediction([], pos)
    else if row.Some? && row.value.rule.swap then TakeNext(events, pos, SwapTake(events, pos, e))
    else if !e.kind.EvmEntry? || TypeIdentifier(ident, e) !in cbs.counts then Prediction([], pos)
    else if cbs.counts[TypeIdentifier(ident, e)] == 1 then Prediction([], pos)
    else TakeNext(events, pos, cbs.run(e, next) - 1)
  }

  /** The same with the iterator as an object that is advanced. */
  method EventsToConsumeFrom(rows: seq<Row>, ident: Identifier, cbs: Callbacks, feed: EventIterator, next: seq<Event>,
                             e: Event)
    returns (ids: seq<int>)
    requires feed.Valid()
    requires forall i :: 0 <= i < |feed.events| ==> feed.events[i].IsHistoryEntry()
    modifies feed
    ensures feed.Valid()
    ensures Prediction(ids, feed.pos) == EventsToConsume(rows, ident, cbs, feed.events, old(feed.pos), next, e)
  {
    hide TableRule;
    ids := [];
    if IsGas(e) {
      return;
    }
    var row := TableRule(rows, e);
    if row.Some? && row.value.rule.swap {
      var peeked := feed.Peek();
      if peeked.None? || peeked.value.group != e.group {
        return;
      }
      var taken := feed.Next();
      ids := ids + [taken.value.id];
      peeked := feed.Peek();
      if peeked.Some? && peeked.value.group == e.group && peeked.value.subtype == FEE {
        taken := feed.Next();
        ids := ids + [taken.value.id];
      }
      TakeNextMoves(feed.events, old(feed.pos), SwapTake(feed.events, old(feed.pos), e));
      assert ids == TakeNext(feed.events, old(feed.pos), SwapTake(feed.events, old(feed.pos), e)).ids;
      return;
    }
    if !e.kind.EvmEntry? || TypeIdentifier(ident, e) !in cbs.counts {
      return;
    }
    if cbs.counts[TypeIdentifier(ident, e)] == 1 {
      return;
    }
    var due := cbs.run(e, next) - 1;
    var i := 0;
    while i < due
      invariant feed.Valid() && 0 <= i && feed.pos == old(feed.pos) + i
      invariant TakeNext(feed.events, old(feed.pos), due) ==
                var rest := TakeNext(feed.events, feed.pos, due - i); Prediction(ids + rest.ids, rest.pos)
    {
      var taken := feed.Next();
      if taken.None? {
        return;
      }
      ids := ids + [taken.value.id];
      i := i + 1;
    }
  }

  // ----- Prediction against reality -----

  lemma {:induction false} TakeNextMoves(events: seq<Event>, pos: nat, n: int)
    requires pos <= |events|
    ensures var p := TakeNext(events, pos, n);
            && p.pos == (if n <= 0 then pos else if pos + n <= |events| then pos + n else |events|)
            && |p.ids| == p.pos - pos
            && forall i :: 0 <= i < |p.ids| ==> p.ids[i] == events[pos + i].id
    decreases |events| - pos
  {
    if n > 0 && pos < |events| {
      TakeNextMoves(events, pos + 1, n - 1);
    }
  }

  lemma RealSwapTakes(w: World, st: PotState, events: seq<Event>, pos: nat, e: Event)
    requires pos <= |events| && !HasCallback(w, e)
    ensures Process(w, st, events, pos, e).pos ==
            if Skips(w, e) || !RuleFor(w.rules, w.ident, e).value.swap then pos else pos + SwapTake(events, pos, e)
    ensures var n := |events| - pos;
            SwapTake(events, pos, e) ==
            if n == 0 || !events[pos].IsHistoryEntry() || events[pos].group != e.group then 0
            else if n == 1 || !events[pos + 1].IsHistoryEntry() || events[pos + 1].group != e.group
                    || events[pos + 1].subtype != FEE then 1
            else 2
  {
    hide RunScript, AddIn, AddOut, ProcessSwap, RuleFor;
    if !Skips(w, e) && RuleFor(w.rules, w.ident, e).value.swap && HasInLeg(events, pos, e) {
      SwapCount(w.cfg, st, pos + SwapTake(events, pos, e), e.timestamp, e, events[pos],
                if HasFee(events, pos, e) then Some(events[pos + 1]) else None, RuleFor(w.rules, w.ident, e).value);
    }
  }

  /** For an event without callback whose rule is a swap, the predictor advances its iterator
      exactly as far as the real run does, unless exactly one of two things keeps only one of them
      from taking the legs: the predictor ignores gas, the real run ignores events that have no
      direction or a neutral one. Rules are read from the table by the one and from memory, loaded
      from the same table, by the other. */
  lemma PredictorMatchesRun(w: World, st: PotState, t: Table, rules: seq<Row>, cbs: Callbacks, events: seq<Event>,
                            pos: nat, next: seq<Event>, e: Event)
    requires pos <= |events| && !HasCallback(w, e) && WellFormed(e)
    requires Injective(w.ident) && UniqueKeys(t.rows) && LoadedRows(t, rules)
             && w.rules == Loaded(map[], w.ident, rules)
    requires RuleFor(w.rules, w.ident, e).Some? && RuleFor(w.rules, w.ident, e).value.swap
    ensures var undirected := e.direction.None? || e.direction.value.Neutral?;
            EventsToConsume(t.rows, w.ident, cbs, events, pos, next, e).pos == Process(w, st, events, pos, e).pos
            <==> SwapTake(events, pos, e) == 0 || (e.counterparty == Some(CPT_GAS) <==> undirected)
  {
    hide Process, RuleFor, Loaded, TableRule;
    MemoryAgreesWithTable(w.ident, t, rules, e);
    RealSwapTakes(w, st, events, pos, e);
    TakeNextMoves(events, pos, SwapTake(events, pos, e));
  }

  /** How many of the `left` events that follow a callback takes along: one less than it reports to
      process, the event itself being one of them, as far as there are so many. */
  function CallbackShare(ident: Identifier, cbs: Callbacks, e: Event, next: seq<Event>, left: nat): nat {
    if !e.kind.EvmEntry? || TypeIdentifier(ident, e) !in cbs.counts || cbs.counts[TypeIdentifier(ident, e)] == 1 then 0
    else
      var n := cbs.run(e, next);
      if n <= 1 then 0 else if n - 1 <= left then n - 1 else left
  }

  /** The ids predicted are those of the events taken, in order: the legs of a swap, or what the callback
      takes along. */
  lemma PredictedIds(rows: seq<Row>, ident: Identifier, cbs: Callbacks, events: seq<Event>, pos: nat, next: seq<Event>,
                     e: Event)
    requires pos <= |events|
    ensures var p := EventsToConsume(rows, ident, cbs, events, pos, next, e);
            && pos <= p.pos <= |events| && |p.ids| == p.pos - pos
            && (forall i :: 0 <= i < |p.ids| ==> p.ids[i] == events[pos + i].id)
            && |p.ids| == if e.counterparty == Some(CPT_GAS) then 0
                          else if TableRule(rows, e).Some? && TableRule(rows, e).value.rule.swap then
                            SwapTake(events, pos, e)
                          else CallbackShare(ident, cbs, e, next, |events| - pos)
  {
    hide TableRule, TakeNext;
    TakeNextMoves(events, pos, SwapTake(events, pos, e));
    TakeNextMoves(events, pos, cbs.run(e, next) - 1);
    TakeNextMoves(events, pos, 0);
  }

  // ----- The check over all related events -----

  datatype Status = ProcessedStatus | HasRule | NotProcessed

  /** One rule check: the event's position, the index whose successors the callback is shown, and the
      number of following events predicted to be consumed along with it. */
  datatype Check = Check(position: nat, index: nat, taken: nat)

  ghost predicate DistinctIds(events: seq<Event>) {
    forall i, j :: 0 <= i < j < |events| ==> events[i].id != events[j].id
  }

  /** The event at `i` is among those a check predicts to be consumed. */
  ghost predicate ConsumedBy(c: Check, i: nat) {
    c.position < i <= c.position + c.taken
  }

  ghost predicate Consumed(checks: seq<Check>, i: nat) {
    exists n :: 0 <= n < |checks| && ConsumedBy(checks[n], i)
  }

  ghost predicate Checked(checks: seq<Check>, i: nat) {
    exists n :: 0 <= n < |checks| && checks[n].position == i
  }

  /** The checks made before position `high`: in order, each looking past the events consumed before,
      with the index that falls behind by one per check, and consuming what the predictor says. */
  ghost predicate ChecksFine(rows: seq<Row>, ident: Identifier, cbs: Callbacks, events: seq<Event>, checks: seq<Check>,
                             high: nat) {
    && (forall n :: 0 <= n < |checks| ==> CheckFine(rows, ident, cbs, events, checks[n], n, high))
    && (forall m, n :: 0 <= m < n < |checks| ==> checks[m].position + checks[m].taken < checks[n].position)
  }

  ghost predicate CheckFine(rows: seq<Row>, ident: Identifier, cbs: Callbacks, events: seq<Event>, c: Check, n: nat,
                            high: nat) {
    && c.position + c.taken < high <= |events| && n <= c.position && c.index == c.position - n
    && c.taken == |EventsToConsume(rows, ident, cbs, events, c.position + 1, events[c.index + 1..],
                                   events[c.position]).ids|
  }

  /** The status of a checked event: a rule counts as such, also if other events are consumed. */
  function CheckedStatus(rows: seq<Row>, e: Event, taken: nat): Status {
    if TableRule(rows, e).Some? then HasRule else if taken > 0 then ProcessedStatus else NotProcessed
  }

  /** The status an event ends with. Events that were in the cache or need no rule are not checked,
      nor are those consumed along with an earlier one; all others are. */
  ghost predicate StatusFine(rows: seq<Row>, events: seq<Event>, informational: Event -> bool,
                             cached: map<int, Status>, cache: map<int, Status>, checks: seq<Check>, i: nat)
    requires i < |events|
  {
    var e := events[i];
    && e.id in cache
    && (Consumed(checks, i) ==> cache[e.id] == ProcessedStatus && !Checked(checks, i))
    && (!Consumed(checks, i) ==>
          if e.id in cached then cache[e.id] == cached[e.id] && !Checked(checks, i)
          else if informational(e) then cache[e.id] == ProcessedStatus && !Checked(checks, i)
          else Checked(checks, i) && forall n :: 0 <= n < |checks| && checks[n].position == i ==>
                 cache[e.id] == CheckedStatus(rows, e, checks[n].taken))
  }

  /** The statuses of all events before `high`, and those of later events as cached. */
  ghost predicate StatusesFine(rows: seq<Row>, events: seq<Event>, informational: Event -> bool,
                               cached: map<int, Status>, cache: map<int, Status>, checks: seq<Check>, high: nat)
    requires high <= |events|
  {
    && (forall i :: 0 <= i < high ==> StatusFine(rows, events, informational, cached, cache, checks, i))
    && (forall i :: high <= i < |events| ==> SameStatus(cached, cache, events[i].id))
  }

  ghost predicate SameStatus(cached: map<int, Status>, cache: map<int, Status>, id: int) {
    (id in cache <==> id in cached) && (id in cached ==> cache[id] == cached[id])
  }

  /** `query_missing_accounting_rules`: the loop over the related events. `informational` are the
      events known to be processed without a rule. Each check hands `events[index + 1..]` to the
      callback as the events that follow. */
  method QueryMissingRules(rows: seq<Row>, ident: Identifier, cbs: Callbacks, events: seq<Event>,
                           informational: Event -> bool, cached: map<int, Status>)
    returns (cache: map<int, Status>, checks: seq<Check>)
    requires DistinctIds(events) && forall i :: 0 <= i < |events| ==> events[i].IsHistoryEntry()
    ensures ChecksFine(rows, ident, cbs, events, checks, |events|)
    ensures StatusesFine(rows, events, informational, cached, cache, checks, |events|)
  {
    hide TableRule, EventsToConsume, TypeIdentifier, StatusesFine, ChecksFine, SwapTake, CallbackShare;
    cache, checks := cached, [];
    var feed := new EventIterator(events);
    var index: int := 0;
    NothingChecked(rows, ident, cbs, events, informational, cached);
    while feed.pos < |events|
      invariant feed.Valid() && feed.events == events && fresh(feed)
      invariant index == feed.pos - |checks| && |checks| <= feed.pos
      invariant ChecksFine(rows, ident, cbs, events, checks, feed.pos)
      invariant StatusesFine(rows, events, informational, cached, cache, checks, feed.pos)
      decreases |events| - feed.pos
    {
      var position := feed.pos;
      var e := events[position];
      CachedAt(rows, events, informational, cached, cache, checks, position);
      var _ := feed.Next();
      if e.id in cache {
        PassOne(rows, ident, cbs, events, informational, cached, cache, cache, checks, position);
        index := index + 1;
        continue;
      }
      if informational(e) {
        PassOne(rows, ident, cbs, events, informational, cached, cache, cache[e.id := ProcessedStatus], checks,
                position);
        cache := cache[e.id := ProcessedStatus];
        index := index + 1;
        continue;
      }
      var row := TableRule(rows, e);
      ghost var before := cache;
      cache := cache[e.id := if row.Some? then HasRule else NotProcessed];
      var ids := EventsToConsumeFrom(rows, ident, cbs, feed, events[index + 1..], e);
      PredictedIds(rows, ident, cbs, events, position + 1, events[index + 1..], e);
      ghost var check := Check(position, index, |ids|);
      if |ids| > 0 && row.None? {
        cache := cache[e.id := ProcessedStatus];
      }
      cache := MarkProcessed(cache, ids);
      CheckOne(rows, ident, cbs, events, informational, cached, before, cache, checks, check, ids);
      checks := checks + [Check(position, index, |ids|)];
      index := index + |ids|;
    }
  }

  lemma NothingChecked(rows: seq<Row>, ident: Identifier, cbs: Callbacks, events: seq<Event>,
                       informational: Event -> bool, cached: map<int, Status>)
    ensures ChecksFine(rows, ident, cbs, events, [], 0)
    ensures StatusesFine(rows, events, informational, cached, cached, [], 0)
  {
  }

  lemma CachedAt(rows: seq<Row>, events: seq<Event>, informational: Event -> bool, cached: map<int, Status>,
                 cache: map<int, Status>, checks: seq<Check>, i: nat)
    requires i < |events| && StatusesFine(rows, events, informational, cached, cache, checks, i)
    ensures SameStatus(cached, cache, events[i].id)
  {
    hide StatusFine;
  }

  lemma NotYet(rows: seq<Row>, ident: Identifier, cbs: Callbacks, events: seq<Event>, checks: seq<Check>, high: nat,
               i: nat)
    requires ChecksFine(rows, ident, cbs, events, checks, high) && high <= i
    ensures !Consumed(checks, i) && !Checked(checks, i)
  {
    hide EventsToConsume;
    assert forall n :: 0 <= n < |checks| ==> CheckFine(rows, ident, cbs, events, checks[n], n, high);
  }

  lemma ChecksLater(rows: seq<Row>, ident: Identifier, cbs: Callbacks, events: seq<Event>, checks: seq<Check>,
                    high: nat, higher: nat)
    requires ChecksFine(rows, ident, cbs, events, checks, high) && high <= higher <= |events|
    ensures ChecksFine(rows, ident, cbs, events, checks, higher)
  {
    hide EventsToConsume;
    forall n | 0 <= n < |checks| ensures CheckFine(rows, ident, cbs, events, checks[n], n, higher) {
      assert CheckFine(rows, ident, cbs, events, checks[n], n, high);
    }
  }

  /** An event that is passed over. */
  lemma PassOne(rows: seq<Row>, ident: Identifier, cbs: Callbacks, events: seq<Event>, informational: Event -> bool,
                cached: map<int, Status>, before: map<int, Status>, after: map<int, Status>, checks: seq<Check>, i: nat)
    requires DistinctIds(events) && i < |events| && ChecksFine(rows, ident, cbs, events, checks, i)
    requires StatusesFine(rows, events, informational, cached, before, checks, i)
    requires SameStatus(cached, before, events[i].id)
    requires if events[i].id in before then after == before
             else informational(events[i]) && after == before[events[i].id := ProcessedStatus]
    ensures ChecksFine(rows, ident, cbs, events, checks, i + 1)
    ensures StatusesFine(rows, events, informational, cached, after, checks, i + 1)
  {
    hide TableRule, ChecksFine, Consumed, Checked;
    ChecksLater(rows, ident, cbs, events, checks, i, i + 1);
    NotYet(rows, ident, cbs, events, checks, i, i);
    forall j | 0 <= j < i ensures StatusFine(rows, events, informational, cached, after, checks, j) {
      assert StatusFine(rows, events, informational, cached, before, checks, j);
    }
  }

  lemma ChecksMore(rows: seq<Row>, ident: Identifier, cbs: Callbacks, events: seq<Event>, checks: seq<Check>, c: Check)
    requires ChecksFine(rows, ident, cbs, events, checks, c.position)
    requires CheckFine(rows, ident, cbs, events, c, |checks|, c.position + c.taken + 1)
    ensures ChecksFine(rows, ident, cbs, events, checks + [c], c.position + c.taken + 1)
  {
    hide EventsToConsume;
    var all := checks + [c];
    forall n | 0 <= n < |all|
      ensures CheckFine(rows, ident, cbs, events, all[n], n, c.position + c.taken + 1)
      ensures n < |checks| ==> all[n].position + all[n].taken < c.position
    {
      if n < |checks| {
        assert CheckFine(rows, ident, cbs, events, checks[n], n, c.position);
      }
    }
  }

  lemma MoreChecks(checks: seq<Check>, c: Check, i: nat)
    ensures Consumed(checks + [c], i) <==> Consumed(checks, i) || ConsumedBy(c, i)
    ensures Checked(checks + [c], i) <==> Checked(checks, i) || c.position == i
  {
    var all := checks + [c];
    assert all[|checks|] == c;
    assert forall n :: 0 <= n < |checks| ==> all[n] == checks[n];
  }

  /** An event that is checked, together with the events consumed along with it. */
  lemma CheckOne(rows: seq<Row>, ident: Identifier, cbs: Callbacks, events: seq<Event>, informational: Event -> bool,
                 cached: map<int, Status>, before: map<int, Status>, after: map<int, Status>, checks: seq<Check>,
                 c: Check, ids: seq<int>)
    requires DistinctIds(events) && ChecksFine(rows, ident, cbs, events, checks, c.position)
    requires CheckFine(rows, ident, cbs, events, c, |checks|, c.position + c.taken + 1)
    requires StatusesFine(rows, events, informational, cached, before, checks, c.position)
    requires events[c.position].id !in before && SameStatus(cached, before, events[c.position].id)
    requires !informational(events[c.position])
    requires |ids| == c.taken && forall i :: 0 <= i < |ids| ==> ids[i] == events[c.position + 1 + i].id
    requires forall k :: k in after <==> k in before || k == events[c.position].id || k in ids
    requires forall k :: k in after ==>
               after[k] == if k in ids then ProcessedStatus
                           else if k == events[c.position].id then CheckedStatus(rows, events[c.position], c.taken)
                           else before[k]
    ensures ChecksFine(rows, ident, cbs, events, checks + [c], c.position + c.taken + 1)
    ensures StatusesFine(rows, events, informational, cached, after, checks + [c], c.position + c.taken + 1)
  {
    hide EventsToConsume, TableRule, ChecksFine, StatusFine, CheckFine;
    ChecksMore(rows, ident, cbs, events, checks, c);
    CheckRange(rows, ident, cbs, events, c, |checks|);
    var high := c.position + c.taken + 1;
    forall i | 0 <= i < high ensures StatusFine(rows, events, informational, cached, after, checks + [c], i) {
      if i < c.position {
        EarlierStatus(rows, ident, cbs, events, informational, cached, before, after, checks, c, ids, i);
      } else {
        LaterStatus(rows, ident, cbs, events, informational, cached, before, after, checks, c, ids, i);
      }
    }
    forall i | high <= i < |events| ensures SameStatus(cached, after, events[i].id) {
      NotAmong(events, c, ids, i);
    }
  }

  lemma CheckRange(rows: seq<Row>, ident: Identifier, cbs: Callbacks, events: seq<Event>, c: Check, n: nat)
    requires CheckFine(rows, ident, cbs, events, c, n, c.position + c.taken + 1)
    ensures c.position + c.taken < |events|
  {
    hide EventsToConsume;
  }

  /** Ids are distinct, so that an event elsewhere is not among the consumed ones. */
  lemma NotAmong(events: seq<Event>, c: Check, ids: seq<int>, i: nat)
    requires DistinctIds(events) && c.position + c.taken < |events| && i < |events|
    requires |ids| == c.taken && forall j :: 0 <= j < |ids| ==> ids[j] == events[c.position + 1 + j].id
    ensures events[i].id in ids <==> ConsumedBy(c, i)
    ensures i != c.position ==> events[i].id != events[c.position].id
  {
    if ConsumedBy(c, i) {
      assert ids[i - c.position - 1] == events[i].id;
    }
  }

  lemma EarlierStatus(rows: seq<Row>, ident: Identifier, cbs: Callbacks, events: seq<Event>,
                      informational: Event -> bool, cached: map<int, Status>, before: map<int, Status>,
                      after: map<int, Status>, checks: seq<Check>, c: Check, ids: seq<int>, i: nat)
    requires DistinctIds(events) && c.position + c.taken < |events| && i < c.position
    requires StatusesFine(rows, events, informational, cached, before, checks, c.position)
    requires |ids| == c.taken && forall j :: 0 <= j < |ids| ==> ids[j] == events[c.position + 1 + j].id
    requires events[i].id in before ==> events[i].id in after
    requires events[i].id in after && events[i].id !in ids && events[i].id != events[c.position].id ==>
               events[i].id in before && after[events[i].id] == before[events[i].id]
    ensures StatusFine(rows, events, informational, cached, after, checks + [c], i)
  {
    hide TableRule, Consumed, Checked;
    assert StatusFine(rows, events, informational, cached, before, checks, i);
    NotAmong(events, c, ids, i);
    MoreChecks(checks, c, i);
  }

  lemma LaterStatus(rows: seq<Row>, ident: Identifier, cbs: Callbacks, events: seq<Event>,
                    informational: Event -> bool, cached: map<int, Status>, before: map<int, Status>,
                    after: map<int, Status>, checks: seq<Check>, c: Check, ids: seq<int>, i: nat)
    requires DistinctIds(events) && c.position <= i <= c.position + c.taken < |events|
    requires ChecksFine(rows, ident, cbs, events, checks, c.position)
    requires events[c.position].id !in cached && !informational(events[c.position])
    requires |ids| == c.taken && forall j :: 0 <= j < |ids| ==> ids[j] == events[c.position + 1 + j].id
    requires events[i].id in ids || i == c.position ==>
               && events[i].id in after
               && after[events[i].id] == if events[i].id in ids then ProcessedStatus
                                         else CheckedStatus(rows, events[c.position], c.taken)
    ensures StatusFine(rows, events, informational, cached, after, checks + [c], i)
  {
    hide TableRule, Consumed, ChecksFine;
    NotAmong(events, c, ids, i);
    MoreChecks(checks, c, i);
    NotYet(rows, ident, cbs, events, checks, c.position, i);
  }

  method MarkProcessed(cached: map<int, Status>, ids: seq<int>) returns (cache: map<int, Status>)
    ensures forall k :: k in cache <==> k in cached || k in ids
    ensures forall k :: k in cache ==> cache[k] == if k in ids then ProcessedStatus else cached[k]
  {
    cache := cached;
    var i := 0;
    while i < |ids|
      invariant 0 <= i <= |ids|
      invariant forall k :: k in cache <==> k in cached || k in ids[..i]
      invariant forall k :: k in cache ==> cache[k] == if k in ids[..i] then ProcessedStatus else cached[k]
    {
      assert ids[..i + 1] == ids[..i] + [ids[i]];
      cache := cache[ids[i] := ProcessedStatus];
      i := i + 1;
    }
    assert ids[..i] == ids;
  }

  /** The events a callback is shown are the ones that really follow exactly when its event is the
      first one checked: every check leaves the index one short. */
  lemma CallbackSeesNextIff(events: seq<Event>, c: Check, n: nat)
    requires n <= c.position < |events| && c.index == c.position - n
    ensures events[c.index + 1..] == events[c.position + 1..] <==> n == 0
  {
    assert n > 0 ==> |events[c.index + 1..]| != |events[c.position + 1..]|;
  }
}
