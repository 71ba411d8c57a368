/** The history loop: pulls events off the iterator, processes them, and skips or stops on errors. */
module Reports {
  import opened Common
  import opened CostBasis
  import opened CostBasisCalculator
  import opened SwapPricing
  import opened Pot
  import opened AccountingPots
  import opened Events
  import opened EventsAccounting

  const FREE_PNL_EVENTS_LIMIT: nat := 1000

  /** One round of the loop: the number of events reported, the time of the event taken, and whether
      the event's process method was called. */
  datatype Round = Round(state: PotState, pos: nat, count: nat, time: Timestamp, started: bool, error: Option<Error>)

  datatype Stop = PeriodEnd | EventsLimit | Aborted(error: Error)

  /** How a report ends: number of events counted, time of the last event, and why it stopped. */
  datatype Report = Report(count: nat, last: Timestamp, stop: Stop)

  predicate Sorted(events: seq<Event>) {
    forall i, j :: 0 <= i < j < |events| ==> events[i].timestamp <= events[j].timestamp
  }

  /** Whether an event goes to its process method at all. */
  predicate Starts(w: World, e: Event) {
    && (w.pastCostBasis || e.timestamp >= w.cfg.startTs)
    && e.timestamp <= w.cfg.endTs
    && !w.skipped(e)
  }

  /** `_process_event`. */
  function OneRound(w: World, st: PotState, events: seq<Event>, pos: nat, prev: Timestamp): Round
    requires pos <= |events|
  {
    if pos == |events| then Round(st, pos, 0, prev, false, None)
    else
      var e := events[pos];
      if !w.pastCostBasis && e.timestamp < w.cfg.startTs then Round(st, pos + 1, 1, e.timestamp, false, None)
      else if e.timestamp > w.cfg.endTs then Round(st, pos + 1, 0, e.timestamp, false, None)
      else if w.skipped(e) then Round(st, pos + 1, 1, e.timestamp, false, None)
      else
        var r := ProcessAny(w, st, events, pos + 1, e);
        Round(r.state, r.pos, r.count, e.timestamp, true, r.error)
  }

  /** A round takes at least one event unless none is left, never reports more than it took, and
      reports none exactly when the iterator is empty, the period is over, or it raises. It processes
      the event exactly when the settings admit it, and else changes nothing and raises nothing. */
  lemma RoundCount(w: World, st: PotState, events: seq<Event>, pos: nat, prev: Timestamp)
    requires pos <= |events|
    ensures var r := OneRound(w, st, events, pos, prev);
            && pos <= r.pos <= |events|
            && (pos < |events| ==> pos < r.pos)
            && (r.started <==> pos < |events| && Starts(w, events[pos]))
            && (!r.started ==> r.state == st && r.error.None? && r.pos <= pos + 1)
            && (r.error.None? ==>
                  && r.count <= r.pos - pos
                  && (r.count == 0 <==>
                        pos == |events| ||
                        (events[pos].timestamp > w.cfg.endTs
                         && (w.pastCostBasis || events[pos].timestamp >= w.cfg.startTs))))
  {
    hide ProcessAny;
    if pos < |events| {
      ProcessAnyCount(w, st, events, pos + 1, events[pos]);
    }
  }

  lemma RoundKeeps(w: World, st: PotState, events: seq<Event>, pos: nat, prev: Timestamp)
    requires pos <= |events| && DatedWorld(w) && Kept(w.cfg, st)
    ensures Kept(w.cfg, OneRound(w, st, events, pos, prev).state)
  {
    hide ProcessAny, Kept, DatedWorld;
    if pos < |events| && events[pos].timestamp <= w.cfg.endTs {
      ProcessKeeps(w, st, events, pos + 1, events[pos]);
    }
  }

  lemma RoundHealthy(w: World, st: PotState, events: seq<Event>, pos: nat, prev: Timestamp)
    requires pos <= |events| && Benign(w, events) && AllHealthy(st.cost, w.cfg.costs)
    ensures var r := OneRound(w, st, events, pos, prev);
            AllHealthy(r.state.cost, w.cfg.costs) && Expected(r.error)
  {
    hide ProcessAny, AllHealthy;
    if pos < |events| {
      ProcessHealthy(w, st, events, pos + 1, events[pos]);
    }
  }

  /** What holds of the pot between rounds. */
  ghost predicate PotFine(w: World, events: seq<Event>, st: PotState) {
    && (DatedWorld(w) ==> Kept(w.cfg, st))
    && (Benign(w, events) ==> AllHealthy(st.cost, w.cfg.costs))
  }

  lemma RoundFine(w: World, st: PotState, events: seq<Event>, pos: nat, prev: Timestamp)
    requires pos <= |events| && PotFine(w, events, st)
    ensures var r := OneRound(w, st, events, pos, prev);
            && PotFine(w, events, r.state)
            && (Benign(w, events) ==> Expected(r.error))
  {
    hide OneRound, Kept, AllHealthy, DatedWorld, Benign;
    if DatedWorld(w) {
      RoundKeeps(w, st, events, pos, prev);
    }
    if Benign(w, events) {
      RoundHealthy(w, st, events, pos, prev);
    }
  }

  // ----- The loop as a function -----

  /** What a round did to the iterator and the count: where it began, how many events it took and
      counted, whether it processed its event, and the position of the event it reported as skipped. */
  datatype Lap = Lap(at: nat, took: nat, counted: nat, started: bool, named: Option<nat>)

  /** A whole run: pot and iterator position at the end, the report, and its rounds. */
  datatype History = History(state: PotState, pos: nat, report: Report, laps: seq<Lap>)

  /** The errors after which an event is reported as skipped. A missing price is reported elsewhere. */
  predicate Names(r: Round) {
    r.error.Some? && Skippable(r.error.value) && !r.error.value.NoPriceForGivenTimestamp?
  }

  /** How far a round advances the count. */
  function Counted(r: Round): nat {
    if r.error.None? then r.count else if Names(r) then 1 else 0
  }

  function LapOf(r: Round, pos: nat, count: nat): Lap
    requires pos <= r.pos
  {
    Lap(pos, r.pos - pos, Counted(r), r.started, if Names(r) then Some(count) else None)
  }

  function Behind(laps: seq<Lap>, h: History): History {
    h.(laps := laps + h.laps)
  }

  /** The loop of `process_history` from one round on. */
  function Rounds(w: World, premium: bool, st: PotState, events: seq<Event>, pos: nat, count: nat, prev: Timestamp,
                  last: Timestamp): History
    requires count <= pos <= |events|
    decreases |events| - pos
  {
    RoundCount(w, st, events, pos, prev);
    var r := OneRound(w, st, events, pos, prev);
    var lap := LapOf(r, pos, count);
    if r.error.Some? && !Skippable(r.error.value) then
      History(r.state, r.pos, Report(count, last, Aborted(r.error.value)), [lap])
    else if r.error.Some? then
      Behind([lap], Rounds(w, premium, r.state, events, r.pos, count + lap.counted, prev, last))
    else if r.count == 0 then History(r.state, r.pos, Report(count, last, PeriodEnd), [lap])
    else if !premium && count + r.count >= FREE_PNL_EVENTS_LIMIT then
      History(r.state, r.pos, Report(count + r.count, r.time, EventsLimit), [lap])
    else Behind([lap], Rounds(w, premium, r.state, events, r.pos, count + lap.counted, r.time, r.time))
  }

  /** The report over a list of events, from an empty pot. */
  function Accounted(w: World, premium: bool, events: seq<Event>): History {
    Rounds(w, premium, EMPTY_POT, events, 0, 0, 0, 0)
  }

  /** Whether the loop goes on after a round. */
  predicate GoesOn(r: Round, premium: bool, count: nat) {
    if r.error.Some? then Skippable(r.error.value)
    else r.count > 0 && (premium || count + r.count < FREE_PNL_EVENTS_LIMIT)
  }

  /** The report of a run that ends with a round. */
  function EndReport(r: Round, count: nat, last: Timestamp): Report {
    if r.error.Some? then Report(count, last, Aborted(r.error.value))
    else if r.count == 0 then Report(count, last, PeriodEnd)
    else Report(count + r.count, r.time, EventsLimit)
  }

  /** The rounds after a round that the loop goes on from. */
  function RestOf(w: World, premium: bool, r: Round, events: seq<Event>, count: nat, prev: Timestamp, last: Timestamp)
    : History
    requires count + Counted(r) <= r.pos <= |events|
  {
    Rounds(w, premium, r.state, events, r.pos, count + Counted(r), if r.error.Some? then prev else r.time,
           if r.error.Some? then last else r.time)
  }

  /** How a round and the rounds after it make up the whole. */
  lemma OneLap(w: World, premium: bool, st: PotState, events: seq<Event>, pos: nat, count: nat, prev: Timestamp,
               last: Timestamp)
    requires count <= pos <= |events|
    ensures var r := OneRound(w, st, events, pos, prev);
            var h := Rounds(w, premium, st, events, pos, count, prev, last);
            && pos <= r.pos <= |events| && (GoesOn(r, premium, count) ==> pos < r.pos)
            && Counted(r) <= r.pos - pos
            && if GoesOn(r, premium, count) then
                 h == Behind([LapOf(r, pos, count)], RestOf(w, premium, r, events, count, prev, last))
               else
                 h == History(r.state, r.pos, EndReport(r, count, last), [LapOf(r, pos, count)])
  {
    hide OneRound, Skippable;
    RoundCount(w, st, events, pos, prev);
    if OneRound(w, st, events, pos, prev).error.Some? {
      RaisesHere(w, st, events, pos, prev);
    }
  }

  lemma RaisesHere(w: World, st: PotState, events: seq<Event>, pos: nat, prev: Timestamp)
    requires pos <= |events| && OneRound(w, st, events, pos, prev).error.Some?
    ensures pos < |events| && pos < OneRound(w, st, events, pos, prev).pos
  {
    hide ProcessAny;
    RoundCount(w, st, events, pos, prev);
  }

  /** The count never exceeds the number of events taken, and a free report stops as soon as it
      reaches the limit. */
  lemma {:induction false} RoundsCount(w: World, premium: bool, st: PotState, events: seq<Event>, pos: nat, count: nat,
                                       prev: Timestamp, last: Timestamp)
    requires count <= pos <= |events|
    ensures var h := Rounds(w, premium, st, events, pos, count, prev, last);
            && count <= h.report.count <= h.pos <= |events| && pos <= h.pos
            && (h.report.stop.EventsLimit? ==> !premium && h.report.count >= FREE_PNL_EVENTS_LIMIT)
            && (h.report.stop.Aborted? ==> !Skippable(h.report.stop.error))
    decreases |events| - pos
  {
    hide OneRound, Rounds, Skippable, LapOf;
    OneLap(w, premium, st, events, pos, count, prev, last);
    var r := OneRound(w, st, events, pos, prev);
    if GoesOn(r, premium, count) {
      RoundsCount(w, premium, r.state, events, r.pos, count + Counted(r), if r.error.Some? then prev else r.time,
                  if r.error.Some? then last else r.time);
    }
  }

  /** What holds of the pot between rounds holds of it at the end. */
  lemma {:induction false} RoundsFine(w: World, premium: bool, st: PotState, events: seq<Event>, pos: nat, count: nat,
                                      prev: Timestamp, last: Timestamp)
    requires count <= pos <= |events| && PotFine(w, events, st)
    ensures var h := Rounds(w, premium, st, events, pos, count, prev, last);
            && PotFine(w, events, h.state)
            && (Benign(w, events) && h.report.stop.Aborted? ==> h.report.stop.error.TypeError?)
    decreases |events| - pos
  {
    hide OneRound, Rounds, PotFine, Benign, LapOf, Counted;
    OneLap(w, premium, st, events, pos, count, prev, last);
    RoundFine(w, st, events, pos, prev);
    var r := OneRound(w, st, events, pos, prev);
    if GoesOn(r, premium, count) {
      RoundsFine(w, premium, r.state, events, r.pos, count + Counted(r), if r.error.Some? then prev else r.time,
                 if r.error.Some? then last else r.time);
    }
  }

  /** Rounds follow each other on the iterator, and process only events that the settings admit. */
  ghost predicate LapsFrom(w: World, events: seq<Event>, laps: seq<Lap>, low: nat, high: nat) {
    && low <= high <= |events|
    && (forall i :: 0 <= i < |laps| ==> low <= laps[i].at && laps[i].at + laps[i].took <= high)
    && (forall i, j :: 0 <= i < j < |laps| ==> laps[i].at + laps[i].took <= laps[j].at)
    && (forall i :: 0 <= i < |laps| && laps[i].at < |events| ==>
          laps[i].took > 0 && (laps[i].started <==> Starts(w, events[laps[i].at])))
  }

  lemma LapsMore(w: World, events: seq<Event>, lap: Lap, laps: seq<Lap>, next: nat, high: nat)
    requires lap.at < |events| && lap.took > 0 && lap.at + lap.took == next && LapsFrom(w, events, laps, next, high)
    requires lap.started <==> Starts(w, events[lap.at])
    ensures LapsFrom(w, events, [lap] + laps, lap.at, high)
  {
    hide Starts;
  }

  /** A round processes an event exactly when it is dated up to the end of the period and not ignored,
      no event is taken twice, and a report that ends with the period on sorted events has taken every
      event dated up to its end. */
  lemma {:induction false} RoundsStart(w: World, premium: bool, st: PotState, events: seq<Event>, pos: nat, count: nat,
                                       prev: Timestamp, last: Timestamp)
    requires count <= pos <= |events|
    ensures var h := Rounds(w, premium, st, events, pos, count, prev, last);
            && LapsFrom(w, events, h.laps, pos, h.pos)
            && (h.report.stop.PeriodEnd? && Sorted(events) ==>
                  forall i :: h.pos <= i < |events| ==> events[i].timestamp > w.cfg.endTs)
    decreases |events| - pos
  {
    hide OneRound, Rounds, Skippable, LapsFrom, Starts, Counted, Names;
    OneLap(w, premium, st, events, pos, count, prev, last);
    RoundCount(w, st, events, pos, prev);
    var r := OneRound(w, st, events, pos, prev);
    if GoesOn(r, premium, count) {
      RoundsStart(w, premium, r.state, events, r.pos, count + Counted(r), if r.error.Some? then prev else r.time,
                  if r.error.Some? then last else r.time);
      var rest := RestOf(w, premium, r, events, count, prev, last);
      LapsMore(w, events, LapOf(r, pos, count), rest.laps, r.pos, rest.pos);
    } else {
      LastLap(w, events, LapOf(r, pos, count), r.pos);
    }
  }

  lemma LastLap(w: World, events: seq<Event>, lap: Lap, high: nat)
    requires lap.at + lap.took == high <= |events|
    requires lap.at < |events| ==> lap.took > 0 && (lap.started <==> Starts(w, events[lap.at]))
    ensures LapsFrom(w, events, [lap], lap.at, high)
  {
    hide Starts;
  }

  /** The time of the last event that was counted without raising, or what it was before. */
  function LastCounted(laps: seq<Lap>, events: seq<Event>, last: Timestamp): Timestamp
    decreases |laps|
  {
    if laps == [] then last
    else
      var lap := laps[0];
      LastCounted(laps[1..], events,
                  if lap.counted > 0 && lap.named.None? && lap.at < |events| then events[lap.at].timestamp else last)
  }

  /** The report names the time of the last event counted, and counts what its rounds counted. */
  lemma {:induction false} RoundsReport(w: World, premium: bool, st: PotState, events: seq<Event>, pos: nat, count: nat,
                                        prev: Timestamp, last: Timestamp)
    requires count <= pos <= |events|
    ensures var h := Rounds(w, premium, st, events, pos, count, prev, last);
            h.report.last == LastCounted(h.laps, events, last) && h.report.count == count + CountedBy(h.laps)
    decreases |events| - pos
  {
    hide OneRound, Rounds, Skippable;
    OneLap(w, premium, st, events, pos, count, prev, last);
    var r := OneRound(w, st, events, pos, prev);
    RoundTime(w, st, events, pos, prev);
    var lap := LapOf(r, pos, count);
    if GoesOn(r, premium, count) {
      var prev', last' := if r.error.Some? then prev else r.time, if r.error.Some? then last else r.time;
      RoundsReport(w, premium, r.state, events, r.pos, count + Counted(r), prev', last');
      var rest := RestOf(w, premium, r, events, count, prev, last);
      assert ([lap] + rest.laps)[1..] == rest.laps;
    } else {
      assert [lap][1..] == [];
      assert LastCounted([], events, last) == last && CountedBy([]) == 0;
    }
  }

  function CountedBy(laps: seq<Lap>): nat {
    if laps == [] then 0 else laps[0].counted + CountedBy(laps[1..])
  }

  lemma RoundTime(w: World, st: PotState, events: seq<Event>, pos: nat, prev: Timestamp)
    requires pos <= |events|
    ensures var r := OneRound(w, st, events, pos, prev);
            && (pos < |events| ==> r.time == events[pos].timestamp)
            && (pos == |events| ==> r.count == 0 && r.error.None?)
  {
    hide ProcessAny;
  }

  /** A round that counted events without raising. */
  predicate Tallied(lap: Lap) {
    lap.counted > 0 && lap.named.None?
  }

  /** A premium report is never cut short. A free one stops exactly at the first round that ends well with
      the count at the limit or above: after every earlier such round the count was below. Events that
      are skipped count too, but do not stop the report. */
  lemma {:induction false} RoundsLimit(w: World, premium: bool, st: PotState, events: seq<Event>, pos: nat, count: nat,
                                       prev: Timestamp, last: Timestamp, k: nat)
    requires count <= pos <= |events| && k < |Rounds(w, premium, st, events, pos, count, prev, last).laps|
    ensures var h := Rounds(w, premium, st, events, pos, count, prev, last);
            var n := count + CountedBy(h.laps[..k + 1]);
            Tallied(h.laps[k]) && !premium && n >= FREE_PNL_EVENTS_LIMIT
            <==> h.report.stop.EventsLimit? && k == |h.laps| - 1
    decreases |events| - pos
  {
    hide OneRound, Rounds, Skippable;
    OneLap(w, premium, st, events, pos, count, prev, last);
    var r := OneRound(w, st, events, pos, prev);
    var lap := LapOf(r, pos, count);
    if GoesOn(r, premium, count) {
      var prev', last' := if r.error.Some? then prev else r.time, if r.error.Some? then last else r.time;
      var rest := RestOf(w, premium, r, events, count, prev, last);
      var all := [lap] + rest.laps;
      NeverNoLaps(w, premium, r.state, events, r.pos, count + Counted(r), prev', last');
      if k == 0 {
        assert all[..1] == [lap];
        CountedOne(lap, []);
      } else {
        RoundsLimit(w, premium, r.state, events, r.pos, count + Counted(r), prev', last', k - 1);
        assert all[..k + 1] == [lap] + rest.laps[..k];
        CountedOne(lap, rest.laps[..k]);
      }
    } else {
      assert [lap][..1] == [lap] + [];
      CountedOne(lap, []);
    }
  }

  lemma CountedOne(lap: Lap, laps: seq<Lap>)
    ensures CountedBy([lap] + laps) == lap.counted + CountedBy(laps)
  {
    assert ([lap] + laps)[1..] == laps;
  }

  lemma NeverNoLaps(w: World, premium: bool, st: PotState, events: seq<Event>, pos: nat, count: nat, prev: Timestamp,
                    last: Timestamp)
    requires count <= pos <= |events|
    ensures |Rounds(w, premium, st, events, pos, count, prev, last).laps| > 0
  {
    hide OneRound, Rounds;
    OneLap(w, premium, st, events, pos, count, prev, last);
  }

  // ----- Which event is reported as skipped -----

  /** By how much a round leaves the count behind the iterator: by what a callback took and the fee of
      an unpriced swap if it ends well, by all it took if a price is missing, and by all but one if
      another error skips the event. */
  lemma RoundLag(w: World, st: PotState, events: seq<Event>, pos: nat, prev: Timestamp)
    requires pos <= |events|
    ensures var r := OneRound(w, st, events, pos, prev);
            r.pos - pos - Counted(r) ==
            if r.error.Some? then r.pos - pos - (if Names(r) then 1 else 0)
            else if !r.started then (if pos < |events| && r.count == 0 then 1 else 0)
            else if !events[pos].kind.EvmEntry? && !events[pos].kind.PlainEntry? then 0
            else CallbackTaken(w, st, events, pos + 1, events[pos])
                 + if UnpricedFee(w, st, events, pos + 1, events[pos]) then 1 else 0
  {
    hide Process, RunScript, Skippable;
    if pos < |events| && (events[pos].kind.EvmEntry? || events[pos].kind.PlainEntry?) {
      ProcessCount(w, st, events, pos + 1, events[pos]);
    }
  }

  /** The rounds before the `k`-th counted exactly the events they took. */
  ghost predicate InStep(laps: seq<Lap>, k: nat) {
    forall j :: 0 <= j < k && j < |laps| ==> laps[j].counted == laps[j].took
  }

  /** The event reported as skipped is the event at the count, never one after the event that raised.
      It is the one that raised if and only if every earlier round counted exactly as many events as
      it took. */
  lemma {:induction false} NamedIff(w: World, premium: bool, st: PotState, events: seq<Event>, pos: nat, count: nat,
                                    prev: Timestamp, last: Timestamp, k: nat)
    requires count <= pos <= |events|
    requires var h := Rounds(w, premium, st, events, pos, count, prev, last);
             k < |h.laps| && h.laps[k].named.Some?
    ensures var laps := Rounds(w, premium, st, events, pos, count, prev, last).laps;
            && laps[k].named.value <= laps[k].at
            && (laps[k].named.value == laps[k].at <==> count == pos && InStep(laps, k))
    decreases |events| - pos
  {
    hide OneRound, Rounds, Skippable, InStep, Names, Counted;
    OneLap(w, premium, st, events, pos, count, prev, last);
    var r := OneRound(w, st, events, pos, prev);
    var lap := LapOf(r, pos, count);
    if k == 0 {
      InStepNone(Rounds(w, premium, st, events, pos, count, prev, last).laps);
    } else {
      var prev', last' := if r.error.Some? then prev else r.time, if r.error.Some? then last else r.time;
      NamedIff(w, premium, r.state, events, r.pos, count + Counted(r), prev', last', k - 1);
      InStepMore(lap, RestOf(w, premium, r, events, count, prev, last).laps, k);
    }
  }

  lemma InStepNone(laps: seq<Lap>)
    ensures InStep(laps, 0)
  {
  }

  lemma InStepMore(lap: Lap, laps: seq<Lap>, k: nat)
    requires k > 0
    ensures InStep([lap] + laps, k) <==> lap.counted == lap.took && InStep(laps, k - 1)
  {
    var all := [lap] + laps;
    if InStep(all, k) {
      assert all[0] == lap;
      assert forall j :: 0 <= j < |laps| ==> laps[j] == all[j + 1];
    }
  }

  /** In a whole report. */
  lemma SkippedEventIff(w: World, premium: bool, events: seq<Event>, k: nat)
    requires k < |Accounted(w, premium, events).laps| && Accounted(w, premium, events).laps[k].named.Some?
    ensures var laps := Accounted(w, premium, events).laps;
            && laps[k].named.value <= laps[k].at
            && (laps[k].named.value == laps[k].at <==> InStep(laps, k))
  {
    hide Rounds, InStep;
    NamedIff(w, premium, EMPTY_POT, events, 0, 0, 0, 0, k);
  }

  /** Whenever a missing price is followed by an unreachable service, the first event is reported as
      skipped although the second one raised. */
  lemma WrongEventNamed(w: World, premium: bool, events: seq<Event>, rateLimited: bool)
    requires |events| == 2 && events[0].kind.OtherEvent? && events[1].kind.OtherEvent?
    requires Starts(w, events[0]) && Starts(w, events[1])
    requires w.own(EMPTY_POT, events[0]) == Script([], Some(NoPriceForGivenTimestamp(rateLimited)))
    requires w.own(EMPTY_POT, events[1]) == Script([], Some(RemoteError))
    ensures var laps := Accounted(w, premium, events).laps;
            |laps| > 1 && laps[1].at == 1 && laps[1].named == Some(0)
  {
    hide Rounds;
    OneLap(w, premium, EMPTY_POT, events, 0, 0, 0, 0);
    OneLap(w, premium, EMPTY_POT, events, 1, 0, 0, 0);
  }

  /** Such a report exists. */
  lemma WrongEventPossible() returns (w: World, events: seq<Event>)
    ensures var laps := Accounted(w, true, events).laps;
            |laps| > 1 && laps[1].at == 1 && laps[1].named == Some(0)
  {
    hide Accounted;
    var event := Event(OtherEvent, 0, "", 0, 0, "", "", None, None, A_ETH, 1.0);
    events := [event, event.(id := 1)];
    var cfg := PotConfig(0, 1, A_ETH, false, Settings(Fifo, None), {}, {}, (n, asset, now) => Rate(1.0));
    w := World(cfg, true, map[], {}, (etype, subtype, counterparty) => 0,
               (st: PotState, e: Event) =>
                 Script([], Some(if e.id == 0 then NoPriceForGivenTimestamp(false) else RemoteError)),
               (st: PotState, e: Event, next: seq<Event>) => CallbackReply(Script([], None), 0, 0),
               (e: Event) => false);
    WrongEventNamed(w, true, events, false);
  }

  // ----- Every report -----

  /** For every event list, every pattern of errors and whatever callbacks take: the count never
      exceeds the number of events taken; the ledger holds and every contribution lies within the
      query period; exactly the events dated up to its end and not ignored are processed where a round
      begins, and when the period ends the report, every later event is past the end; on benign input
      only an unpriced fiat leg aborts. */
  lemma ReportIsSafe(w: World, premium: bool, events: seq<Event>)
    ensures var h := Accounted(w, premium, events);
            && h.report.count <= h.pos <= |events|
            && PotFine(w, events, h.state)
            && LapsFrom(w, events, h.laps, 0, h.pos)
            && (h.report.stop.PeriodEnd? && Sorted(events) ==>
                  forall i :: h.pos <= i < |events| ==> events[i].timestamp > w.cfg.endTs)
            && (h.report.stop.EventsLimit? ==> !premium && h.report.count >= FREE_PNL_EVENTS_LIMIT)
            && (h.report.stop.Aborted? ==> !Skippable(h.report.stop.error))
            && (Benign(w, events) && h.report.stop.Aborted? ==> h.report.stop.error.TypeError?)
  {
    hide Rounds, PotFine, LapsFrom, Benign, Skippable;
    FreshPot(w, events);
    RoundsCount(w, premium, EMPTY_POT, events, 0, 0, 0, 0);
    RoundsFine(w, premium, EMPTY_POT, events, 0, 0, 0, 0);
    RoundsStart(w, premium, EMPTY_POT, events, 0, 0, 0, 0);
  }

  lemma FreshPot(w: World, events: seq<Event>)
    ensures PotFine(w, events, EMPTY_POT)
  {
    hide DatedWorld, Benign;
    EmptyLedger(w.cfg);
    assert forall a: Asset :: BookOf(NO_HISTORY, w.cfg.costs, a).lots == [];
  }

  // ----- The object -----

  /** The events reported as skipped, in order. */
  function NamedEvents(events: seq<Event>, laps: seq<Lap>): seq<Event> {
    if laps == [] then []
    else
      var lap := laps[|laps| - 1];
      NamedEvents(events, laps[..|laps| - 1])
      + if lap.named.Some? && lap.named.value < |events| then [events[lap.named.value]] else []
  }

  lemma NamedMore(events: seq<Event>, laps: seq<Lap>, lap: Lap)
    ensures NamedEvents(events, laps + [lap]) == NamedEvents(events, laps)
            + if lap.named.Some? && lap.named.value < |events| then [events[lap.named.value]] else []
  {
    assert (laps + [lap])[..|laps|] == laps;
  }

  class Accountant {
    const world: World
    const pot: AccountingPot
    const entries: EventsAccountant
    const premium: bool
    var currentlyProcessing: Timestamp
    var skipped: seq<Event>

    constructor (world: World, premium: bool)
      ensures this.world == world && this.premium == premium && Valid() && skipped == []
      ensures fresh(pot) && fresh(pot.calculator)
    {
      this.world := world;
      this.premium := premium;
      var p := new AccountingPot(world.cfg);
      pot := p;
      entries := new EventsAccountant(world, p);
      currentlyProcessing := -1;
      skipped := [];
    }

    ghost predicate Valid()
      reads this, entries, pot, pot.calculator
    {
      entries.pot == pot && entries.world == world && entries.Valid()
    }

    method RunOwnProcess(e: Event) returns (count: nat, error: Option<Error>)
      requires Valid() && !e.kind.EvmEntry? && !e.kind.PlainEntry?
      modifies pot, pot.calculator
      ensures Valid()
      ensures forall events: seq<Event>, pos: nat :: pos <= |events| ==>
                Processed(pot.State(), pos, count, error) == ProcessAny(world, old(pot.State()), events, pos, e)
    {
      hide RunScript;
      var script := world.own(pot.State(), e);
      error := entries.RunPotCalls(script.ops, script.error);
      count := if error.Some? then 0 else 1;
    }

    method ProcessEvent(feed: EventIterator, prev: Timestamp)
      returns (count: nat, time: Timestamp, error: Option<Error>, ghost started: bool)
      requires Valid() && feed.Valid()
      modifies this`currentlyProcessing, pot, pot.calculator, feed
      ensures Valid() && feed.Valid()
      ensures Round(pot.State(), feed.pos, count, time, started, error)
           == OneRound(world, old(pot.State()), feed.events, old(feed.pos), prev)
      ensures currentlyProcessing == old(currentlyProcessing) || currentlyProcessing <= world.cfg.endTs
    {
      hide Process;
      var next := feed.Next();
      if next.None? {
        return 0, prev, None, false;
      }
      var e := next.value;
      if !world.pastCostBasis && e.timestamp < world.cfg.startTs {
        return 1, e.timestamp, None, false;
      }
      if e.timestamp > world.cfg.endTs {
        return 0, e.timestamp, None, false;
      }
      currentlyProcessing := e.timestamp;
      if world.skipped(e) {
        return 1, e.timestamp, None, false;
      }
      time, started := e.timestamp, true;
      if e.kind.EvmEntry? || e.kind.PlainEntry? {
        count, error := entries.ProcessEntry(e, feed);
        assert Processed(pot.State(), feed.pos, count, error)
            == ProcessAny(world, old(pot.State()), feed.events, old(feed.pos) + 1, e);
      } else {
        count, error := RunOwnProcess(e);
        assert Processed(pot.State(), feed.pos, count, error)
            == ProcessAny(world, old(pot.State()), feed.events, old(feed.pos) + 1, e);
      }
    }

    /** Reports the event at `count` as skipped. */
    method ProcessSkippingException(events: seq<Event>, count: nat) returns (next: nat)
      requires count < |events|
      modifies this`skipped
      ensures next == count + 1 && skipped == old(skipped) + [events[count]]
    {
      skipped := skipped + [events[count]];
      next := count + 1;
    }

    /** `process_history`: the loop, with the events lookup of the skip path in range. */
    method ProcessHistory(events: seq<Event>) returns (report: Report)
      requires Valid()
      modifies this, pot, pot.calculator
      ensures Valid()
      ensures var h := Accounted(world, premium, events);
              report == h.report && pot.State() == h.state && skipped == old(skipped) + NamedEvents(events, h.laps)
    {
      hide OneRound, Rounds, Skippable, NamedEvents;
      pot.Reset(world.cfg);
      currentlyProcessing := if |events| == 0 then 0 else events[0].timestamp;
      var feed := new EventIterator(events);
      var count: nat, prev, last := 0, 0, 0;
      ghost var h := Accounted(world, premium, events);
      ghost var laps := [];
      NamedNone(events);
      while true
        invariant Valid() && feed.Valid() && feed.events == events && fresh(feed)
        invariant count <= feed.pos && skipped == old(skipped) + NamedEvents(events, laps)
        invariant h == Behind(laps, Rounds(world, premium, pot.State(), events, feed.pos, count, prev, last))
        decreases |events| - feed.pos
      {
        ghost var pos, st := feed.pos, pot.State();
        OneMore(world, premium, st, events, pos, count, prev, last, laps);
        var num, time, error, started := ProcessEvent(feed, prev);
        ghost var r := Round(pot.State(), feed.pos, num, time, started, error);
        laps := laps + [LapOf(r, pos, count)];
        if error.Some? {
          SkippableErrors(error.value);
          match error.value {
            case PriceQueryUnsupportedAsset =>
              count := ProcessSkippingException(events, count);
            case NoPriceForGivenTimestamp(_) =>
            case RemoteError =>
              count := ProcessSkippingException(events, count);
            case _ =>
              return Report(count, last, Aborted(error.value));
          }
          continue;
        }
        prev := time;
        if num == 0 {
          return Report(count, last, PeriodEnd);
        }
        last := prev;
        count := count + num;
        if !premium && count >= FREE_PNL_EVENTS_LIMIT {
          return Report(count, last, EventsLimit);
        }
      }
    }
  }

  lemma NamedNone(events: seq<Event>)
    ensures NamedEvents(events, []) == []
  {
  }

  /** Unfolding the loop once, behind the rounds before. */
  lemma OneMore(w: World, premium: bool, st: PotState, events: seq<Event>, pos: nat, count: nat, prev: Timestamp,
                last: Timestamp, laps: seq<Lap>)
    requires count <= pos <= |events|
    ensures var r := OneRound(w, st, events, pos, prev);
            var h := Behind(laps, Rounds(w, premium, st, events, pos, count, prev, last));
            && pos <= r.pos <= |events| && (GoesOn(r, premium, count) ==> pos < r.pos)
            && Counted(r) <= r.pos - pos && (r.error.Some? ==> count < |events|)
            && (var laps' := laps + [LapOf(r, pos, count)];
                && NamedEvents(events, laps') == NamedEvents(events, laps) + (if Names(r) then [events[count]] else [])
                && if GoesOn(r, premium, count) then
                     h == Behind(laps', RestOf(w, premium, r, events, count, prev, last))
                   else
                     h == History(r.state, r.pos, EndReport(r, count, last), laps'))
  {
    hide OneRound, Skippable, NamedEvents;
    OneLap(w, premium, st, events, pos, count, prev, last);
    var r := OneRound(w, st, events, pos, prev);
    if r.error.Some? {
      RaisesHere(w, st, events, pos, prev);
    }
    NamedMore(events, laps, LapOf(r, pos, count));
    if GoesOn(r, premium, count) {
      assert laps + ([LapOf(r, pos, count)] + RestOf(w, premium, r, events, count, prev, last).laps)
          == laps + [LapOf(r, pos, count)] + RestOf(w, premium, r, events, count, prev, last).laps;
    }
  }

  lemma SkippableErrors(e: Error)
    ensures Skippable(e) <==> e.PriceQueryUnsupportedAsset? || e.NoPriceForGivenTimestamp? || e.RemoteError?
  {
  }
}
