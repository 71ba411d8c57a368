/** Data migrations over many start-ups: pending migrations are attempted in order until one fails. */
module Migrations {
  import opened Common

  datatype Attempt = Attempt(version: int, success: bool)

  datatype Started = Started(stored: Option<int>, log: seq<Attempt>)

  /** Versions of the migrations, ascending; the last one is the version a finished run stores. */
  ghost predicate IsMigrationList(list: seq<int>) {
    list != [] && forall i, j :: 0 <= i < j < |list| ==> list[i] < list[j]
  }

  /** The loop from the `i`-th migration on. `fails` says which migrations fail this time. */
  function MigrateFrom(list: seq<int>, i: nat, stored: int, fails: int -> bool): Started
    requires list != [] && i <= |list|
    decreases |list| - i
  {
    if i == |list| then Started(Some(list[|list| - 1]), [])
    else if stored >= list[i] then MigrateFrom(list, i + 1, stored, fails)
    else if fails(list[i]) then Started(Some(stored), [Attempt(list[i], false)])
    else
      var rest := MigrateFrom(list, i + 1, list[i], fails);
      Started(rest.stored, [Attempt(list[i], true)] + rest.log)
  }

  /** One start-up. Without a stored version nothing runs and the last version is stored. */
  function StartUp(list: seq<int>, stored: Option<int>, fails: int -> bool): Started
    requires list != []
  {
    if stored.None? then Started(Some(list[|list| - 1]), []) else MigrateFrom(list, 0, stored.value, fails)
  }

  class DataMigrationManager {
    const list: seq<int>
    var stored: Option<int>
    var log: seq<Attempt>

    constructor (list: seq<int>, stored: Option<int>)
      ensures this.list == list && this.stored == stored && log == []
    {
      this.list, this.stored, this.log := list, stored, [];
    }

    /** Runs one migration and logs the attempt. */
    method PerformMigration(version: int, fails: int -> bool) returns (success: bool)
      modifies this`log
      ensures success == !fails(version) && log == old(log) + [Attempt(version, success)]
    {
      success := !fails(version);
      log := log + [Attempt(version, success)];
    }

    /** `maybe_migrate_data`: a for loop whose else branch runs when no migration failed. */
    method MaybeMigrateData(fails: int -> bool)
      requires list != []
      modifies this
      ensures var s := StartUp(list, old(stored), fails); stored == s.stored && log == old(log) + s.log
    {
      var last := stored;
      var i := 0;
      while i < |list|
        invariant 0 <= i <= |list| && last == stored && (old(stored).None? ==> stored.None? && log == old(log))
        invariant stored.None? ==> old(stored).None?
        invariant stored.Some? ==>
                    var rest := MigrateFrom(list, i, stored.value, fails);
                    var all := StartUp(list, old(stored), fails);
                    rest.stored == all.stored && log + rest.log == old(log) + all.log
      {
        if last.Some? && last.value < list[i] {
          var success := PerformMigration(list[i], fails);
          if !success {
            return;
          }
          last := Some(list[i]);
          stored := last;
        }
        i := i + 1;
      }
      stored := Some(list[|list| - 1]);
    }
  }

  // ----- One start-up -----

  function Successes(log: seq<Attempt>): seq<int> {
    if log == [] then [] else (if log[0].success then [log[0].version] else []) + Successes(log[1..])
  }

  ghost predicate Ascending(s: seq<int>) {
    forall i, j :: 0 <= i < j < |s| ==> s[i] < s[j]
  }

  ghost predicate Within(s: seq<int>, low: int, high: int) {
    forall i :: 0 <= i < |s| ==> low < s[i] <= high
  }

  ghost predicate Pending(list: seq<int>, stored: int) {
    exists i :: 0 <= i < |list| && list[i] > stored
  }

  /** Successful migrations ascend from the stored version to the one stored next. */
  lemma {:induction false} MigrateSuccesses(list: seq<int>, i: nat, stored: int, fails: int -> bool)
    requires IsMigrationList(list) && i <= |list| && stored <= list[|list| - 1]
    ensures var s := MigrateFrom(list, i, stored, fails);
            && s.stored.Some? && stored <= s.stored.value <= list[|list| - 1]
            && Ascending(Successes(s.log)) && Within(Successes(s.log), stored, s.stored.value)
    decreases |list| - i
  {
    if i < |list| {
      if stored >= list[i] {
        MigrateSuccesses(list, i + 1, stored, fails);
      } else if fails(list[i]) {
        assert Successes([Attempt(list[i], false)]) == [];
      } else {
        MigrateSuccesses(list, i + 1, list[i], fails);
        var rest := MigrateFrom(list, i + 1, list[i], fails);
        var all := [Attempt(list[i], true)] + rest.log;
        assert all[1..] == rest.log && Successes(all) == [list[i]] + Successes(rest.log);
      }
    }
  }

  /** The attempt number `k` of a start-up comes after all earlier pending migrations succeeded. */
  lemma {:induction false} MigrateInOrder(list: seq<int>, i: nat, stored: int, fails: int -> bool, k: nat, m: int)
    requires IsMigrationList(list) && i <= |list|
    requires k < |MigrateFrom(list, i, stored, fails).log|
    requires m in list[i..] && stored < m < MigrateFrom(list, i, stored, fails).log[k].version
    ensures exists j :: 0 <= j < k && MigrateFrom(list, i, stored, fails).log[j] == Attempt(m, true)
    decreases |list| - i
  {
    var log := MigrateFrom(list, i, stored, fails).log;
    assert list[i..] == [list[i]] + list[i + 1..];
    if stored >= list[i] {
      MigrateInOrder(list, i + 1, stored, fails, k, m);
    } else {
      FirstIsSmallest(list, i, m);
      if !fails(list[i]) {
        if m == list[i] {
          assert log[0] == Attempt(m, true);
        } else {
          MigrateInOrder(list, i + 1, list[i], fails, k - 1, m);
          var rest := MigrateFrom(list, i + 1, list[i], fails).log;
          var j :| 0 <= j < k - 1 && rest[j] == Attempt(m, true);
          assert log[j + 1] == rest[j];
        }
      }
    }
  }

  lemma FirstIsSmallest(list: seq<int>, i: nat, m: int)
    requires IsMigrationList(list) && i < |list| && m in list[i..]
    ensures list[i] <= m
  {
    var j :| 0 <= j < |list[i..]| && list[i..][j] == m;
    assert list[i + j] == m;
  }

  // ----- Any number of start-ups -----

  function Runs(list: seq<int>, stored: Option<int>, failures: seq<int -> bool>): Started
    requires list != []
    decreases |failures|
  {
    if failures == [] then Started(stored, [])
    else
      var s := StartUp(list, stored, failures[0]);
      var rest := Runs(list, s.stored, failures[1..]);
      Started(rest.stored, s.log + rest.log)
  }

  lemma {:induction false} SuccessesConcat(a: seq<Attempt>, b: seq<Attempt>)
    ensures Successes(a + b) == Successes(a) + Successes(b)
  {
    if a == [] {
      assert a + b == b;
    } else {
      var first := if a[0].success then [a[0].version] else [];
      SuccessesConcat(a[1..], b);
      assert (a + b)[0] == a[0] && (a + b)[1..] == a[1..] + b;
      Regroup(first, Successes(a[1..]), Successes(b));
    }
  }

  lemma Regroup(a: seq<int>, b: seq<int>, c: seq<int>)
    ensures a + (b + c) == (a + b) + c
  {
  }

  /** Over any number of start-ups, whichever migrations fail on whichever attempt: the migrations
      that succeed are strictly ascending, so none succeeds twice, and the stored version never
      decreases nor passes the last one. */
  lemma {:induction false} NoMigrationSucceedsTwice(list: seq<int>, stored: int, failures: seq<int -> bool>)
    requires IsMigrationList(list) && stored <= list[|list| - 1]
    ensures var r := Runs(list, Some(stored), failures);
            && r.stored.Some? && stored <= r.stored.value <= list[|list| - 1]
            && Ascending(Successes(r.log)) && Within(Successes(r.log), stored, r.stored.value)
    decreases |failures|
  {
    if failures != [] {
      var s := StartUp(list, Some(stored), failures[0]);
      MigrateSuccesses(list, 0, stored, failures[0]);
      NoMigrationSucceedsTwice(list, s.stored.value, failures[1..]);
      SuccessesConcat(s.log, Runs(list, s.stored, failures[1..]).log);
    } else {
      assert Successes([]) == [];
    }
  }

  /** A start-up leaves nothing pending exactly when it stores the last version, and a version not
      above the last one is the last one exactly when nothing is pending. */
  lemma LastVersionIffNothingPending(list: seq<int>, stored: int)
    requires IsMigrationList(list) && stored <= list[|list| - 1]
    ensures stored == list[|list| - 1] <==> !Pending(list, stored)
  {
    assert forall i :: 0 <= i < |list| ==> list[i] <= list[|list| - 1];
  }

  /** A start-up in which no pending migration fails finishes: the last version is stored. */
  lemma {:induction false} MigrateFinishes(list: seq<int>, i: nat, stored: int, fails: int -> bool)
    requires IsMigrationList(list) && i <= |list| && stored <= list[|list| - 1]
    requires forall j :: 0 <= j < |list| && list[j] > stored ==> !fails(list[j])
    ensures MigrateFrom(list, i, stored, fails).stored == Some(list[|list| - 1])
    decreases |list| - i
  {
    if i < |list| {
      if stored >= list[i] {
        MigrateFinishes(list, i + 1, stored, fails);
      } else {
        MigrateFinishes(list, i + 1, list[i], fails);
      }
    }
  }

  /** None is attempted while an earlier pending one has not succeeded: neither in this start-up
      nor, since then it is below the stored version, in an earlier one. */
  lemma AttemptsInOrder(list: seq<int>, stored: int, fails: int -> bool, k: nat, m: int)
    requires IsMigrationList(list) && m in list
    requires k < |StartUp(list, Some(stored), fails).log|
    requires m < StartUp(list, Some(stored), fails).log[k].version
    ensures m <= stored || exists j :: 0 <= j < k && StartUp(list, Some(stored), fails).log[j] == Attempt(m, true)
  {
    if m > stored {
      assert list[0..] == list;
      MigrateInOrder(list, 0, stored, fails, k, m);
    }
  }

  /** Every migration between the version before and the version after a start-up succeeded in it. */
  lemma {:induction false} MigrateDone(list: seq<int>, i: nat, stored: int, fails: int -> bool, m: int)
    requires IsMigrationList(list) && i <= |list| && stored <= list[|list| - 1] && m in list[i..]
    requires MigrateFrom(list, i, stored, fails).stored.Some?
    requires stored < m <= MigrateFrom(list, i, stored, fails).stored.value
    ensures Attempt(m, true) in MigrateFrom(list, i, stored, fails).log
    decreases |list| - i
  {
    assert list[i..] == [list[i]] + list[i + 1..];
    if stored >= list[i] {
      MigrateDone(list, i + 1, stored, fails, m);
    } else if !fails(list[i]) && m != list[i] {
      FirstIsSmallest(list, i, m);
      MigrateDone(list, i + 1, list[i], fails, m);
    }
  }

  /** Over any number of start-ups: every migration up to the version stored at the end, above the
      one stored at first, has succeeded. */
  lemma {:induction false} StoredMeansDone(list: seq<int>, stored: int, failures: seq<int -> bool>, m: int)
    requires IsMigrationList(list) && stored <= list[|list| - 1] && m in list
    requires Runs(list, Some(stored), failures).stored.Some?
    requires stored < m <= Runs(list, Some(stored), failures).stored.value
    ensures Attempt(m, true) in Runs(list, Some(stored), failures).log
    decreases |failures|
  {
    if failures != [] {
      var s := StartUp(list, Some(stored), failures[0]);
      MigrateSuccesses(list, 0, stored, failures[0]);
      if m <= s.stored.value {
        assert list[0..] == list;
        MigrateDone(list, 0, stored, failures[0], m);
      } else {
        StoredMeansDone(list, s.stored.value, failures[1..], m);
      }
    }
  }

  /** Over any number of start-ups no migration is attempted while an earlier pending one has not
      succeeded: the success is already in the log. */
  lemma {:induction false} RunsInOrder(list: seq<int>, stored: int, failures: seq<int -> bool>, k: nat, m: int)
    requires IsMigrationList(list) && stored <= list[|list| - 1] && m in list
    requires k < |Runs(list, Some(stored), failures).log|
    requires stored < m < Runs(list, Some(stored), failures).log[k].version
    ensures Attempt(m, true) in Runs(list, Some(stored), failures).log[..k]
    decreases |failures|
  {
    var s := StartUp(list, Some(stored), failures[0]);
    var rest := Runs(list, s.stored, failures[1..]);
    var log := s.log + rest.log;
    if k < |s.log| {
      AttemptsInOrder(list, stored, failures[0], k, m);
      var j :| 0 <= j < k && s.log[j] == Attempt(m, true);
      assert log[..k][j] == Attempt(m, true);
    } else {
      MigrateSuccesses(list, 0, stored, failures[0]);
      assert log[..k] == s.log + rest.log[..k - |s.log|];
      if m <= s.stored.value {
        assert list[0..] == list;
        MigrateDone(list, 0, stored, failures[0], m);
      } else {
        RunsInOrder(list, s.stored.value, failures[1..], k - |s.log|, m);
      }
    }
  }

  lemma {:induction false} SuccessListed(log: seq<Attempt>, m: int)
    requires Attempt(m, true) in log
    ensures m in Successes(log)
  {
    if log[0] != Attempt(m, true) {
      assert log == [log[0]] + log[1..];
      SuccessListed(log[1..], m);
    }
  }

  /** The last version is reached exactly when every migration pending at first has succeeded. */
  lemma FinishedIff(list: seq<int>, stored: int, failures: seq<int -> bool>)
    requires IsMigrationList(list) && stored <= list[|list| - 1]
    ensures var r := Runs(list, Some(stored), failures);
            r.stored == Some(list[|list| - 1]) <==> forall m :: m in list && m > stored ==> Attempt(m, true) in r.log
  {
    hide Runs;
    var r, last := Runs(list, Some(stored), failures), list[|list| - 1];
    NoMigrationSucceedsTwice(list, stored, failures);
    if r.stored == Some(last) {
      forall m | m in list && m > stored ensures Attempt(m, true) in r.log {
        assert m <= last;
        StoredMeansDone(list, stored, failures, m);
      }
    } else if Attempt(last, true) in r.log {
      SuccessListed(r.log, last);
    }
  }

  /** Without a stored version no migration is ever attempted: the first start-up stores the last one. */
  lemma {:induction false} FreshStartMigratesNothing(list: seq<int>, failures: seq<int -> bool>)
    requires IsMigrationList(list) && failures != []
    ensures Runs(list, None, failures) == Started(Some(list[|list| - 1]), [])
  {
    NothingLeftToRun(list, failures[1..]);
  }

  lemma {:induction false} NothingLeftToRun(list: seq<int>, failures: seq<int -> bool>)
    requires IsMigrationList(list)
    ensures Runs(list, Some(list[|list| - 1]), failures) == Started(Some(list[|list| - 1]), [])
    decreases |failures|
  {
    if failures != [] {
      NothingToDo(list, 0, list[|list| - 1], failures[0]);
      NothingLeftToRun(list, failures[1..]);
    }
  }

  /** The stored version can only be lowered by starting up with one above the last. */
  lemma VersionKeptIff(list: seq<int>, stored: int, fails: int -> bool)
    requires IsMigrationList(list)
    ensures var s := StartUp(list, Some(stored), fails);
            s.stored.Some? && (s.stored.value >= stored <==> stored <= list[|list| - 1])
  {
    if stored <= list[|list| - 1] {
      MigrateSuccesses(list, 0, stored, fails);
    } else {
      NothingToDo(list, 0, stored, fails);
    }
  }

  lemma {:induction false} NothingToDo(list: seq<int>, i: nat, stored: int, fails: int -> bool)
    requires IsMigrationList(list) && i <= |list| && stored >= list[|list| - 1]
    ensures MigrateFrom(list, i, stored, fails) == Started(Some(list[|list| - 1]), [])
    decreases |list| - i
  {
    if i < |list| {
      NothingToDo(list, i + 1, stored, fails);
    }
  }
}
