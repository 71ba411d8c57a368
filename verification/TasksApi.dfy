/** The REST API's task methods as an object. Each method is one uninterrupted stretch of code and
    performs exactly the protocol action of that name. */
module TasksApi {
  import opened Common
  import opened Tasks

  class RestApi {
    var taskId: nat
    var taskResults: map<nat, Outcome>
    var greenlets: seq<Greenlet>
    var taskLock: Lock
    var handlers: seq<Handler>
    ghost var produced: map<nat, Outcome>
    ghost var written: set<nat>
    ghost var delivered: seq<nat>
    ghost var cancelled: set<nat>

    ghost function View(): State
      reads this
    {
      State(taskId, taskResults, greenlets, taskLock, handlers, produced, written, delivered, cancelled)
    }

    ghost predicate Valid()
      reads this
    {
      Inv(View())
    }

    constructor ()
      ensures Valid() && View() == INITIAL
    {
      taskId, taskResults, greenlets, taskLock, handlers := 0, map[], [], Free, [];
      produced, written, delivered, cancelled := map[], {}, [], {};
      new;
      InitialInv();
    }

    /** Takes a new id under the lock and lists a greenlet for it. */
    method QueryAsync() returns (id: nat)
      requires Valid() && Enabled(View(), Spawn)
      modifies this
      ensures Valid() && Reply(View(), Started(id)) == Next(old(View()), Spawn)
    {
      hide Inv;
      NextKeepsInv(View(), Spawn);
      id := taskId;
      taskId := taskId + 1;
      greenlets := greenlets + [Greenlet(id, Running)];
    }

    method CommandReturns(i: nat, payload: string)
      requires Valid() && Enabled(View(), Finish(i, payload))
      modifies this
      ensures Valid() && View() == Next(old(View()), Finish(i, payload)).state
    {
      hide Inv;
      NextKeepsInv(View(), Finish(i, payload));
      produced := produced[greenlets[i].id := Returned(payload)];
      greenlets := greenlets[i := greenlets[i].(status := Writing(Returned(payload)))];
    }

    /** Stores the result of a finished command, the last thing its greenlet does. */
    method WriteTaskResult(i: nat)
      requires Valid() && Enabled(View(), Write(i))
      modifies this
      ensures Valid() && View() == Next(old(View()), Write(i)).state
    {
      hide Inv;
      NextKeepsInv(View(), Write(i));
      var id, outcome := greenlets[i].id, greenlets[i].status.outcome;
      greenlets := greenlets[i := greenlets[i].(status := Dead)];
      taskResults := taskResults[id := outcome];
      written := written + {id};
    }

    /** A greenlet dies with an exception: its own, or the one it is killed with. */
    method GreenletDies(i: nat, a: Action)
      requires Valid() && Enabled(View(), a) && ((a.Die? && a.i == i) || a == Kill(i))
      modifies this
      ensures Valid() && View() == Next(old(View()), a).state
    {
      hide Inv;
      NextKeepsInv(View(), a);
      var outcome := if a.Die? then Died(a.message) else Killed;
      handlers := handlers + [Handler(greenlets[i].id, outcome)];
      produced := produced[greenlets[i].id := outcome];
      greenlets := greenlets[i := greenlets[i].(status := Dead)];
    }

    method GreenletExits(i: nat)
      requires Valid() && Enabled(View(), Exit(i))
      modifies this
      ensures Valid() && View() == Next(old(View()), Exit(i)).state
    {
      hide Inv;
      NextKeepsInv(View(), Exit(i));
      greenlets := greenlets[i := greenlets[i].(status := Dead)];
    }

    method HandleKilledGreenlet(k: nat)
      requires Valid() && Enabled(View(), Handle(k))
      modifies this
      ensures Valid() && View() == Next(old(View()), Handle(k)).state
    {
      hide Inv;
      NextKeepsInv(View(), Handle(k));
      var h := handlers[k];
      taskResults := taskResults[h.id := h.outcome];
      written := written + {h.id};
      handlers := handlers[..k] + handlers[k + 1..];
    }

    /** Scans the list for the task; a stored outcome is handed over and the task dropped. */
    method QueryTasksOutcome(id: nat) returns (response: Response)
      requires Valid() && Enabled(View(), Poll(id))
      modifies this
      ensures Valid() && Reply(View(), response) == Next(old(View()), Poll(id))
    {
      hide Inv;
      NextKeepsInv(View(), Poll(id));
      FindFirst(greenlets, id);
      var i := 0;
      while i < |greenlets|
        invariant 0 <= i <= Find(greenlets, id)
        invariant unchanged(this)
      {
        if greenlets[i].id == id {
          if id in taskResults {
            response := Completed(id, taskResults[id]);
            taskResults := taskResults - {id};
            greenlets := greenlets[..i] + greenlets[i + 1..];
            delivered := delivered + [id];
            return;
          }
          return Pending(id);
        }
        i := i + 1;
      }
      response := NotFound(id);
    }

    /** Without an id: every listed task is reported once, as completed or as pending. */
    method ListTasks() returns (pending: seq<nat>, completed: seq<nat>)
      ensures forall id :: id in completed <==> Listed(View(), id) && id in taskResults
      ensures forall id :: id in pending <==> Listed(View(), id) && id !in taskResults
      ensures |pending| + |completed| == |greenlets|
    {
      pending, completed := [], [];
      var i := 0;
      while i < |greenlets|
        invariant 0 <= i <= |greenlets| && |pending| + |completed| == i
        invariant forall j :: 0 <= j < i ==>
                    greenlets[j].id in if greenlets[j].id in taskResults then completed else pending
        invariant forall id :: id in completed ==> Listed(View(), id) && id in taskResults
        invariant forall id :: id in pending ==> Listed(View(), id) && id !in taskResults
      {
        var id := greenlets[i].id;
        ListedHere(View(), i);
        if id in taskResults {
          completed := completed + [id];
        } else {
          pending := pending + [id];
        }
        i := i + 1;
      }
    }

    /** Under the lock: finds the task alive and starts killing it, keeping the lock. */
    method DeleteAsyncTaskBegin(id: nat) returns (response: Response)
      requires Valid() && Enabled(View(), CancelBegin(id))
      modifies this
      ensures Valid() && Reply(View(), response) == Next(old(View()), CancelBegin(id))
    {
      hide Inv;
      NextKeepsInv(View(), CancelBegin(id));
      FindAliveFirst(greenlets, id);
      var i := 0;
      while i < |greenlets|
        invariant 0 <= i <= FindAlive(greenlets, id)
        invariant unchanged(this)
      {
        if !greenlets[i].status.Dead? && greenlets[i].id == id {
          taskLock := Cancelling(i, id);
          return CancelStarted(id);
        }
        i := i + 1;
      }
      response := NotFound(id);
    }

    /** Once the target is dead: releases the lock and drops the list entry at the index found. */
    method DeleteAsyncTaskEnd() returns (response: Response)
      requires Valid() && Enabled(View(), CancelEnd)
      modifies this
      ensures Valid() && Reply(View(), response) == Next(old(View()), CancelEnd)
    {
      hide Inv;
      NextKeepsInv(View(), CancelEnd);
      var i, id := taskLock.index, taskLock.id;
      taskLock := Free;
      greenlets := greenlets[..i] + greenlets[i + 1..];
      cancelled := cancelled + {id};
      response := CancelDone(id);
    }

    method LogoutClearsResults()
      requires Valid() && Enabled(View(), ClearResults)
      modifies this
      ensures Valid() && View() == Next(old(View()), ClearResults).state
    {
      hide Inv;
      NextKeepsInv(View(), ClearResults);
      taskResults := map[];
    }
  }
}
