/** The asynchronous task protocol of the REST API under cooperative scheduling: a greenlet runs
    until it waits for the task lock or for a greenlet it kills. Every action below is such an
    uninterrupted stretch of code. */
module Tasks {
  import opened Common

  datatype Outcome = Returned(payload: string) | Died(message: string) | Killed

  /** `Writing` greenlets have a result and wait for the task lock to store it. */
  datatype Status = Running | Writing(outcome: Outcome) | Dead

  datatype Greenlet = Greenlet(id: nat, status: Status)

  /** The lock is held across a switch only by a cancellation waiting for its target to die. */
  datatype Lock = Free | Cancelling(index: nat, id: nat)

  /** The result a greenlet's death handler is about to store. */
  datatype Handler = Handler(id: nat, outcome: Outcome)

  /** API state, and a history: what each task produced last, which tasks had a result stored,
      which results were delivered in which order, and which tasks were cancelled. */
  datatype State = State(nextId: nat, results: map<nat, Outcome>, tasks: seq<Greenlet>, lock: Lock,
                         handlers: seq<Handler>,
                         produced: map<nat, Outcome>, written: set<nat>, delivered: seq<nat>, cancelled: set<nat>)

  datatype Action =
    | Spawn                          // a request starts a task
    | Finish(i: nat, payload: string)  // the i-th listed task's command returns
    | Write(i: nat)                  // it stores its result and ends
    | Die(i: nat, message: string)   // its command raises
    | Kill(i: nat)                   // it is killed, by a cancellation or an address removal
    | Exit(i: nat)                   // logout or shutdown makes it exit silently
    | Handle(k: nat)                 // a death handler stores its result
    | Poll(id: nat)
    | CancelBegin(id: nat)           // find the task and start killing it
    | CancelEnd                      // it is dead: release the lock and drop it from the list
    | ClearResults                   // logout forgets all results

  datatype Response = Nothing | Started(id: nat) | Completed(id: nat, outcome: Outcome) | Pending(id: nat)
                    | NotFound(id: nat) | CancelStarted(id: nat) | CancelDone(id: nat)

  datatype Reply = Reply(state: State, response: Response)

  const INITIAL := State(0, map[], [], Free, [], map[], {}, [], {})

  /** Position of the first listed task with this id, or the length of the list. */
  function Find(tasks: seq<Greenlet>, id: nat): nat {
    if tasks == [] then 0 else if tasks[0].id == id then 0 else 1 + Find(tasks[1..], id)
  }

  /** The same among tasks that are not dead. */
  function FindAlive(tasks: seq<Greenlet>, id: nat): nat {
    if tasks == [] then 0
    else if tasks[0].status != Dead && tasks[0].id == id then 0
    else 1 + FindAlive(tasks[1..], id)
  }

  function Without<T>(s: seq<T>, i: nat): seq<T>
    requires i < |s|
  {
    s[..i] + s[i + 1..]
  }

  predicate Enabled(s: State, a: Action) {
    match a
    case Spawn => s.lock.Free?
    case Finish(i, _) => i < |s.tasks| && s.tasks[i].status.Running?
    case Write(i) => s.lock.Free? && i < |s.tasks| && s.tasks[i].status.Writing?
    case Die(i, _) => i < |s.tasks| && s.tasks[i].status.Running?
    case Kill(i) => i < |s.tasks| && !s.tasks[i].status.Dead?
    case Exit(i) => i < |s.tasks| && !s.tasks[i].status.Dead?
    case Handle(k) => s.lock.Free? && k < |s.handlers|
    case Poll(_) => s.lock.Free?
    case CancelBegin(_) => s.lock.Free?
    case CancelEnd => s.lock.Cancelling? && s.lock.index < |s.tasks| && s.tasks[s.lock.index].status.Dead?
    case ClearResults => s.lock.Free?
  }

  function SetStatus(s: State, i: nat, status: Status): State
    requires i < |s.tasks|
  {
    s.(tasks := s.tasks[i := s.tasks[i].(status := status)])
  }

  function Store(s: State, id: nat, outcome: Outcome): State {
    s.(results := s.results[id := outcome], written := s.written + {id})
  }

  /** A greenlet that dies with an exception gets a handler, which will need the lock. */
  function DieWith(s: State, i: nat, outcome: Outcome): State
    requires i < |s.tasks|
  {
    SetStatus(s, i, Dead).(handlers := s.handlers + [Handler(s.tasks[i].id, outcome)],
                           produced := s.produced[s.tasks[i].id := outcome])
  }

  function Next(s: State, a: Action): Reply
    requires Enabled(s, a)
  {
    match a
    case Spawn =>
      Reply(s.(nextId := s.nextId + 1, tasks := s.tasks + [Greenlet(s.nextId, Running)]), Started(s.nextId))
    case Finish(i, payload) =>
      Reply(SetStatus(s, i, Writing(Returned(payload))).(produced := s.produced[s.tasks[i].id := Returned(payload)]),
            Nothing)
    case Write(i) => Reply(Store(SetStatus(s, i, Dead), s.tasks[i].id, s.tasks[i].status.outcome), Nothing)
    case Die(i, message) => Reply(DieWith(s, i, Died(message)), Nothing)
    case Kill(i) => Reply(DieWith(s, i, Killed), Nothing)
    case Exit(i) => Reply(SetStatus(s, i, Dead), Nothing)
    case Handle(k) =>
      Reply(Store(s, s.handlers[k].id, s.handlers[k].outcome).(handlers := Without(s.handlers, k)), Nothing)
    case Poll(id) =>
      var i := Find(s.tasks, id);
      if i >= |s.tasks| then Reply(s, NotFound(id))
      else if id in s.results then
        Reply(s.(results := s.results - {id}, tasks := Without(s.tasks, i), delivered := s.delivered + [id]),
              Completed(id, s.results[id]))
      else Reply(s, Pending(id))
    case CancelBegin(id) =>
      var i := FindAlive(s.tasks, id);
      if i >= |s.tasks| then Reply(s, NotFound(id)) else Reply(s.(lock := Cancelling(i, id)), CancelStarted(id))
    case CancelEnd =>
      Reply(s.(lock := Free, tasks := Without(s.tasks, s.lock.index), cancelled := s.cancelled + {s.lock.id}),
            CancelDone(s.lock.id))
    case ClearResults => Reply(s.(results := map[]), Nothing)
  }

  // ----- Searching -----

  lemma {:induction false} FindFirst(tasks: seq<Greenlet>, id: nat)
    ensures var i := Find(tasks, id);
            && i <= |tasks| && (i < |tasks| ==> tasks[i].id == id)
            && forall j :: 0 <= j < i ==> tasks[j].id != id
  {
    if tasks != [] && tasks[0].id != id {
      FindFirst(tasks[1..], id);
      var i := Find(tasks, id);
      assert forall j :: 1 <= j < i ==> tasks[j] == tasks[1..][j - 1];
    }
  }

  lemma {:induction false} FindAliveFirst(tasks: seq<Greenlet>, id: nat)
    ensures var i := FindAlive(tasks, id);
            && i <= |tasks| && (i < |tasks| ==> tasks[i].id == id && !tasks[i].status.Dead?)
            && forall j :: 0 <= j < i ==> tasks[j].id != id || tasks[j].status.Dead?
  {
    if tasks != [] && !(tasks[0].status != Dead && tasks[0].id == id) {
      FindAliveFirst(tasks[1..], id);
      var i := FindAlive(tasks, id);
      assert forall j :: 1 <= j < i ==> tasks[j] == tasks[1..][j - 1];
    }
  }

  // ----- Invariant -----

  ghost predicate Listed(s: State, id: nat) {
    exists i :: 0 <= i < |s.tasks| && s.tasks[i].id == id
  }

  ghost predicate HandlerFor(s: State, id: nat) {
    exists k :: 0 <= k < |s.handlers| && s.handlers[k].id == id
  }

  /** Listed ids increase and were all handed out. */
  ghost predicate IdsInv(s: State) {
    Increasing(s.tasks, s.nextId)
  }

  ghost predicate Increasing(tasks: seq<Greenlet>, bound: nat) {
    && (forall i :: 0 <= i < |tasks| ==> tasks[i].id < bound)
    && (forall i, j :: 0 <= i < j < |tasks| ==> tasks[i].id < tasks[j].id)
  }

  /** A cancellation still points at the task it found, which has no result. */
  ghost predicate LockInv(s: State) {
    s.lock.Cancelling? ==>
      s.lock.index < |s.tasks| && s.tasks[s.lock.index].id == s.lock.id && s.lock.id !in s.written
  }

  /** Every id handed out is listed, delivered once, or cancelled, and only one of these. */
  ghost predicate PartitionInv(s: State) {
    && (forall id :: id in s.delivered || id in s.cancelled ==> id < s.nextId && !Listed(s, id))
    && (forall id: nat :: id < s.nextId ==> Listed(s, id) || id in s.delivered || id in s.cancelled)
    && (forall id :: id in s.delivered ==> id !in s.cancelled)
    && (forall i, j :: 0 <= i < j < |s.delivered| ==> s.delivered[i] != s.delivered[j])
  }

  /** A task has a result stored at most once, and only what it produced. */
  ghost predicate WriteInv(s: State) {
    && (forall i :: 0 <= i < |s.tasks| && !s.tasks[i].status.Dead? ==>
          s.tasks[i].id !in s.written && !HandlerFor(s, s.tasks[i].id))
    && (forall i :: 0 <= i < |s.tasks| && s.tasks[i].status.Writing? ==>
          s.tasks[i].id in s.produced && s.produced[s.tasks[i].id] == s.tasks[i].status.outcome)
    && (forall k :: 0 <= k < |s.handlers| ==> HandlerFine(s, s.handlers[k]))
    && (forall k, l :: 0 <= k < l < |s.handlers| ==> s.handlers[k].id != s.handlers[l].id)
    && (forall id :: id in s.results ==>
          id in s.written && id in s.produced && s.results[id] == s.produced[id])
    && (forall id :: id in s.written ==> id < s.nextId)
    && (forall id :: id in s.delivered ==> id in s.written && id !in s.results)
  }

  ghost predicate HandlerFine(s: State, h: Handler) {
    h.id < s.nextId && h.id !in s.written && h.id in s.produced && s.produced[h.id] == h.outcome
  }

  ghost predicate Inv(s: State) {
    IdsInv(s) && LockInv(s) && PartitionInv(s) && WriteInv(s)
  }

  lemma WithoutAt<T>(s: seq<T>, i: nat)
    requires i < |s|
    ensures |Without(s, i)| == |s| - 1
    ensures forall j :: 0 <= j < |s| - 1 ==> Without(s, i)[j] == if j < i then s[j] else s[j + 1]
  {
  }

  /** Dropping one task changes nothing about the others. */
  lemma ListedWithout(s: State, t: State, i: nat)
    requires IdsInv(s) && i < |s.tasks| && t.tasks == Without(s.tasks, i)
    ensures forall id: nat :: Listed(t, id) <==> Listed(s, id) && id != s.tasks[i].id
  {
    WithoutAt(s.tasks, i);
    forall id: nat ensures Listed(t, id) <==> Listed(s, id) && id != s.tasks[i].id {
      if Listed(s, id) && id != s.tasks[i].id {
        var j :| 0 <= j < |s.tasks| && s.tasks[j].id == id;
        assert t.tasks[if j < i then j else j - 1].id == id;
      }
      if Listed(t, id) {
        var j :| 0 <= j < |t.tasks| && t.tasks[j].id == id;
        assert s.tasks[if j < i then j else j + 1].id == id;
      }
    }
  }

  /** Changing a status leaves ids and places alone. */
  lemma SameList(s: State, t: State)
    requires |t.tasks| == |s.tasks| && forall i :: 0 <= i < |s.tasks| ==> t.tasks[i].id == s.tasks[i].id
    ensures forall id: nat :: Listed(t, id) <==> Listed(s, id)
  {
    forall id: nat ensures Listed(t, id) <==> Listed(s, id) {
      if Listed(s, id) {
        var i :| 0 <= i < |s.tasks| && s.tasks[i].id == id;
        assert t.tasks[i].id == id;
      }
      if Listed(t, id) {
        var i :| 0 <= i < |t.tasks| && t.tasks[i].id == id;
        assert s.tasks[i].id == id;
      }
    }
  }

  lemma IncreasingWithout(tasks: seq<Greenlet>, bound: nat, i: nat)
    requires Increasing(tasks, bound) && i < |tasks|
    ensures Increasing(Without(tasks, i), bound)
  {
    WithoutAt(tasks, i);
    hide Without;
  }

  lemma IncreasingStatus(tasks: seq<Greenlet>, bound: nat, i: nat, status: Status)
    requires Increasing(tasks, bound) && i < |tasks|
    ensures Increasing(tasks[i := tasks[i].(status := status)], bound)
  {
  }

  lemma NextKeepsIds(s: State, a: Action)
    requires Inv(s) && Enabled(s, a)
    ensures IdsInv(Next(s, a).state) && LockInv(Next(s, a).state)
  {
    hide PartitionInv, WriteInv, Find, FindAlive, Without, Increasing;
    match a
    case Spawn => IncreasingSpawn(s.tasks, s.nextId);
    case Finish(i, payload) => IncreasingStatus(s.tasks, s.nextId, i, Writing(Returned(payload)));
    case Write(i) => IncreasingStatus(s.tasks, s.nextId, i, Dead);
    case Die(i, _) => IncreasingStatus(s.tasks, s.nextId, i, Dead);
    case Kill(i) => IncreasingStatus(s.tasks, s.nextId, i, Dead);
    case Exit(i) => IncreasingStatus(s.tasks, s.nextId, i, Dead);
    case Poll(id) =>
      FindFirst(s.tasks, id);
      if Find(s.tasks, id) < |s.tasks| {
        IncreasingWithout(s.tasks, s.nextId, Find(s.tasks, id));
      }
    case CancelBegin(id) =>
      FindAliveFirst(s.tasks, id);
      if FindAlive(s.tasks, id) < |s.tasks| {
        AliveUnwritten(s, FindAlive(s.tasks, id));
      }
    case CancelEnd => IncreasingWithout(s.tasks, s.nextId, s.lock.index);
    case Handle(k) =>
    case ClearResults =>
  }

  lemma AliveUnwritten(s: State, i: nat)
    requires WriteInv(s) && i < |s.tasks| && !s.tasks[i].status.Dead?
    ensures s.tasks[i].id !in s.written
  {
  }

  lemma IncreasingSpawn(tasks: seq<Greenlet>, bound: nat)
    requires Increasing(tasks, bound)
    ensures Increasing(tasks + [Greenlet(bound, Running)], bound + 1)
  {
  }

  lemma NextKeepsPartition(s: State, a: Action)
    requires Inv(s) && Enabled(s, a)
    ensures PartitionInv(Next(s, a).state)
  {
    hide PartitionInv, WriteInv, Find, FindAlive, Listed, Without;
    var t := Next(s, a).state;
    match a
    case Spawn => PartitionSpawn(s, t);
    case Poll(id) =>
      FindFirst(s.tasks, id);
      var i := Find(s.tasks, id);
      if i < |s.tasks| && id in s.results {
        PartitionDrop(s, t, i);
      }
    case CancelEnd => PartitionDrop(s, t, s.lock.index);
    case _ => PartitionSame(s, t);
  }

  lemma PartitionSame(s: State, t: State)
    requires PartitionInv(s) && t.nextId == s.nextId && t.delivered == s.delivered && t.cancelled == s.cancelled
    requires |t.tasks| == |s.tasks| && forall i :: 0 <= i < |s.tasks| ==> t.tasks[i].id == s.tasks[i].id
    ensures PartitionInv(t)
  {
    hide Listed;
    SameList(s, t);
  }

  lemma PartitionSpawn(s: State, t: State)
    requires IdsInv(s) && PartitionInv(s) && t.delivered == s.delivered && t.cancelled == s.cancelled
    requires t.nextId == s.nextId + 1 && t.tasks == s.tasks + [Greenlet(s.nextId, Running)]
    ensures PartitionInv(t)
  {
    hide Listed;
    ListedSpawn(s, t);
  }

  /** The task that leaves the list was either delivered or cancelled. */
  lemma PartitionDrop(s: State, t: State, i: nat)
    requires IdsInv(s) && PartitionInv(s) && i < |s.tasks|
    requires t.nextId == s.nextId && t.tasks == Without(s.tasks, i)
    requires || (t.delivered == s.delivered + [s.tasks[i].id] && t.cancelled == s.cancelled)
             || (t.delivered == s.delivered && t.cancelled == s.cancelled + {s.tasks[i].id})
    ensures PartitionInv(t)
  {
    hide Listed;
    ListedWithout(s, t, i);
    ListedHere(s, i);
  }

  lemma ListedHere(s: State, i: nat)
    requires i < |s.tasks|
    ensures Listed(s, s.tasks[i].id)
  {
  }

  lemma ListedSpawn(s: State, t: State)
    requires IdsInv(s) && t.tasks == s.tasks + [Greenlet(s.nextId, Running)]
    ensures forall id: nat :: Listed(t, id) <==> Listed(s, id) || id == s.nextId
  {
    forall id: nat ensures Listed(t, id) <==> Listed(s, id) || id == s.nextId {
      if Listed(s, id) {
        var i :| 0 <= i < |s.tasks| && s.tasks[i].id == id;
        assert t.tasks[i].id == id;
      }
      assert t.tasks[|s.tasks|].id == s.nextId;
    }
  }

  lemma HandlersAppend(s: State, t: State, h: Handler)
    requires t.handlers == s.handlers + [h]
    ensures forall id: nat :: HandlerFor(t, id) <==> HandlerFor(s, id) || id == h.id
  {
    forall id: nat ensures HandlerFor(t, id) <==> HandlerFor(s, id) || id == h.id {
      if HandlerFor(s, id) {
        var k :| 0 <= k < |s.handlers| && s.handlers[k].id == id;
        assert t.handlers[k].id == id;
      }
      assert t.handlers[|s.handlers|].id == h.id;
    }
  }

  lemma DieKeepsWrites(s: State, i: nat, outcome: Outcome)
    requires Inv(s) && i < |s.tasks| && !s.tasks[i].status.Dead?
    ensures WriteInv(DieWith(s, i, outcome))
  {
    hide PartitionInv, HandlerFor;
    var t := DieWith(s, i, outcome);
    HandlersAppend(s, t, Handler(s.tasks[i].id, outcome));
    NoHandler(s, s.tasks[i].id);
    forall k | 0 <= k < |t.handlers| ensures HandlerFine(t, t.handlers[k]) {
      if k < |s.handlers| {
        assert HandlerFine(s, s.handlers[k]);
      }
    }
  }

  lemma NoHandler(s: State, id: nat)
    requires !HandlerFor(s, id)
    ensures forall k :: 0 <= k < |s.handlers| ==> s.handlers[k].id != id
  {
  }

  lemma HandlersWithout(s: State, t: State, k: nat)
    requires k < |s.handlers| && t.handlers == Without(s.handlers, k)
    ensures forall id: nat :: HandlerFor(t, id) ==> HandlerFor(s, id)
  {
    WithoutAt(s.handlers, k);
    forall id: nat | HandlerFor(t, id) ensures HandlerFor(s, id) {
      var l :| 0 <= l < |t.handlers| && t.handlers[l].id == id;
      assert s.handlers[if l < k then l else l + 1].id == id;
    }
  }

  lemma HandleKeepsWrites(s: State, k: nat)
    requires Inv(s) && s.lock.Free? && k < |s.handlers|
    ensures WriteInv(Next(s, Handle(k)).state)
  {
    hide PartitionInv, LockInv, IdsInv, HandlerFor;
    var t := Next(s, Handle(k)).state;
    var h := s.handlers[k];
    assert HandlerFine(s, h);
    WithoutAt(s.handlers, k);
    HandlersWithout(s, t, k);
    HandlerHere(s, k);
    forall l | 0 <= l < |t.handlers| ensures HandlerFine(t, t.handlers[l]) {
      var m := if l < k then l else l + 1;
      assert HandlerFine(s, s.handlers[m]);
      assert s.handlers[m].id != s.handlers[k].id;
    }
  }

  lemma HandlerHere(s: State, k: nat)
    requires k < |s.handlers|
    ensures HandlerFor(s, s.handlers[k].id)
  {
  }

  lemma HandlersSame(s: State, t: State)
    requires t.handlers == s.handlers
    ensures forall id: nat :: HandlerFor(t, id) <==> HandlerFor(s, id)
  {
  }

  lemma DropKeepsWrites(s: State, i: nat, t: State)
    requires Inv(s) && i < |s.tasks| && t.tasks == Without(s.tasks, i)
    requires t.handlers == s.handlers && t.produced == s.produced && t.written == s.written && t.nextId == s.nextId
    requires forall id :: id in t.results ==> id in s.results && t.results[id] == s.results[id]
    requires forall id :: id in t.delivered ==> id in t.written && id !in t.results
    ensures WriteInv(t)
  {
    hide PartitionInv, HandlerFor, LockInv;
    WithoutAt(s.tasks, i);
    HandlersSame(s, t);
    forall k | 0 <= k < |t.handlers| ensures HandlerFine(t, t.handlers[k]) {
      assert HandlerFine(s, s.handlers[k]);
    }
  }

  lemma WriteKeepsWrites(s: State, i: nat)
    requires Inv(s) && Enabled(s, Write(i))
    ensures WriteInv(Next(s, Write(i)).state)
  {
    hide PartitionInv, HandlerFor, LockInv;
    var t := Next(s, Write(i)).state;
    HandlersSame(s, t);
    NoHandler(s, s.tasks[i].id);
    forall k | 0 <= k < |t.handlers| ensures HandlerFine(t, t.handlers[k]) {
      assert HandlerFine(s, s.handlers[k]);
    }
    NotDelivered(s, i);
  }

  lemma NotDelivered(s: State, i: nat)
    requires PartitionInv(s) && i < |s.tasks|
    ensures s.tasks[i].id !in s.delivered
  {
    ListedHere(s, i);
  }

  lemma StatusKeepsWrites(s: State, a: Action)
    requires Inv(s) && Enabled(s, a) && (a.Spawn? || a.Finish? || a.Exit? || a.ClearResults?)
    ensures WriteInv(Next(s, a).state)
  {
    hide PartitionInv, HandlerFor, LockInv, WriteInv, IdsInv;
    match a {
      case Spawn => SpawnKeepsWrites(s);
      case Finish(i, _) => FinishKeepsWrites(s, a);
      case _ => QuietKeepsWrites(s, a);
    }
  }

  lemma SpawnKeepsWrites(s: State)
    requires Inv(s) && Enabled(s, Spawn)
    ensures WriteInv(Next(s, Spawn).state)
  {
    hide PartitionInv, HandlerFor, LockInv;
    HandlersSame(s, Next(s, Spawn).state);
    FreshId(s);
    assert forall k :: 0 <= k < |s.handlers| ==> HandlerFine(s, s.handlers[k]);
  }

  lemma FinishKeepsWrites(s: State, a: Action)
    requires Inv(s) && Enabled(s, a) && a.Finish?
    ensures WriteInv(Next(s, a).state)
  {
    hide PartitionInv, HandlerFor, LockInv;
    HandlersSame(s, Next(s, a).state);
    NoHandler(s, s.tasks[a.i].id);
    assert forall k :: 0 <= k < |s.handlers| ==> HandlerFine(s, s.handlers[k]);
  }

  lemma QuietKeepsWrites(s: State, a: Action)
    requires Inv(s) && Enabled(s, a) && (a.Exit? || a.ClearResults?)
    ensures WriteInv(Next(s, a).state)
  {
    hide PartitionInv, HandlerFor, LockInv;
    HandlersSame(s, Next(s, a).state);
    assert forall k :: 0 <= k < |s.handlers| ==> HandlerFine(s, s.handlers[k]);
  }

  lemma FreshId(s: State)
    requires WriteInv(s)
    ensures !HandlerFor(s, s.nextId) && s.nextId !in s.written
  {
    assert forall k :: 0 <= k < |s.handlers| ==> HandlerFine(s, s.handlers[k]);
  }

  lemma NextKeepsWrites(s: State, a: Action)
    requires Inv(s) && Enabled(s, a)
    ensures WriteInv(Next(s, a).state)
  {
    hide WriteInv, PartitionInv, Find, FindAlive, IdsInv, LockInv;
    match a
    case Write(i) => WriteKeepsWrites(s, i);
    case Die(i, message) => DieKeepsWrites(s, i, Died(message));
    case Kill(i) => DieKeepsWrites(s, i, Killed);
    case Handle(k) => HandleKeepsWrites(s, k);
    case Poll(id) => PollKeepsWrites(s, id);
    case CancelBegin(id) => CancelKeepsWrites(s, a);
    case CancelEnd => CancelKeepsWrites(s, a);
    case _ => StatusKeepsWrites(s, a);
  }

  lemma PollKeepsWrites(s: State, id: nat)
    requires Inv(s) && s.lock.Free?
    ensures WriteInv(Next(s, Poll(id)).state)
  {
    hide PartitionInv, Find;
    var t := Next(s, Poll(id)).state;
    FindFirst(s.tasks, id);
    if Find(s.tasks, id) < |s.tasks| && id in s.results {
      DropKeepsWrites(s, Find(s.tasks, id), t);
    }
  }

  lemma CancelKeepsWrites(s: State, a: Action)
    requires Inv(s) && Enabled(s, a) && (a.CancelBegin? || a.CancelEnd?)
    ensures WriteInv(Next(s, a).state)
  {
    hide PartitionInv, FindAlive;
    var t := Next(s, a).state;
    if a.CancelEnd? {
      DropKeepsWrites(s, s.lock.index, t);
    } else {
      HandlersSame(s, t);
      forall k | 0 <= k < |t.handlers| ensures HandlerFine(t, t.handlers[k]) {
        assert HandlerFine(s, s.handlers[k]);
      }
    }
  }

  /** Every action keeps the invariant. */
  lemma NextKeepsInv(s: State, a: Action)
    requires Inv(s) && Enabled(s, a)
    ensures Inv(Next(s, a).state)
  {
    hide IdsInv, LockInv, PartitionInv, WriteInv, Next;
    NextKeepsIds(s, a);
    NextKeepsPartition(s, a);
    NextKeepsWrites(s, a);
  }

  // ----- Runs -----

  ghost predicate CanRun(s: State, run: seq<Action>)
    decreases |run|
  {
    run != [] ==> Enabled(s, run[0]) && CanRun(Next(s, run[0]).state, run[1..])
  }

  ghost function After(s: State, run: seq<Action>): State
    requires CanRun(s, run)
    decreases |run|
  {
    if run == [] then s else After(Next(s, run[0]).state, run[1..])
  }

  ghost function Responses(s: State, run: seq<Action>): seq<Response>
    requires CanRun(s, run)
    decreases |run|
  {
    if run == [] then [] else [Next(s, run[0]).response] + Responses(Next(s, run[0]).state, run[1..])
  }

  /** In every interleaving, from the first request on, the invariant holds. */
  lemma {:induction false} RunKeepsInv(s: State, run: seq<Action>)
    requires Inv(s) && CanRun(s, run)
    ensures Inv(After(s, run))
    decreases |run|
  {
    hide Inv, Next, Enabled;
    if run != [] {
      NextKeepsInv(s, run[0]);
      RunKeepsInv(Next(s, run[0]).state, run[1..]);
    }
  }

  lemma InitialInv()
    ensures Inv(INITIAL)
  {
    assert forall id: nat :: !Listed(INITIAL, id);
  }

  /** A task that left the list is gone. */
  ghost predicate Gone(s: State, id: nat) {
    id < s.nextId && !Listed(s, id)
  }

  lemma GoneStays(s: State, a: Action, id: nat)
    requires Inv(s) && Enabled(s, a) && Gone(s, id)
    ensures Gone(Next(s, a).state, id)
    ensures a == Poll(id) || a == CancelBegin(id) ==> Next(s, a).response == NotFound(id)
    ensures forall o: Outcome :: Next(s, a).response != Completed(id, o)
  {
    hide Listed, PartitionInv, WriteInv, Find, FindAlive;
    var t := Next(s, a).state;
    match a
    case Spawn => ListedSpawn(s, t);
    case Poll(other) =>
      FindFirst(s.tasks, other);
      var i := Find(s.tasks, other);
      if i < |s.tasks| {
        ListedHere(s, i);
        if other in s.results {
          ListedWithout(s, t, i);
        }
      }
    case CancelBegin(other) =>
      FindAliveFirst(s.tasks, other);
      SameList(s, t);
      if FindAlive(s.tasks, other) < |s.tasks| {
        ListedHere(s, FindAlive(s.tasks, other));
      }
    case CancelEnd => ListedWithout(s, t, s.lock.index);
    case _ => SameList(s, t);
  }

  /** After its outcome was delivered or it was cancelled, an id answers not-found forever. */
  lemma {:induction false} GoneForever(s: State, run: seq<Action>, id: nat)
    requires Inv(s) && CanRun(s, run) && Gone(s, id)
    ensures Gone(After(s, run), id)
    ensures forall i :: 0 <= i < |run| && (run[i] == Poll(id) || run[i] == CancelBegin(id)) ==>
              i < |Responses(s, run)| && Responses(s, run)[i] == NotFound(id)
    ensures forall i, o: Outcome :: 0 <= i < |Responses(s, run)| ==> Responses(s, run)[i] != Completed(id, o)
    decreases |run|
  {
    hide Inv, Next, Enabled, Gone;
    if run != [] {
      var t := Next(s, run[0]).state;
      NextKeepsInv(s, run[0]);
      GoneStays(s, run[0], id);
      GoneForever(t, run[1..], id);
      var all, rest := Responses(s, run), Responses(t, run[1..]);
      assert forall i :: 1 <= i < |run| ==> run[i] == run[1..][i - 1];
      assert forall i :: 1 <= i < |all| ==> all[i] == rest[i - 1];
    }
  }

  /** Delivering an outcome: it is what that task produced, it was stored for that id, and the
      task leaves the list. */
  lemma DeliveryIsOwnOutcome(s: State, a: Action)
    requires Inv(s) && Enabled(s, a) && Next(s, a).response.Completed?
    ensures var id := Next(s, a).response.id;
            && a == Poll(id) && id in s.written && id in s.produced
            && Next(s, a).response.outcome == s.produced[id]
            && Gone(Next(s, a).state, id)
  {
    hide Listed, PartitionInv, FindAlive, Find;
    var id := Next(s, a).response.id;
    FindFirst(s.tasks, id);
    ListedWithout(s, Next(s, a).state, Find(s.tasks, id));
  }

  /** Each outcome is delivered at most once in every interleaving. */
  lemma {:induction false} DeliveredOnce(s: State, run: seq<Action>, i: nat, j: nat)
    requires Inv(s) && CanRun(s, run) && i < j < |Responses(s, run)|
    requires Responses(s, run)[i].Completed? && Responses(s, run)[j].Completed?
    ensures Responses(s, run)[i].id != Responses(s, run)[j].id
    decreases |run|
  {
    hide Inv, Next, Enabled, Gone;
    if run != [] {
      var t := Next(s, run[0]).state;
      NextKeepsInv(s, run[0]);
      if i > 0 {
        DeliveredOnce(t, run[1..], i - 1, j - 1);
      } else {
        DeliveryIsOwnOutcome(s, run[0]);
        GoneForever(t, run[1..], Responses(s, run)[0].id);
      }
    }
  }

  /** Task ids are never reused: every id started in a run is new, and later ones are larger. */
  lemma {:induction false} IdsNeverReused(s: State, run: seq<Action>, i: nat)
    requires CanRun(s, run) && i < |Responses(s, run)| && Responses(s, run)[i].Started?
    ensures Responses(s, run)[i].id >= s.nextId
    ensures forall j :: i < j < |Responses(s, run)| && Responses(s, run)[j].Started? ==>
              Responses(s, run)[i].id < Responses(s, run)[j].id
    decreases |run|
  {
    hide Enabled;
    if run != [] {
      var t := Next(s, run[0]).state;
      var all, rest := Responses(s, run), Responses(t, run[1..]);
      assert forall j :: 1 <= j < |all| ==> all[j] == rest[j - 1];
      if i > 0 {
        IdsNeverReused(t, run[1..], i - 1);
        forall j | i < j < |all| && all[j].Started? ensures all[i].id < all[j].id {
          assert all[j] == rest[j - 1];
        }
      } else {
        forall j | 0 < j < |all| && all[j].Started? ensures all[0].id < all[j].id {
          assert all[j] == rest[j - 1];
          IdsNeverReused(t, run[1..], j - 1);
        }
      }
    }
  }

  // ----- Requests are answered -----

  /** A poll of a listed task delivers what the task produced if its result is stored, and answers
      pending otherwise; a poll of any other id answers not-found. */
  lemma PollAnswers(s: State, id: nat)
    requires Inv(s) && s.lock.Free?
    ensures Next(s, Poll(id)).response ==
            if !Listed(s, id) then NotFound(id)
            else if id in s.results then Completed(id, s.produced[id])
            else Pending(id)
  {
    hide PartitionInv, IdsInv;
    FindFirst(s.tasks, id);
    if Listed(s, id) {
      ListedIndex(s, id);
    }
  }

  /** Cancelling starts exactly for a listed task that is alive. */
  lemma CancelAnswers(s: State, id: nat)
    requires Inv(s) && s.lock.Free?
    ensures Next(s, CancelBegin(id)).response ==
            if exists i :: 0 <= i < |s.tasks| && s.tasks[i].id == id && !s.tasks[i].status.Dead?
            then CancelStarted(id) else NotFound(id)
  {
    hide Inv;
    FindAliveFirst(s.tasks, id);
  }

  /** A cancellation that holds the lock is never stuck: its target is dead and the cancellation can
      end, or the target can still be killed, after which it can. */
  lemma CancelCanEnd(s: State)
    requires Inv(s) && s.lock.Cancelling?
    ensures Enabled(s, CancelEnd) ||
            (Enabled(s, Kill(s.lock.index)) && Enabled(Next(s, Kill(s.lock.index)).state, CancelEnd))
  {
    hide PartitionInv, WriteInv, IdsInv;
  }

  ghost predicate Deliverable(s: State, id: nat, outcome: Outcome) {
    Listed(s, id) && id in s.results && s.results[id] == outcome
  }

  lemma DeliverableStays(s: State, a: Action, id: nat, outcome: Outcome)
    requires Inv(s) && Enabled(s, a) && Deliverable(s, id, outcome) && a != Poll(id) && !a.ClearResults?
    ensures Deliverable(Next(s, a).state, id, outcome)
  {
    hide Listed, PartitionInv, Find, FindAlive, HandlerFor, IdsInv;
    var t := Next(s, a).state;
    InvParts(s);
    match a
    case Spawn => ListedSpawn(s, t);
    case Write(i) =>
      AliveUnwritten(s, i);
      SameList(s, t);
    case Handle(k) =>
      HandlerUnwritten(s, k);
      SameList(s, t);
    case Poll(other) =>
      FindFirst(s.tasks, other);
      if Find(s.tasks, other) < |s.tasks| && other in s.results {
        ListedWithout(s, t, Find(s.tasks, other));
      }
    case CancelEnd => ListedWithout(s, t, s.lock.index);
    case _ => SameList(s, t);
  }

  lemma HandlerUnwritten(s: State, k: nat)
    requires WriteInv(s) && k < |s.handlers|
    ensures s.handlers[k].id !in s.written
  {
    assert HandlerFine(s, s.handlers[k]);
  }

  lemma {:induction false} DeliverableUntilPolled(s: State, run: seq<Action>, id: nat, outcome: Outcome)
    requires Inv(s) && CanRun(s, run) && Deliverable(s, id, outcome)
    requires forall i :: 0 <= i < |run| ==> run[i] != Poll(id) && !run[i].ClearResults?
    ensures Inv(After(s, run)) && Deliverable(After(s, run), id, outcome)
    decreases |run|
  {
    hide Inv, Next, Enabled, Deliverable;
    if run != [] {
      NextKeepsInv(s, run[0]);
      DeliverableStays(s, run[0], id, outcome);
      DeliverableUntilPolled(Next(s, run[0]).state, run[1..], id, outcome);
    }
  }

  /** The result a step stores, if it stores one. */
  ghost predicate Stores(s: State, a: Action, id: nat, outcome: Outcome)
    requires Enabled(s, a)
  {
    || (a.Write? && s.tasks[a.i] == Greenlet(id, Writing(outcome)))
    || (a.Handle? && s.handlers[a.k] == Handler(id, outcome))
  }

  lemma StoredForDelivery(s: State, a: Action, id: nat, outcome: Outcome)
    requires Inv(s) && Enabled(s, a) && Stores(s, a, id, outcome) && Listed(s, id)
    ensures Deliverable(Next(s, a).state, id, outcome)
  {
    hide Inv, Listed;
    SameList(s, Next(s, a).state);
  }

  /** Every outcome reaches whoever asks for it: once the result of a listed task is stored, by the
      task or by its death handler, the next poll of its id delivers that outcome, whatever other
      steps are taken in between, unless logout forgets the results. */
  lemma StoredIsDelivered(s: State, a: Action, id: nat, outcome: Outcome, run: seq<Action>)
    requires Inv(s) && Enabled(s, a) && Stores(s, a, id, outcome) && Listed(s, id)
    requires CanRun(Next(s, a).state, run)
    requires forall i :: 0 <= i < |run| ==> run[i] != Poll(id) && !run[i].ClearResults?
    requires After(Next(s, a).state, run).lock.Free?
    ensures Next(After(Next(s, a).state, run), Poll(id)).response == Completed(id, outcome)
  {
    hide Inv, Next, Enabled, Deliverable, Listed, Stores;
    var t := Next(s, a).state;
    NextKeepsInv(s, a);
    StoredForDelivery(s, a, id, outcome);
    DeliverableUntilPolled(t, run, id, outcome);
    PollDelivers(After(t, run), id, outcome);
  }

  lemma PollDelivers(s: State, id: nat, outcome: Outcome)
    requires Inv(s) && s.lock.Free? && Deliverable(s, id, outcome)
    ensures Enabled(s, Poll(id)) && Next(s, Poll(id)).response == Completed(id, outcome)
  {
    hide PartitionInv, IdsInv;
    PollAnswers(s, id);
  }

  /** A task that stopped running can only be delivered with one outcome, or as killed. */
  ghost predicate Settled(s: State, id: nat, outcome: Outcome) {
    && id < s.nextId && id in s.produced && (s.produced[id] == outcome || s.produced[id] == Killed)
    && forall i :: 0 <= i < |s.tasks| && s.tasks[i].id == id ==> !s.tasks[i].status.Running?
  }

  /** What a command returned, the error it died with, or that it was killed, is what its task is
      settled with. */
  lemma EndSettles(s: State, a: Action)
    requires Inv(s) && Enabled(s, a) && (a.Finish? || a.Die? || a.Kill?)
    ensures Settled(Next(s, a).state, s.tasks[a.i].id,
                    if a.Finish? then Returned(a.payload) else if a.Die? then Died(a.message) else Killed)
  {
    hide PartitionInv, WriteInv;
  }

  lemma SettledStays(s: State, a: Action, id: nat, outcome: Outcome)
    requires Inv(s) && Enabled(s, a) && Settled(s, id, outcome)
    ensures Settled(Next(s, a).state, id, outcome)
  {
    hide PartitionInv, WriteInv, Find, FindAlive, Inv;
    match a
    case Poll(other) =>
      FindFirst(s.tasks, other);
      if Find(s.tasks, other) < |s.tasks| {
        WithoutAt(s.tasks, Find(s.tasks, other));
      }
    case CancelEnd => WithoutAt(s.tasks, s.lock.index);
    case _ =>
  }

  /** In every run after a command returned or raised, whatever is delivered for its task is exactly
      that, or that it was killed. */
  lemma {:induction false} SettledForever(s: State, run: seq<Action>, id: nat, outcome: Outcome)
    requires Inv(s) && CanRun(s, run) && Settled(s, id, outcome)
    ensures Settled(After(s, run), id, outcome)
    ensures forall i, o: Outcome :: 0 <= i < |Responses(s, run)| && Responses(s, run)[i] == Completed(id, o) ==>
              o == outcome || o == Killed
    decreases |run|
  {
    hide Inv, Next, Enabled, Settled;
    if run != [] {
      var t := Next(s, run[0]).state;
      NextKeepsInv(s, run[0]);
      SettledStays(s, run[0], id, outcome);
      SettledAnswer(s, run[0], id, outcome);
      SettledForever(t, run[1..], id, outcome);
      var all, rest := Responses(s, run), Responses(t, run[1..]);
      assert forall i :: 1 <= i < |all| ==> all[i] == rest[i - 1];
    }
  }

  lemma SettledAnswer(s: State, a: Action, id: nat, outcome: Outcome)
    requires Inv(s) && Enabled(s, a) && Settled(s, id, outcome)
    ensures forall o: Outcome :: Next(s, a).response == Completed(id, o) ==> o == outcome || o == Killed
  {
    hide Inv, Next, Enabled;
    if Next(s, a).response.Completed? {
      DeliveryIsOwnOutcome(s, a);
    }
  }

  // ----- Cancellation -----

  /** While a cancellation waits, nobody changes the order of the list. */
  lemma {:induction false} CancelTargetStays(s: State, run: seq<Action>)
    requires Inv(s) && s.lock.Cancelling? && CanRun(s, run)
    requires forall i :: 0 <= i < |run| ==> run[i] != CancelEnd
    ensures var t := After(s, run);
            && t.lock == s.lock && |t.tasks| == |s.tasks|
            && forall i :: 0 <= i < |s.tasks| ==> t.tasks[i].id == s.tasks[i].id
    decreases |run|
  {
    hide Inv, IdsInv, LockInv, PartitionInv, WriteInv, Find, FindAlive;
    if run != [] {
      NextKeepsInv(s, run[0]);
      CancelTargetStays(Next(s, run[0]).state, run[1..]);
    }
  }

  /** From finding the task to dropping it by index after the lock is released, whatever runs in
      between: the task dropped is the one found, it is dead, and no other task leaves the list. */
  lemma CancelDropsItsTarget(s: State, id: nat, run: seq<Action>)
    requires Inv(s) && s.lock.Free? && Next(s, CancelBegin(id)).response == CancelStarted(id)
    requires CanRun(Next(s, CancelBegin(id)).state, run)
    requires forall i :: 0 <= i < |run| ==> run[i] != CancelEnd
    requires Enabled(After(Next(s, CancelBegin(id)).state, run), CancelEnd)
    ensures var k := FindAlive(s.tasks, id);
            var before := After(Next(s, CancelBegin(id)).state, run);
            var after := Next(before, CancelEnd);
            && k < |s.tasks| && s.tasks[k].id == id
            && after.response == CancelDone(id)
            && k < |before.tasks| && before.tasks[k].id == id && before.tasks[k].status.Dead?
            && (forall other: nat :: Listed(after.state, other) <==> Listed(s, other) && other != id)
  {
    hide PartitionInv, WriteInv, FindAlive;
    var t := Next(s, CancelBegin(id)).state;
    NextKeepsInv(s, CancelBegin(id));
    FindAliveFirst(s.tasks, id);
    CancelTargetStays(t, run);
    RunKeepsInv(t, run);
    var before := After(t, run);
    SameList(s, before);
    ListedWithout(before, Next(before, CancelEnd).state, before.lock.index);
  }

  // ----- After logout -----

  /** A listed task that is dead, not being cancelled, with no result stored and no handler left
      to store one. */
  ghost predicate Stranded(s: State, id: nat) {
    && Listed(s, id) && id !in s.results && !HandlerFor(s, id)
    && (forall i :: 0 <= i < |s.tasks| && s.tasks[i].id == id ==> s.tasks[i].status.Dead?)
    && (s.lock.Cancelling? ==> s.lock.id != id)
  }

  /** A task that logout makes exit is stranded, unless it is just being cancelled. */
  lemma ExitStrands(s: State, i: nat)
    requires Inv(s) && Enabled(s, Exit(i)) && (s.lock.Cancelling? ==> s.lock.id != s.tasks[i].id)
    ensures Stranded(Next(s, Exit(i)).state, s.tasks[i].id)
  {
    hide PartitionInv, HandlerFor, Listed;
    var t := Next(s, Exit(i)).state;
    SameList(s, t);
    ListedHere(s, i);
    HandlersSame(s, t);
  }

  /** Forgetting the results strands every finished task that was not polled in time. */
  lemma ClearStrands(s: State, i: nat)
    requires Inv(s) && s.lock.Free? && i < |s.tasks| && s.tasks[i].id in s.results
    ensures Stranded(Next(s, ClearResults).state, s.tasks[i].id)
  {
    hide PartitionInv, Listed, HandlerFor;
    var t := Next(s, ClearResults).state;
    SameList(s, t);
    ListedHere(s, i);
    HandlersSame(s, t);
    WrittenHasNoHandler(s, s.tasks[i].id);
  }

  lemma WrittenHasNoHandler(s: State, id: nat)
    requires WriteInv(s) && id in s.written
    ensures !HandlerFor(s, id)
  {
    assert forall k :: 0 <= k < |s.handlers| ==> HandlerFine(s, s.handlers[k]);
  }

  lemma StrandedStays(s: State, a: Action, id: nat)
    requires Inv(s) && Enabled(s, a) && Stranded(s, id)
    ensures Stranded(Next(s, a).state, id)
  {
    hide Listed, PartitionInv, WriteInv, Find, FindAlive, HandlerFor, DeadAll, Stranded, Inv;
    var t := Next(s, a).state;
    StrandedParts(s, id);
    StrandedParts(t, id);
    InvParts(s);
    match a
    case Spawn =>
      ListedSpawn(s, t);
      HandlersSame(s, t);
      ListedBelow(s, id);
      DeadAllSpawn(s, t, id);
    case Poll(other) =>
      FindFirst(s.tasks, other);
      HandlersSame(s, t);
      var i := Find(s.tasks, other);
      if i < |s.tasks| && other in s.results {
        ListedWithout(s, t, i);
        DeadAllWithout(s, t, i, id);
      }
    case CancelBegin(other) =>
      FindAliveFirst(s.tasks, other);
      HandlersSame(s, t);
      SameList(s, t);
      SameDeath(s, t, id);
      if FindAlive(s.tasks, other) < |s.tasks| {
        AliveNotDead(s, FindAlive(s.tasks, other));
      }
    case CancelEnd =>
      HandlersSame(s, t);
      ListedWithout(s, t, s.lock.index);
      DeadAllWithout(s, t, s.lock.index, id);
    case Die(i, message) => DeathElsewhere(s, i, Died(message), id);
    case Kill(i) => DeathElsewhere(s, i, Killed, id);
    case Handle(k) =>
      SameList(s, t);
      HandlersWithout(s, t, k);
      HandlerHere(s, k);
      SameDeath(s, t, id);
    case ClearResults =>
      SameList(s, t);
      HandlersSame(s, t);
      SameDeath(s, t, id);
    case _ =>
      SameList(s, t);
      HandlersSame(s, t);
      AliveNotDead(s, a.i);
      DeadAllStatus(s, t, a.i, t.tasks[a.i].status, id);
  }

  lemma StrandedAnswers(s: State, a: Action, id: nat)
    requires Inv(s) && Enabled(s, a) && Stranded(s, id)
    ensures a == Poll(id) ==> Next(s, a).response == Pending(id)
    ensures a == CancelBegin(id) ==> Next(s, a).response == NotFound(id)
  {
    hide Listed, PartitionInv, WriteInv, Find, FindAlive, HandlerFor;
    if a == Poll(id) {
      FindFirst(s.tasks, id);
      ListedIndex(s, id);
    } else if a == CancelBegin(id) {
      FindAliveFirst(s.tasks, id);
    }
  }

  lemma DeathElsewhere(s: State, i: nat, outcome: Outcome, id: nat)
    requires Stranded(s, id) && i < |s.tasks| && !s.tasks[i].status.Dead?
    ensures Stranded(DieWith(s, i, outcome), id)
  {
    hide Listed, HandlerFor;
    var t := DieWith(s, i, outcome);
    SameList(s, t);
    HandlersAppend(s, t, Handler(s.tasks[i].id, outcome));
  }

  lemma ListedBelow(s: State, id: nat)
    requires IdsInv(s) && Listed(s, id)
    ensures id < s.nextId
  {
  }

  lemma ListedIndex(s: State, id: nat)
    requires Listed(s, id)
    ensures Find(s.tasks, id) < |s.tasks|
  {
    FindFirst(s.tasks, id);
    var i :| 0 <= i < |s.tasks| && s.tasks[i].id == id;
  }

  /** A stranded task stays in the list for good: polling it answers pending forever, and it can
      no longer be cancelled. */
  lemma {:induction false} StrandedForever(s: State, run: seq<Action>, id: nat)
    requires Inv(s) && CanRun(s, run) && Stranded(s, id)
    ensures Stranded(After(s, run), id)
    ensures forall i :: 0 <= i < |run| && run[i] == Poll(id) ==>
              i < |Responses(s, run)| && Responses(s, run)[i] == Pending(id)
    ensures forall i :: 0 <= i < |run| && run[i] == CancelBegin(id) ==>
              i < |Responses(s, run)| && Responses(s, run)[i] == NotFound(id)
    decreases |run|
  {
    hide Inv, Next, Enabled, Stranded;
    if run != [] {
      var t := Next(s, run[0]).state;
      NextKeepsInv(s, run[0]);
      StrandedStays(s, run[0], id);
      StrandedAnswers(s, run[0], id);
      StrandedForever(t, run[1..], id);
      var all, rest := Responses(s, run), Responses(t, run[1..]);
      assert forall i :: 1 <= i < |run| ==> run[i] == run[1..][i - 1];
      assert forall i :: 1 <= i < |all| ==> all[i] == rest[i - 1];
    }
  }

  // ----- Nothing but logout strands a task -----

  /** The two ways to strand a listed task: logout makes it exit while nobody cancels it, or forgets
      its result. */
  ghost predicate Strands(s: State, a: Action, id: nat)
    requires Enabled(s, a)
  {
    || (a.Exit? && s.tasks[a.i].id == id && !(s.lock.Cancelling? && s.lock.id == id))
    || (a.ClearResults? && id in s.results)
  }

  /** Every listed entry with this id is dead. */
  ghost predicate DeadAll(s: State, id: nat) {
    forall i :: 0 <= i < |s.tasks| && s.tasks[i].id == id ==> s.tasks[i].status.Dead?
  }

  lemma StrandedParts(s: State, id: nat)
    ensures Stranded(s, id) <==>
            && Listed(s, id) && id !in s.results && !HandlerFor(s, id) && DeadAll(s, id)
            && (s.lock.Cancelling? ==> s.lock.id != id)
  {
  }

  /** Changing the status of one task matters to its own id only. */
  lemma DeadAllStatus(s: State, t: State, i: nat, status: Status, id: nat)
    requires IdsInv(s) && i < |s.tasks| && t.tasks == s.tasks[i := s.tasks[i].(status := status)]
    ensures s.tasks[i].id != id ==> (DeadAll(t, id) <==> DeadAll(s, id))
    ensures s.tasks[i].id == id ==> (DeadAll(t, id) <==> status.Dead?)
  {
    if s.tasks[i].id == id {
      assert t.tasks[i].id == id;
    } else {
      assert forall j :: 0 <= j < |s.tasks| && j != i ==> t.tasks[j] == s.tasks[j];
    }
  }

  lemma DeadAllWithout(s: State, t: State, i: nat, id: nat)
    requires i < |s.tasks| && t.tasks == Without(s.tasks, i) && s.tasks[i].id != id
    ensures DeadAll(t, id) <==> DeadAll(s, id)
  {
    WithoutAt(s.tasks, i);
    if DeadAll(t, id) {
      forall j | 0 <= j < |s.tasks| && s.tasks[j].id == id ensures s.tasks[j].status.Dead? {
        assert t.tasks[if j < i then j else j - 1] == s.tasks[j];
      }
    }
  }

  lemma DeadAllSpawn(s: State, t: State, id: nat)
    requires id < s.nextId && t.tasks == s.tasks + [Greenlet(s.nextId, Running)]
    ensures DeadAll(t, id) <==> DeadAll(s, id)
  {
    assert forall j :: 0 <= j < |s.tasks| ==> t.tasks[j] == s.tasks[j];
  }

  lemma HandlerKept(s: State, t: State, k: nat, id: nat)
    requires k < |s.handlers| && t.handlers == Without(s.handlers, k) && s.handlers[k].id != id && HandlerFor(s, id)
    ensures HandlerFor(t, id)
  {
    WithoutAt(s.handlers, k);
    var l :| 0 <= l < |s.handlers| && s.handlers[l].id == id;
    assert t.handlers[if l < k then l else l - 1].id == id;
  }

  lemma AliveNotDead(s: State, i: nat)
    requires i < |s.tasks| && !s.tasks[i].status.Dead?
    ensures !DeadAll(s, s.tasks[i].id)
  {
  }

  /** A step that changes the status of one task. */
  lemma StatusStrandsIff(s: State, a: Action, id: nat)
    requires Inv(s) && Enabled(s, a) && Listed(s, id) && !Stranded(s, id)
    requires a.Finish? || a.Write? || a.Die? || a.Kill? || a.Exit?
    ensures Stranded(Next(s, a).state, id) <==> Strands(s, a, id)
  {
    hide Listed, PartitionInv, HandlerFor, DeadAll, Stranded, Inv;
    var t := Next(s, a).state;
    StrandedParts(s, id);
    StrandedParts(t, id);
    SameList(s, t);
    InvParts(s);
    DeadAllStatus(s, t, a.i, t.tasks[a.i].status, id);
    AliveHasNothing(s, a.i);
    if a.Die? || a.Kill? {
      HandlersAppend(s, t, Handler(s.tasks[a.i].id, if a.Die? then Died(a.message) else Killed));
    } else {
      HandlersSame(s, t);
    }
  }

  lemma InvParts(s: State)
    requires Inv(s)
    ensures IdsInv(s) && LockInv(s) && WriteInv(s)
  {
  }

  /** A task that is not dead has neither a result nor a handler. */
  lemma AliveHasNothing(s: State, i: nat)
    requires WriteInv(s) && i < |s.tasks| && !s.tasks[i].status.Dead?
    ensures s.tasks[i].id !in s.results && !HandlerFor(s, s.tasks[i].id)
  {
  }

  /** A step that leaves every status alone. */
  lemma OtherStrandsIff(s: State, a: Action, id: nat)
    requires Inv(s) && Enabled(s, a) && Listed(s, id) && !Stranded(s, id)
    requires a.Spawn? || a.Handle? || a.ClearResults?
    ensures Stranded(Next(s, a).state, id) <==> Strands(s, a, id)
  {
    hide Listed, PartitionInv, HandlerFor, DeadAll, Stranded, Inv;
    var t := Next(s, a).state;
    StrandedParts(s, id);
    StrandedParts(t, id);
    InvParts(s);
    ListedBelow(s, id);
    match a {
      case Spawn =>
        ListedSpawn(s, t);
        HandlersSame(s, t);
        DeadAllSpawn(s, t, id);
      case Handle(k) =>
        SameList(s, t);
        if s.handlers[k].id != id {
          HandlersWithout(s, t, k);
          if HandlerFor(s, id) {
            HandlerKept(s, t, k, id);
          }
        }
        SameDeath(s, t, id);
      case ClearResults =>
        SameList(s, t);
        HandlersSame(s, t);
        SameDeath(s, t, id);
        if id in s.results {
          StoredIsOver(s, id);
        }
    }
  }

  lemma SameDeath(s: State, t: State, id: nat)
    requires t.tasks == s.tasks
    ensures DeadAll(t, id) <==> DeadAll(s, id)
  {
  }

  /** A task whose result is stored is dead and has no handler left. */
  lemma StoredIsOver(s: State, id: nat)
    requires WriteInv(s) && id in s.results
    ensures DeadAll(s, id) && !HandlerFor(s, id)
  {
    WrittenHasNoHandler(s, id);
  }

  lemma PollStrandsNobody(s: State, a: Action, id: nat)
    requires Inv(s) && Enabled(s, a) && Listed(s, id) && !Stranded(s, id)
    requires a.Poll? || a.CancelBegin? || a.CancelEnd?
    ensures !Stranded(Next(s, a).state, id)
  {
    hide Listed, PartitionInv, WriteInv, HandlerFor, DeadAll, Stranded, Inv, Find, FindAlive;
    var t := Next(s, a).state;
    StrandedParts(s, id);
    StrandedParts(t, id);
    InvParts(s);
    HandlersSame(s, t);
    match a {
      case Poll(other) =>
        FindFirst(s.tasks, other);
        var i := Find(s.tasks, other);
        if i < |s.tasks| && other in s.results {
          ListedWithout(s, t, i);
          if other != id {
            DeadAllWithout(s, t, i, id);
          }
        }
      case CancelBegin(other) =>
        FindAliveFirst(s.tasks, other);
        SameList(s, t);
        SameDeath(s, t, id);
      case CancelEnd =>
        ListedWithout(s, t, s.lock.index);
        if s.lock.id != id {
          DeadAllWithout(s, t, s.lock.index, id);
        }
    }
  }

  /** A step strands a listed task if and only if it is a logout step that makes the task exit while
      it is not being cancelled, or that forgets its result. */
  lemma StrandedIff(s: State, a: Action, id: nat)
    requires Inv(s) && Enabled(s, a) && Listed(s, id) && !Stranded(s, id)
    ensures Stranded(Next(s, a).state, id) <==> Strands(s, a, id)
  {
    hide Listed, Stranded, Inv, Next, Enabled;
    match a
    case Poll(_) => PollStrandsNobody(s, a, id);
    case CancelBegin(_) => PollStrandsNobody(s, a, id);
    case CancelEnd => PollStrandsNobody(s, a, id);
    case Spawn => OtherStrandsIff(s, a, id);
    case Handle(_) => OtherStrandsIff(s, a, id);
    case ClearResults => OtherStrandsIff(s, a, id);
    case _ => StatusStrandsIff(s, a, id);
  }

  lemma NewTaskIsFine(s: State, a: Action, id: nat)
    requires Inv(s) && Enabled(s, a) && !Listed(s, id)
    ensures !Stranded(Next(s, a).state, id)
  {
    hide Listed, PartitionInv, WriteInv, HandlerFor, DeadAll, Stranded, Inv, Find, FindAlive;
    var t := Next(s, a).state;
    StrandedParts(t, id);
    InvParts(s);
    match a {
      case Spawn =>
        ListedSpawn(s, t);
        AliveNotDead(t, |s.tasks|);
      case Poll(other) =>
        FindFirst(s.tasks, other);
        if Find(s.tasks, other) < |s.tasks| && other in s.results {
          ListedWithout(s, t, Find(s.tasks, other));
        }
      case CancelEnd => ListedWithout(s, t, s.lock.index);
      case _ => SameList(s, t);
    }
  }

  /** In every run without logout no task is stranded: a listed task is alive, being cancelled, has
      its result stored, or has a handler that will store one. */
  lemma {:induction false} OnlyLogoutStrands(s: State, run: seq<Action>, id: nat)
    requires Inv(s) && CanRun(s, run) && !Stranded(s, id)
    requires forall i :: 0 <= i < |run| ==> !run[i].Exit? && !run[i].ClearResults?
    ensures !Stranded(After(s, run), id)
    decreases |run|
  {
    hide Inv, Next, Enabled, Stranded, Listed;
    if run != [] {
      NextKeepsInv(s, run[0]);
      if Listed(s, id) {
        StrandedIff(s, run[0], id);
      } else {
        NewTaskIsFine(s, run[0], id);
      }
      OnlyLogoutStrands(Next(s, run[0]).state, run[1..], id);
    }
  }

  // ----- Results nobody can fetch -----

  /** A stored result belongs to no listed task, so that no poll finds it, if and only if its task was
      cancelled. */
  lemma OrphanIff(s: State, id: nat)
    requires Inv(s) && id in s.results
    ensures !Listed(s, id) <==> id in s.cancelled
  {
    hide Listed;
    assert id in s.written;
  }

  lemma OrphanStays(s: State, a: Action, id: nat)
    requires Inv(s) && Enabled(s, a) && !a.ClearResults? && id in s.results && !Listed(s, id)
    ensures id in Next(s, a).state.results && Gone(Next(s, a).state, id)
  {
    hide PartitionInv, Listed, Find, FindAlive;
    assert id in s.written;
    GoneStays(s, a, id);
    if a.Poll? {
      FindFirst(s.tasks, a.id);
      if Find(s.tasks, a.id) < |s.tasks| {
        ListedHere(s, Find(s.tasks, a.id));
      }
    }
  }

  /** In every run such a result stays until logout forgets all results. */
  lemma {:induction false} OrphanForever(s: State, run: seq<Action>, id: nat)
    requires Inv(s) && CanRun(s, run) && id in s.results && !Listed(s, id)
    requires forall i :: 0 <= i < |run| ==> !run[i].ClearResults?
    ensures id in After(s, run).results && !Listed(After(s, run), id)
    decreases |run|
  {
    hide Inv, Next, Enabled, Listed;
    if run != [] {
      NextKeepsInv(s, run[0]);
      OrphanStays(s, run[0], id);
      OrphanForever(Next(s, run[0]).state, run[1..], id);
    }
  }

  const SPAWNED := INITIAL.(nextId := 1, tasks := [Greenlet(0, Running)])
  const CANCELLING := SPAWNED.(lock := Cancelling(0, 0))
  const KILLED := CANCELLING.(tasks := [Greenlet(0, Dead)], handlers := [Handler(0, Killed)],
                              produced := map[0 := Killed])
  const DROPPED := KILLED.(lock := Free, tasks := [], cancelled := {0})
  const ORPHANED := DROPPED.(handlers := [], results := map[0 := Killed], written := {0})

  lemma CancelSteps()
    ensures Enabled(INITIAL, Spawn) && Next(INITIAL, Spawn).state == SPAWNED
    ensures Enabled(SPAWNED, CancelBegin(0)) && Next(SPAWNED, CancelBegin(0)).state == CANCELLING
  {
  }

  lemma DeathSteps()
    ensures Enabled(CANCELLING, Kill(0)) && Next(CANCELLING, Kill(0)).state == KILLED
    ensures Enabled(KILLED, CancelEnd) && Next(KILLED, CancelEnd).state == DROPPED
    ensures Enabled(DROPPED, Handle(0)) && Next(DROPPED, Handle(0)).state == ORPHANED
  {
  }

  /** A run in which this happens: the death handler of a cancelled task stores its result. */
  lemma OrphanResult()
    ensures var run := [Spawn, CancelBegin(0), Kill(0), CancelEnd, Handle(0)];
            && CanRun(INITIAL, run)
            && 0 in After(INITIAL, run).results && !Listed(After(INITIAL, run), 0)
  {
    hide Next, Enabled;
    CancelSteps();
    DeathSteps();
    RunOne(DROPPED, Handle(0), []);
    RunOne(KILLED, CancelEnd, [Handle(0)]);
    RunOne(CANCELLING, Kill(0), [CancelEnd, Handle(0)]);
    RunOne(SPAWNED, CancelBegin(0), [Kill(0), CancelEnd, Handle(0)]);
    RunOne(INITIAL, Spawn, [CancelBegin(0), Kill(0), CancelEnd, Handle(0)]);
    assert [Spawn] + [CancelBegin(0), Kill(0), CancelEnd, Handle(0)]
        == [Spawn, CancelBegin(0), Kill(0), CancelEnd, Handle(0)];
    assert After(ORPHANED, []) == ORPHANED;
  }

  lemma RunOne(s: State, a: Action, rest: seq<Action>)
    requires Enabled(s, a) && CanRun(Next(s, a).state, rest)
    ensures CanRun(s, [a] + rest) && After(s, [a] + rest) == After(Next(s, a).state, rest)
  {
    hide Next, Enabled;
    assert ([a] + rest)[1..] == rest;
  }
}
