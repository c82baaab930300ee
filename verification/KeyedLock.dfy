/**
 * Per-key promise chains. A task waits for the last task of its key that the map remembers, or starts
 * at once when the map has no entry; a finished task's caller later deletes the entry if it is still
 * its own. Tasks, callers and new submissions interleave freely.
 */
module KeyedLock {
  import opened Options
  import opened Runs

  type Key = string

  datatype Phase = Waiting | Running | Done

  /** `after` is the task found in the map; `cleaned` says that the caller has been through its cleanup. */
  datatype Task = Task(key: Key, after: Option<nat>, phase: Phase, cleaned: bool)

  datatype State = State(tasks: seq<Task>, queues: map<Key, nat>)

  datatype Event = Submit(key: Key) | Start(task: nat) | Settle(task: nat) | Cleanup(task: nat)

  const UNUSED := State([], map[])

  function Queue(s: State, k: Key): Option<nat> {
    if k in s.queues then Some(s.queues[k]) else None
  }

  predicate IsSettled(s: State, t: Option<nat>) {
    t.Some? ==> t.value < |s.tasks| && s.tasks[t.value].phase == Done
  }

  /** A task may fulfil or reject: either way its promise settles and those waiting for it may start. */
  predicate Enabled(s: State, e: Event) {
    match e
    case Submit(_) => true
    case Start(j) => j < |s.tasks| && s.tasks[j].phase == Waiting && IsSettled(s, s.tasks[j].after)
    case Settle(j) => j < |s.tasks| && s.tasks[j].phase == Running
    case Cleanup(j) => j < |s.tasks| && s.tasks[j].phase == Done && !s.tasks[j].cleaned
  }

  function Step(s: State, e: Event): State {
    match e
    case Submit(k) => State(s.tasks + [Task(k, Queue(s, k), Waiting, false)], s.queues[k := |s.tasks|])
    case Start(j) => if j < |s.tasks| then s.(tasks := s.tasks[j := s.tasks[j].(phase := Running)]) else s
    case Settle(j) => if j < |s.tasks| then s.(tasks := s.tasks[j := s.tasks[j].(phase := Done)]) else s
    case Cleanup(j) =>
      if j < |s.tasks| then
        State(s.tasks[j := s.tasks[j].(cleaned := true)],
          if Queue(s, s.tasks[j].key) == Some(j) then s.queues - {s.tasks[j].key} else s.queues)
      else s
  }

  function Locking(): Machine<State, Event> {
    Machine(UNUSED, Enabled, Step)
  }

  // ---------------------------------------------------------------- the invariant

  /** Before `n` the last task of key `k` is `i`, or, without `i`, every task of `k` is done. */
  ghost predicate LastBefore(s: State, k: Key, n: nat, t: Option<nat>) {
    match t
    case Some(i) => i < n <= |s.tasks| && s.tasks[i].key == k && forall m | i < m < n :: s.tasks[m].key != k
    case None => n <= |s.tasks| && forall m | 0 <= m < n && s.tasks[m].key == k :: s.tasks[m].phase == Done
  }

  /** Each task waits for its predecessor, or had none left to wait for. */
  ghost predicate Chained(s: State) {
    forall j | 0 <= j < |s.tasks| :: LastBefore(s, s.tasks[j].key, j, s.tasks[j].after)
  }

  /** The map names the last task of a key; a key it does not name has no unsettled task. */
  ghost predicate QueuesAreLast(s: State) {
    forall k: Key :: LastBefore(s, k, |s.tasks|, Queue(s, k))
  }

  /** An entry lives only until the cleanup of the task it names. */
  ghost predicate EntriesAreUncleaned(s: State) {
    forall k | k in s.queues :: s.queues[k] < |s.tasks| && !s.tasks[s.queues[k]].cleaned
  }

  /** A task that has started had every earlier task of its key settled. */
  ghost predicate InTurn(s: State) {
    forall i, j | 0 <= i < j < |s.tasks| && s.tasks[i].key == s.tasks[j].key && s.tasks[j].phase != Waiting ::
      s.tasks[i].phase == Done
  }

  ghost predicate Locked(s: State) {
    Chained(s) && QueuesAreLast(s) && EntriesAreUncleaned(s) && InTurn(s)
  }

  /** Tasks keep their key and stay done. */
  ghost predicate Continues(s: State, t: State) {
    && |s.tasks| <= |t.tasks|
    && forall i | 0 <= i < |s.tasks| ::
         && t.tasks[i].key == s.tasks[i].key && t.tasks[i].after == s.tasks[i].after
         && (s.tasks[i].phase == Done ==> t.tasks[i].phase == Done)
  }

  lemma LastBeforeContinues(s: State, t: State, k: Key, n: nat, p: Option<nat>)
    requires Continues(s, t) && LastBefore(s, k, n, p)
    ensures LastBefore(t, k, n, p)
  {
  }

  lemma StepContinues(s: State, e: Event)
    requires Enabled(s, e)
    ensures Continues(s, Step(s, e))
  {
  }

  lemma StepKeepsChained(s: State, e: Event)
    requires Locked(s) && Enabled(s, e)
    ensures Chained(Step(s, e))
  {
    var t := Step(s, e);
    StepContinues(s, e);
    forall j | 0 <= j < |t.tasks| ensures LastBefore(t, t.tasks[j].key, j, t.tasks[j].after) {
      if j < |s.tasks| {
        LastBeforeContinues(s, t, s.tasks[j].key, j, s.tasks[j].after);
      } else {
        LastBeforeContinues(s, t, e.key, j, Queue(s, e.key));
      }
    }
  }

  /** A finished last task of a key has only finished tasks of the key before it. */
  lemma LastDoneMeansAllDone(s: State, j: nat)
    requires Locked(s) && j < |s.tasks| && s.tasks[j].phase == Done
    requires Queue(s, s.tasks[j].key) == Some(j)
    ensures LastBefore(s, s.tasks[j].key, |s.tasks|, None)
  {
    assert LastBefore(s, s.tasks[j].key, |s.tasks|, Some(j));
  }

  lemma StepKeepsQueues(s: State, e: Event)
    requires Locked(s) && Enabled(s, e)
    ensures QueuesAreLast(Step(s, e))
  {
    var t := Step(s, e);
    StepContinues(s, e);
    forall k: Key ensures LastBefore(t, k, |t.tasks|, Queue(t, k)) {
      if e.Submit? {
        LastBeforeContinues(s, t, k, |s.tasks|, Queue(s, k));
      } else if Queue(t, k) == Queue(s, k) {
        LastBeforeContinues(s, t, k, |s.tasks|, Queue(s, k));
      } else {
        LastDoneMeansAllDone(s, e.task);
        LastBeforeContinues(s, t, k, |s.tasks|, None);
      }
    }
  }

  lemma StepKeepsUncleaned(s: State, e: Event)
    requires Locked(s) && Enabled(s, e)
    ensures EntriesAreUncleaned(Step(s, e))
  {
    forall k | k in s.queues ensures s.tasks[s.queues[k]].key == k {
      assert LastBefore(s, k, |s.tasks|, Queue(s, k));
    }
  }

  /** A task can only start when every earlier task of its key is settled. */
  lemma EarlierAreSettled(s: State, j: nat, i: nat)
    requires Locked(s) && Enabled(s, Start(j)) && i < j && s.tasks[i].key == s.tasks[j].key
    ensures s.tasks[i].phase == Done
  {
    assert LastBefore(s, s.tasks[j].key, j, s.tasks[j].after);
  }

  lemma StepKeepsInTurn(s: State, e: Event)
    requires Locked(s) && Enabled(s, e)
    ensures InTurn(Step(s, e))
  {
    if e.Start? {
      forall i | 0 <= i < e.task && s.tasks[i].key == s.tasks[e.task].key ensures s.tasks[i].phase == Done {
        EarlierAreSettled(s, e.task, i);
      }
    }
  }

  /** On every run the lock is sound: order of arrival, no overlap, and a map that forgets only idle keys. */
  lemma LockHolds(events: seq<Event>)
    requires IsRun(Locking(), events)
    ensures Locked(After(Locking(), events))
  {
    forall s: State, e: Event | Locked(s) && Enabled(s, e) ensures Locked(Step(s, e)) {
      StepKeepsChained(s, e);
      StepKeepsQueues(s, e);
      StepKeepsUncleaned(s, e);
      StepKeepsInTurn(s, e);
    }
    InvariantHolds(Locking(), Locked, events);
  }

  // ---------------------------------------------------------------- what it gives

  lemma SameKeyTasksDoNotOverlap(events: seq<Event>, i: nat, j: nat)
    requires IsRun(Locking(), events)
    requires var s := After(Locking(), events);
      i < j < |s.tasks| && s.tasks[i].key == s.tasks[j].key && s.tasks[i].phase == Running
    ensures After(Locking(), events).tasks[j].phase == Waiting
  {
    LockHolds(events);
  }

  /** A key absent from the map has no unsettled task, so the next one may start at once. */
  lemma AbsentKeyIsIdle(events: seq<Event>, i: nat)
    requires IsRun(Locking(), events)
    requires var s := After(Locking(), events);
      i < |s.tasks| && s.tasks[i].key !in s.queues
    ensures After(Locking(), events).tasks[i].phase == Done
  {
    LockHolds(events);
    var s := After(Locking(), events);
    assert LastBefore(s, s.tasks[i].key, |s.tasks|, Queue(s, s.tasks[i].key));
  }

  /** A cleanup deletes its key's entry exactly when its task is still the last one of the key. */
  lemma CleanupDeletesOnlyLast(s: State, j: nat)
    requires Locked(s) && Enabled(s, Cleanup(j)) && s.tasks[j].key in s.queues
    ensures var k := s.tasks[j].key;
      k !in Step(s, Cleanup(j)).queues <==> forall m | j < m < |s.tasks| :: s.tasks[m].key != k
  {
    assert LastBefore(s, s.tasks[j].key, |s.tasks|, Queue(s, s.tasks[j].key));
  }

  /** While a task is unsettled, some step of its own key is possible, whatever other keys do. */
  lemma {:induction false} KeyCanProceed(s: State, j: nat) returns (e: Event)
    requires Locked(s) && j < |s.tasks| && s.tasks[j].phase != Done
    ensures Enabled(s, e) && (e.Start? || e.Settle?) && e.task <= j && s.tasks[e.task].key == s.tasks[j].key
    decreases j
  {
    assert LastBefore(s, s.tasks[j].key, j, s.tasks[j].after);
    if s.tasks[j].phase == Running {
      e := Settle(j);
    } else if IsSettled(s, s.tasks[j].after) {
      e := Start(j);
    } else {
      e := KeyCanProceed(s, s.tasks[j].after.value);
    }
  }

  /** Once every task is settled and cleaned up after, the map is empty again. */
  lemma MapDoesNotLeak(s: State)
    requires Locked(s) && forall i | 0 <= i < |s.tasks| :: s.tasks[i].cleaned
    ensures s.queues == map[]
  {
    assert forall k | k in s.queues :: false;
  }

  // ---------------------------------------------------------------- the component

  /** The module's map, with the tasks it chains. */
  class Locks {
    var queues: map<Key, nat>
    var tasks: seq<Task>

    ghost function View(): State
      reads this
    {
      State(tasks, queues)
    }

    constructor ()
      ensures View() == UNUSED
    {
      queues, tasks := map[], [];
    }

    /** The synchronous part of `withKeyLock`. */
    method WithKeyLock(key: Key) returns (run: nat)
      modifies this
      ensures run == |old(tasks)| && View() == Step(old(View()), Submit(key))
    {
      var prev := if key in queues then Some(queues[key]) else None;
      run := |tasks|;
      tasks := tasks + [Task(key, prev, Waiting, false)];
      queues := queues[key := run];
    }

    method StartTask(j: nat)
      requires Enabled(View(), Start(j))
      modifies this
      ensures View() == Step(old(View()), Start(j))
    {
      tasks := tasks[j := tasks[j].(phase := Running)];
    }

    method SettleTask(j: nat)
      requires Enabled(View(), Settle(j))
      modifies this
      ensures View() == Step(old(View()), Settle(j))
    {
      tasks := tasks[j := tasks[j].(phase := Done)];
    }

    /** The `finally` block, reached whether the task fulfilled or rejected. */
    method CleanUp(j: nat)
      requires Enabled(View(), Cleanup(j))
      modifies this
      ensures View() == Step(old(View()), Cleanup(j))
    {
      var key := tasks[j].key;
      if key in queues && queues[key] == j {
        queues := queues - {key};
      }
      tasks := tasks[j := tasks[j].(cleaned := true)];
    }
  }
}
