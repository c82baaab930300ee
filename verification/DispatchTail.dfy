/**
 * Serial dispatch on promise chains. Every conversation record has a tail; a dispatched function waits
 * for the tail it found, and the new tail settles after the function does, however it ends. Functions
 * of all records, and the settling of all tails, interleave freely.
 */
module DispatchTail {
  import opened Options
  import opened Runs

  /** A conversation record, by adapter and conversation id ("*" for the wildcard). */
  datatype Record = Record(adapter: string, conversation: string)

  /** An adapter's message, with the adapter and conversation it is addressed to. */
  datatype Message = Message(address: Record, sender: Option<string>, text: string)

  datatype Phase = Waiting | Running | Done

  /** A tail: resolved from the start, or settled after a dispatched function. */
  datatype Tail = Resolved | After(job: nat)

  datatype Job = Job(record: Record, batch: seq<Message>, after: Tail, phase: Phase)

  /** `jobs` in the order of submission; `settled` holds the jobs whose tail has settled; `log` the starts. */
  datatype State = State(jobs: seq<Job>, tails: map<Record, nat>, settled: set<nat>, log: seq<nat>)

  datatype Event = Submit(record: Record, batch: seq<Message>) | Start(job: nat) | Finish(job: nat) | Settle(job: nat)

  const IDLE := State([], map[], {}, [])

  function TailOf(s: State, r: Record): Tail {
    if r in s.tails then After(s.tails[r]) else Resolved
  }

  predicate IsSettled(s: State, t: Tail) {
    t.After? ==> t.job in s.settled
  }

  predicate Enabled(s: State, e: Event) {
    match e
    case Submit(_, _) => true
    case Start(j) => j < |s.jobs| && s.jobs[j].phase == Waiting && IsSettled(s, s.jobs[j].after)
    case Finish(j) => j < |s.jobs| && s.jobs[j].phase == Running
    case Settle(j) => j < |s.jobs| && s.jobs[j].phase == Done && j !in s.settled
  }

  /** `runOnTail`: queue the function behind the record's tail and replace the tail. */
  function Submitted(s: State, r: Record, batch: seq<Message>): State {
    s.(jobs := s.jobs + [Job(r, batch, TailOf(s, r), Waiting)], tails := s.tails[r := |s.jobs|])
  }

  function WithPhase(s: State, j: nat, p: Phase): State
    requires j < |s.jobs|
  {
    s.(jobs := s.jobs[j := s.jobs[j].(phase := p)])
  }

  function Step(s: State, e: Event): State {
    match e
    case Submit(r, batch) => Submitted(s, r, batch)
    case Start(j) => if j < |s.jobs| then WithPhase(s, j, Running).(log := s.log + [j]) else s
    case Finish(j) => if j < |s.jobs| then WithPhase(s, j, Done) else s
    case Settle(j) => s.(settled := s.settled + {j})
  }

  function Dispatching(): Machine<State, Event> {
    Machine(IDLE, Enabled, Step)
  }

  // ---------------------------------------------------------------- the chain

  /** The last of the first `n` jobs that is of record `r`. */
  function LastOf(jobs: seq<Job>, r: Record, n: nat): (t: Tail)
    requires n <= |jobs|
    ensures t.After? ==> t.job < n && jobs[t.job].record == r
    ensures forall i | (if t.After? then t.job else -1) < i < n :: jobs[i].record != r
  {
    if n == 0 then Resolved
    else if jobs[n - 1].record == r then After(n - 1)
    else LastOf(jobs, r, n - 1)
  }

  lemma LastOfPrefix(jobs: seq<Job>, jobs': seq<Job>, r: Record, n: nat)
    requires n <= |jobs| && n <= |jobs'|
    requires forall i | 0 <= i < n :: jobs[i].record == jobs'[i].record
    ensures LastOf(jobs, r, n) == LastOf(jobs', r, n)
  {
  }

  predicate WaitsForPrevious(jobs: seq<Job>, j: nat)
    requires j < |jobs|
  {
    jobs[j].after == LastOf(jobs, jobs[j].record, j)
  }

  /** Every job waits for the previous job of its record, and every tail is that of the last one. */
  ghost predicate Chained(s: State) {
    && (forall r: Record :: TailOf(s, r) == LastOf(s.jobs, r, |s.jobs|))
    && (forall j | 0 <= j < |s.jobs| :: WaitsForPrevious(s.jobs, j))
  }

  ghost predicate SettledAreDone(s: State) {
    forall j | j in s.settled :: j < |s.jobs| && s.jobs[j].phase == Done
  }

  /** A job that has started had all earlier jobs of its record done. */
  ghost predicate InTurn(s: State) {
    forall i, j | 0 <= i < j < |s.jobs| && s.jobs[i].record == s.jobs[j].record && s.jobs[j].phase != Waiting ::
      s.jobs[i].phase == Done
  }

  ghost predicate LogIsOfStarted(s: State) {
    forall j: nat :: j in s.log <==> j < |s.jobs| && s.jobs[j].phase != Waiting
  }

  predicate LoggedBefore(jobs: seq<Job>, i: nat, j: nat) {
    i != j && (i < |jobs| && j < |jobs| && jobs[i].record == jobs[j].record ==> i < j)
  }

  /** The log names no job twice, and those of one record in the order of submission. */
  ghost predicate LogIsOrdered(s: State) {
    forall a, b | 0 <= a < b < |s.log| :: LoggedBefore(s.jobs, s.log[a], s.log[b])
  }

  ghost predicate Serial(s: State) {
    Chained(s) && SettledAreDone(s) && InTurn(s) && LogIsOfStarted(s) && LogIsOrdered(s)
  }

  lemma SubmitKeepsChained(s: State, r: Record, batch: seq<Message>)
    requires Chained(s)
    ensures Chained(Submitted(s, r, batch))
  {
    var t := Submitted(s, r, batch);
    forall q: Record ensures TailOf(t, q) == LastOf(t.jobs, q, |t.jobs|) {
      LastOfPrefix(s.jobs, t.jobs, q, |s.jobs|);
    }
    forall j | 0 <= j < |t.jobs| ensures WaitsForPrevious(t.jobs, j) {
      assert j < |s.jobs| ==> WaitsForPrevious(s.jobs, j);
      LastOfPrefix(s.jobs, t.jobs, t.jobs[j].record, j);
    }
  }

  lemma PhaseKeepsChained(s: State, j: nat, p: Phase)
    requires Chained(s) && j < |s.jobs|
    ensures Chained(WithPhase(s, j, p))
  {
    var t := WithPhase(s, j, p);
    forall q: Record ensures TailOf(t, q) == LastOf(t.jobs, q, |t.jobs|) {
      LastOfPrefix(s.jobs, t.jobs, q, |s.jobs|);
    }
    forall j | 0 <= j < |t.jobs| ensures WaitsForPrevious(t.jobs, j) {
      assert j < |s.jobs| ==> WaitsForPrevious(s.jobs, j);
      LastOfPrefix(s.jobs, t.jobs, t.jobs[j].record, j);
    }
  }

  lemma ChainedIgnoresLog(s: State, t: State)
    requires Chained(s) && t.jobs == s.jobs && t.tails == s.tails
    ensures Chained(t)
  {
    forall q: Record ensures TailOf(t, q) == LastOf(t.jobs, q, |t.jobs|) {
      assert TailOf(s, q) == TailOf(t, q);
    }
  }

  lemma StepKeepsChained(s: State, e: Event)
    requires Chained(s) && Enabled(s, e)
    ensures Chained(Step(s, e))
  {
    match e
    case Submit(r, batch) => SubmitKeepsChained(s, r, batch);
    case Start(j) =>
      PhaseKeepsChained(s, j, Running);
      ChainedIgnoresLog(WithPhase(s, j, Running), Step(s, e));
    case Finish(j) => PhaseKeepsChained(s, j, Done);
    case Settle(j) => ChainedIgnoresLog(s, Step(s, e));
  }

  /** A job can only start once every earlier job of its record is done. */
  lemma EarlierAreDone(s: State, j: nat, i: nat)
    requires Serial(s) && Enabled(s, Start(j)) && i < j && s.jobs[i].record == s.jobs[j].record
    ensures s.jobs[i].phase == Done
  {
    assert WaitsForPrevious(s.jobs, j);
    var before := s.jobs[j].after;
    assert before.After? && before.job in s.settled && i <= before.job;
  }

  lemma StepKeepsInTurn(s: State, e: Event)
    requires Serial(s) && Enabled(s, e)
    ensures InTurn(Step(s, e))
  {
    if e.Start? {
      forall i | 0 <= i < e.job && s.jobs[i].record == s.jobs[e.job].record ensures s.jobs[i].phase == Done {
        EarlierAreDone(s, e.job, i);
      }
    }
  }

  lemma StepKeepsSettled(s: State, e: Event)
    requires Serial(s) && Enabled(s, e)
    ensures SettledAreDone(Step(s, e)) && LogIsOfStarted(Step(s, e))
  {
  }

  /** No job that is in the log can come after, in its record, one that is starting. */
  lemma StartIsLoggedLast(s: State, i: nat, j: nat)
    requires Serial(s) && Enabled(s, Start(j)) && i in s.log
    ensures LoggedBefore(s.jobs, i, j)
  {
  }

  lemma StepKeepsLogOrdered(s: State, e: Event)
    requires Serial(s) && Enabled(s, e)
    ensures LogIsOrdered(Step(s, e))
  {
    var t := Step(s, e);
    forall a, b | 0 <= a < b < |t.log| ensures LoggedBefore(t.jobs, t.log[a], t.log[b]) {
      assert t.log[a] == s.log[a] && s.log[a] in s.log;
      if b < |s.log| {
        assert s.log[b] in s.log;
        assert LoggedBefore(s.jobs, s.log[a], s.log[b]);
      } else {
        StartIsLoggedLast(s, s.log[a], e.job);
      }
    }
  }

  lemma StepKeepsSerial(s: State, e: Event)
    requires Serial(s) && Enabled(s, e)
    ensures Serial(Step(s, e))
  {
    StepKeepsChained(s, e);
    StepKeepsInTurn(s, e);
    StepKeepsSettled(s, e);
    StepKeepsLogOrdered(s, e);
  }

  /** On every run dispatch is serial. */
  lemma DispatchIsSerial(events: seq<Event>)
    requires IsRun(Dispatching(), events)
    ensures Serial(Runs.After(Dispatching(), events))
  {
    forall s: State, e: Event | Serial(s) && Enabled(s, e) ensures Serial(Step(s, e)) {
      StepKeepsSerial(s, e);
    }
    InvariantHolds(Dispatching(), Serial, events);
  }

  /** Two running functions are of different records. */
  lemma AtMostOneRuns(s: State, i: nat, j: nat)
    requires Serial(s) && i < j < |s.jobs|
    requires s.jobs[i].phase == Running && s.jobs[j].phase == Running
    ensures s.jobs[i].record != s.jobs[j].record
  {
  }

  // ---------------------------------------------------------------- every job gets its turn

  /** While a job is not done, some step of its own record is possible, whatever other records do. */
  lemma {:induction false} RecordCanProceed(s: State, j: nat) returns (e: Event)
    requires Serial(s) && j < |s.jobs| && s.jobs[j].phase != Done
    ensures Enabled(s, e) && !e.Submit? && e.job <= j && s.jobs[e.job].record == s.jobs[j].record
    decreases j
  {
    if s.jobs[j].phase == Running {
      return Finish(j);
    }
    assert WaitsForPrevious(s.jobs, j);
    var before := s.jobs[j].after;
    if IsSettled(s, before) {
      return Start(j);
    }
    if s.jobs[before.job].phase == Done {
      return Settle(before.job);
    }
    e := RecordCanProceed(s, before.job);
  }

  /** The steps a job has still to take. */
  function StepsLeft(s: State, j: nat): nat
    requires j < |s.jobs|
  {
    match s.jobs[j].phase
    case Waiting => 3
    case Running => 2
    case Done => if j in s.settled then 0 else 1
  }

  function Work(s: State, n: nat): nat
    requires n <= |s.jobs|
  {
    if n == 0 then 0 else Work(s, n - 1) + StepsLeft(s, n - 1)
  }

  lemma {:induction false} WorkShrinks(s: State, t: State, j: nat, n: nat)
    requires n <= |s.jobs| == |t.jobs| && j < |s.jobs|
    requires forall i | 0 <= i < n && i != j :: StepsLeft(t, i) == StepsLeft(s, i)
    requires StepsLeft(t, j) < StepsLeft(s, j)
    ensures if j < n then Work(t, n) < Work(s, n) else Work(t, n) == Work(s, n)
    decreases n
  {
    if n > 0 {
      WorkShrinks(s, t, j, n - 1);
    }
  }

  /** Without new submissions only so many steps are possible. */
  lemma StepsRunOut(s: State, e: Event)
    requires Serial(s) && Enabled(s, e) && !e.Submit?
    ensures |Step(s, e).jobs| == |s.jobs|
    ensures Work(Step(s, e), |s.jobs|) < Work(s, |s.jobs|)
  {
    WorkShrinks(s, Step(s, e), e.job, |s.jobs|);
  }

  /** When no step is left, every job has run exactly once, whether the ones before it failed or not. */
  lemma EveryJobRanOnce(s: State, j: nat)
    requires Serial(s) && j < |s.jobs|
    requires forall e: Event | !e.Submit? :: !Enabled(s, e)
    ensures s.jobs[j].phase == Done
    ensures exists a :: 0 <= a < |s.log| && s.log[a] == j && forall b | 0 <= b < |s.log| && b != a :: s.log[b] != j
  {
    if s.jobs[j].phase != Done {
      var e := RecordCanProceed(s, j);
    } else {
      assert j in s.log;
      var a :| 0 <= a < |s.log| && s.log[a] == j;
      forall b | 0 <= b < |s.log| && b != a ensures s.log[b] != j {
        assert if a < b then LoggedBefore(s.jobs, s.log[a], s.log[b]) else LoggedBefore(s.jobs, s.log[b], s.log[a]);
      }
    }
  }

  // ---------------------------------------------------------------- what a record's surface sees

  /** The messages of the first `n` jobs that are of record `r`, in the order of submission. */
  function Submissions(jobs: seq<Job>, r: Record, n: nat): seq<Message>
    requires n <= |jobs|
  {
    if n == 0 then []
    else Submissions(jobs, r, n - 1) + if jobs[n - 1].record == r then jobs[n - 1].batch else []
  }

  /** The messages of record `r` handed to a surface, in the order in which their jobs started. */
  function Handed(jobs: seq<Job>, log: seq<nat>, r: Record): seq<Message> {
    if log == [] then []
    else
      var j := log[|log| - 1];
      Handed(jobs, log[..|log| - 1], r) + if j < |jobs| && jobs[j].record == r then jobs[j].batch else []
  }

  lemma SubmissionsIgnorePhases(jobs: seq<Job>, jobs': seq<Job>, r: Record, n: nat)
    requires n <= |jobs| && n <= |jobs'|
    requires forall i | 0 <= i < n :: jobs[i].record == jobs'[i].record && jobs[i].batch == jobs'[i].batch
    ensures Submissions(jobs, r, n) == Submissions(jobs', r, n)
  {
  }

  lemma HandedIgnorePhases(jobs: seq<Job>, jobs': seq<Job>, log: seq<nat>, r: Record)
    requires forall i | i in log ::
      i < |jobs| && i < |jobs'| && jobs[i].record == jobs'[i].record && jobs[i].batch == jobs'[i].batch
    ensures Handed(jobs, log, r) == Handed(jobs', log, r)
  {
  }

  /** Jobs of other records add nothing. */
  lemma {:induction false} SubmissionsSkip(jobs: seq<Job>, r: Record, m: nat, n: nat)
    requires m <= n <= |jobs| && forall i | m <= i < n :: jobs[i].record != r
    ensures Submissions(jobs, r, n) == Submissions(jobs, r, m)
    decreases n
  {
    if m < n {
      SubmissionsSkip(jobs, r, m, n - 1);
    }
  }

  /** The first job of record `r` that has not started, from the `n`-th on. */
  function NextOf(jobs: seq<Job>, r: Record, n: nat): (k: nat)
    requires n <= |jobs|
    ensures n <= k <= |jobs|
    ensures k < |jobs| ==> jobs[k].record == r && jobs[k].phase == Waiting
    ensures forall i | n <= i < k :: jobs[i].record == r ==> jobs[i].phase != Waiting
    decreases |jobs| - n
  {
    if n == |jobs| || (jobs[n].record == r && jobs[n].phase == Waiting) then n else NextOf(jobs, r, n + 1)
  }

  /** A surface has been handed exactly the messages of its record's jobs up to the next one to start. */
  ghost predicate HandsInOrder(s: State, r: Record) {
    Handed(s.jobs, s.log, r) == Submissions(s.jobs, r, NextOf(s.jobs, r, 0))
  }

  lemma NextOfAppended(jobs: seq<Job>, job: Job, r: Record, n: nat)
    requires n <= |jobs|
    ensures var k, k' := NextOf(jobs, r, n), NextOf(jobs + [job], r, n);
      k <= k' && forall i | k <= i < k' :: (jobs + [job])[i].record != r || (jobs + [job])[i].phase != Waiting
    ensures NextOf(jobs, r, n) < |jobs| ==> NextOf(jobs + [job], r, n) == NextOf(jobs, r, n)
    decreases |jobs| - n
  {
    assert forall i | 0 <= i < |jobs| :: (jobs + [job])[i] == jobs[i];
    if n < |jobs| {
      NextOfAppended(jobs, job, r, n + 1);
    }
  }

  lemma SubmitKeepsHands(s: State, r: Record, q: Record, batch: seq<Message>)
    requires Serial(s) && HandsInOrder(s, r)
    ensures HandsInOrder(Submitted(s, q, batch), r)
  {
    var t := Submitted(s, q, batch);
    var k, k' := NextOf(s.jobs, r, 0), NextOf(t.jobs, r, 0);
    HandedIgnorePhases(s.jobs, t.jobs, s.log, r);
    SubmissionsIgnorePhases(s.jobs, t.jobs, r, k);
    NextOfAppended(s.jobs, t.jobs[|s.jobs|], r, 0);
    SubmissionsSkip(t.jobs, r, k, k');
  }

  lemma StartOfOtherKeepsHands(s: State, j: nat, r: Record)
    requires Serial(s) && Enabled(s, Start(j)) && s.jobs[j].record != r
    ensures Submissions(s.jobs, r, NextOf(s.jobs, r, 0))
         == Submissions(Step(s, Start(j)).jobs, r, NextOf(Step(s, Start(j)).jobs, r, 0))
  {
    var t := Step(s, Start(j));
    SameNext(s.jobs, t.jobs, r, 0);
    SubmissionsIgnorePhases(s.jobs, t.jobs, r, NextOf(s.jobs, r, 0));
  }

  /** A start hands over the messages of the job that was next, and no others. */
  lemma StartAdvances(s: State, j: nat)
    requires Serial(s) && Enabled(s, Start(j))
    ensures var r, t := s.jobs[j].record, Step(s, Start(j));
      Submissions(t.jobs, r, NextOf(t.jobs, r, 0)) == Submissions(s.jobs, r, j) + s.jobs[j].batch
  {
    var r, t := s.jobs[j].record, Step(s, Start(j));
    LaterStillWait(s, j);
    SubmissionsIgnorePhases(s.jobs, t.jobs, r, j);
    SubmissionsSkip(t.jobs, r, j + 1, NextOf(t.jobs, r, 0));
  }

  lemma StartKeepsHands(s: State, j: nat, r: Record)
    requires Serial(s) && Enabled(s, Start(j)) && HandsInOrder(s, r)
    ensures HandsInOrder(Step(s, Start(j)), r)
  {
    var t := Step(s, Start(j));
    assert t.log[..|t.log| - 1] == s.log;
    HandedIgnorePhases(s.jobs, t.jobs, s.log, r);
    if s.jobs[j].record == r {
      NextIsNext(s, j);
      StartAdvances(s, j);
    } else {
      StartOfOtherKeepsHands(s, j, r);
    }
  }

  /** The job that starts is the first of its record that has not. */
  lemma NextIsNext(s: State, j: nat)
    requires Serial(s) && Enabled(s, Start(j))
    ensures NextOf(s.jobs, s.jobs[j].record, 0) == j
  {
    var k := NextOf(s.jobs, s.jobs[j].record, 0);
    if k < j {
      EarlierAreDone(s, j, k);
    }
  }

  lemma LaterStillWait(s: State, j: nat)
    requires Serial(s) && Enabled(s, Start(j))
    ensures var k := NextOf(Step(s, Start(j)).jobs, s.jobs[j].record, 0);
      j < k && forall i | j < i < k :: s.jobs[i].record != s.jobs[j].record
  {
    var t := Step(s, Start(j));
    var r := s.jobs[j].record;
    var k := NextOf(t.jobs, r, 0);
    if k <= j {
      assert t.jobs[j].phase == Running && k < j;
      EarlierAreDone(s, j, k);
    }
    forall i | j < i < k ensures s.jobs[i].record != r {
      assert t.jobs[i] == s.jobs[i];
    }
  }

  lemma StepKeepsHands(s: State, e: Event, r: Record)
    requires Serial(s) && Enabled(s, e) && HandsInOrder(s, r)
    ensures HandsInOrder(Step(s, e), r)
  {
    match e
    case Submit(q, batch) => SubmitKeepsHands(s, r, q, batch);
    case Start(j) => StartKeepsHands(s, j, r);
    case Finish(j) =>
      var t := Step(s, e);
      HandedIgnorePhases(s.jobs, t.jobs, s.log, r);
      SameNext(s.jobs, t.jobs, r, 0);
      SubmissionsIgnorePhases(s.jobs, t.jobs, r, NextOf(s.jobs, r, 0));
    case Settle(j) =>
  }

  lemma SameNext(jobs: seq<Job>, jobs': seq<Job>, r: Record, n: nat)
    requires n <= |jobs| == |jobs'|
    requires forall i | 0 <= i < |jobs| :: jobs[i].record == jobs'[i].record
    requires forall i | 0 <= i < |jobs| && jobs[i].record == r ::
      jobs[i].phase == Waiting <==> jobs'[i].phase == Waiting
    ensures NextOf(jobs, r, n) == NextOf(jobs', r, n)
    decreases |jobs| - n
  {
  }

  // ---------------------------------------------------------------- the component

  /** The records' tails and the functions queued on them. */
  class Dispatcher {
    var tails: map<Record, nat>
    var jobs: seq<Job>
    var settled: set<nat>
    ghost var Log: seq<nat>

    ghost function View(): State
      reads this
    {
      State(jobs, tails, settled, Log)
    }

    constructor ()
      ensures View() == IDLE
    {
      tails, jobs, settled, Log := map[], [], {}, [];
    }

    method RunOnTail(r: Record, batch: seq<Message>)
      modifies this
      ensures View() == Step(old(View()), Submit(r, batch))
    {
      var tail := if r in tails then After(tails[r]) else Resolved;
      jobs := jobs + [Job(r, batch, tail, Waiting)];
      tails := tails[r := |jobs| - 1];
    }

    /** A queued function is called once the tail it waits for has settled. */
    method StartJob(j: nat) returns (batch: seq<Message>)
      requires Enabled(View(), Start(j))
      modifies this
      ensures View() == Step(old(View()), Start(j))
      ensures batch == old(jobs)[j].batch
    {
      batch := jobs[j].batch;
      jobs := jobs[j := jobs[j].(phase := Running)];
      Log := Log + [j];
    }

    method FinishJob(j: nat)
      requires Enabled(View(), Finish(j))
      modifies this
      ensures View() == Step(old(View()), Finish(j))
    {
      jobs := jobs[j := jobs[j].(phase := Done)];
    }

    method SettleTail(j: nat)
      requires Enabled(View(), Settle(j))
      modifies this
      ensures View() == Step(old(View()), Settle(j))
    {
      settled := settled + {j};
    }
  }
}
