/**
 * When the wiki is re-indexed: local writes arm a debounce timer, periodic sweeps and the timer start
 * cycles, and each indexer lets one cycle run at a time. Cycles and callbacks interleave freely.
 */
module WikiReindex {
  import opened Numbers
  import opened Options
  import opened Runs

  type IndexerId = nat

  /** A cycle in progress: whose it is, and how many writes had been made when it started. */
  datatype Cycle = Cycle(indexer: IndexerId, seen: nat)

  /**
   * `current` is the registered indexer, `guards` the indexers whose in-flight flag is set; `rearms`
   * counts timer callbacks that found the flag set and have still to re-arm the timer; `covered` is
   * how many writes the completed cycles have seen.
   */
  datatype State = State(
    current: Option<IndexerId>, timer: bool, guards: set<IndexerId>, rearms: nat,
    running: seq<Cycle>, writes: nat, covered: nat)

  datatype Event =
    | Write
    | Register(registered: Option<IndexerId>)
    | TimerFires
    | SweepTick(indexer: IndexerId)
    | RearmRuns
    | CycleSucceeds(cycle: nat)
    | CycleThrows(cycle: nat)

  const START := State(None, false, {}, 0, [], 0, 0)

  predicate Enabled(s: State, e: Event) {
    match e
    case Write => true
    case Register(_) => true
    case TimerFires => s.timer
    case SweepTick(_) => true
    case RearmRuns => s.rearms > 0
    case CycleSucceeds(i) => i < |s.running|
    case CycleThrows(i) => i < |s.running|
  }

  /** `triggerWikiReindex`: an armed timer is replaced by a new one. */
  function Triggered(s: State): State {
    s.(timer := true)
  }

  /** `runCycle` when the flag is clear: set it and start the body. */
  function Started(s: State, x: IndexerId): State
    requires x !in s.guards
  {
    s.(guards := s.guards + {x}, running := s.running + [Cycle(x, s.writes)])
  }

  /** The body of a cycle ends and its flag is cleared. */
  function Ended(s: State, i: nat): State
    requires i < |s.running|
  {
    s.(guards := s.guards - {s.running[i].indexer}, running := s.running[..i] + s.running[i + 1..])
  }

  function Step(s: State, e: Event): State {
    match e
    case Write => Triggered(s.(writes := s.writes + 1))
    case Register(x) => s.(current := x)
    case TimerFires =>
      var fired := s.(timer := false);
      if s.current.None? then fired
      else if s.current.value in s.guards then fired.(rearms := s.rearms + 1)
      else Started(fired, s.current.value)
    case SweepTick(x) => if x in s.guards then s else Started(s, x)
    case RearmRuns => if s.rearms == 0 then s else Triggered(s.(rearms := s.rearms - 1))
    case CycleSucceeds(i) =>
      if i < |s.running| then Ended(s, i).(covered := Max(s.covered, s.running[i].seen)) else s
    case CycleThrows(i) => if i < |s.running| then Ended(s, i) else s
  }

  // ---------------------------------------------------------------- one cycle at a time

  /** The flag of an indexer is set exactly while a cycle of its runs, and no two of its cycles overlap. */
  ghost predicate Guarded(s: State) {
    && (forall i | 0 <= i < |s.running| :: s.running[i].indexer in s.guards)
    && (forall x | x in s.guards :: exists i :: 0 <= i < |s.running| && s.running[i].indexer == x)
    && (forall i, j | 0 <= i < j < |s.running| :: s.running[i].indexer != s.running[j].indexer)
  }

  lemma StartKeepsGuarded(s: State, x: IndexerId)
    requires Guarded(s) && x !in s.guards
    ensures Guarded(Started(s, x))
  {
    var t := Started(s, x);
    assert t.running[|s.running|].indexer == x;
    forall y | y in t.guards ensures exists i :: 0 <= i < |t.running| && t.running[i].indexer == y {
      if y != x {
        var i :| 0 <= i < |s.running| && s.running[i].indexer == y;
        assert t.running[i].indexer == y;
      }
    }
  }

  /** Where a cycle that goes on was before another one ended. */
  function Before(i: nat, k: nat): nat { if k < i then k else k + 1 }

  lemma LeftRunning(s: State, i: nat)
    requires i < |s.running|
    ensures |Ended(s, i).running| == |s.running| - 1
    ensures forall k | 0 <= k < |s.running| - 1 :: Ended(s, i).running[k] == s.running[Before(i, k)]
  {
  }

  lemma EndKeepsGuarded(s: State, i: nat)
    requires Guarded(s) && i < |s.running|
    ensures Guarded(Ended(s, i))
  {
    var t := Ended(s, i);
    LeftRunning(s, i);
    forall y | y in t.guards ensures exists k :: 0 <= k < |t.running| && t.running[k].indexer == y {
      var k :| 0 <= k < |s.running| && s.running[k].indexer == y;
      assert t.running[if k < i then k else k - 1].indexer == y;
    }
  }

  lemma StepKeepsGuarded(s: State, e: Event)
    requires Guarded(s) && Enabled(s, e)
    ensures Guarded(Step(s, e))
  {
    match e
    case TimerFires =>
      if s.current.Some? && s.current.value !in s.guards {
        StartKeepsGuarded(s.(timer := false), s.current.value);
      }
    case SweepTick(x) =>
      if x !in s.guards {
        StartKeepsGuarded(s, x);
      }
    case CycleSucceeds(i) => EndKeepsGuarded(s, i);
    case CycleThrows(i) => EndKeepsGuarded(s, i);
    case _ =>
  }

  function Reindexing(): Machine<State, Event> {
    Machine(START, Enabled, Step)
  }

  /** On every run, failing cycles included. */
  lemma CyclesNeverOverlap(events: seq<Event>)
    requires IsRun(Reindexing(), events)
    ensures Guarded(After(Reindexing(), events))
  {
    forall s: State, e: Event | Guarded(s) && Enabled(s, e) ensures Guarded(Step(s, e)) {
      StepKeepsGuarded(s, e);
    }
    InvariantHolds(Reindexing(), Guarded, events);
  }

  // ---------------------------------------------------------------- no write is lost

  /** Something will still index the `k`-th write, or a completed cycle has. */
  ghost predicate Remembered(s: State, k: nat) {
    || k < s.covered
    || s.timer
    || s.rearms > 0
    || exists i :: 0 <= i < |s.running| && k < s.running[i].seen
  }

  ghost predicate NothingLost(s: State) {
    forall k: nat | k < s.writes :: Remembered(s, k)
  }

  /** The runs on which nothing is promised: cycles that throw, and timers firing with no indexer registered. */
  predicate Harmless(s: State, e: Event) {
    !e.CycleThrows? && (e.TimerFires? ==> s.current.Some?)
  }

  lemma EndRemembers(s: State, i: nat, k: nat)
    requires Remembered(s, k) && i < |s.running|
    ensures Remembered(Step(s, CycleSucceeds(i)), k)
  {
    var t := Step(s, CycleSucceeds(i));
    if !s.timer && s.rearms == 0 && s.covered <= k {
      var j :| 0 <= j < |s.running| && k < s.running[j].seen;
      if j != i {
        assert t.running[if j < i then j else j - 1] == s.running[j];
      }
    }
  }

  /** A started cycle sees every write so far. */
  lemma StartRemembers(s: State, x: IndexerId, k: nat)
    requires k < s.writes && x !in s.guards
    ensures Remembered(Started(s, x), k)
  {
    assert Started(s, x).running[|s.running|].seen == s.writes;
  }

  lemma StepRemembers(s: State, e: Event, k: nat)
    requires NothingLost(s) && Enabled(s, e) && Harmless(s, e)
    requires k < Step(s, e).writes
    ensures Remembered(Step(s, e), k)
  {
    match e
    case Write =>
    case Register(_) => assert Remembered(s, k);
    case RearmRuns =>
    case TimerFires =>
      if s.current.value !in s.guards {
        StartRemembers(s.(timer := false), s.current.value, k);
      }
    case SweepTick(x) =>
      assert Remembered(s, k);
      if x !in s.guards {
        StartRemembers(s, x, k);
      }
    case CycleSucceeds(i) =>
      assert Remembered(s, k);
      EndRemembers(s, i, k);
  }

  /** The machine without the steps on which nothing is promised. */
  function SafeReindexing(): Machine<State, Event> {
    Machine(START, (s, e) => Enabled(s, e) && Harmless(s, e), Step)
  }

  /**
   * No lost write: on every run where an indexer is registered when the timer fires and no cycle
   * throws, every write is covered by a completed cycle that started after it, or the timer is armed, a
   * re-arm is pending, or a cycle that started after the write is running.
   */
  lemma NoWriteIsLost(events: seq<Event>)
    requires IsRun(SafeReindexing(), events)
    ensures NothingLost(After(SafeReindexing(), events))
  {
    forall s: State, e: Event | NothingLost(s) && Enabled(s, e) && Harmless(s, e)
      ensures NothingLost(Step(s, e))
    {
      forall k: nat | k < Step(s, e).writes ensures Remembered(Step(s, e), k) {
        StepRemembers(s, e, k);
      }
    }
    InvariantHolds(SafeReindexing(), NothingLost, events);
  }

  /** How many of the events are writes. */
  function WritesIn(events: seq<Event>): nat {
    if events == [] then 0
    else WritesIn(events[..|events| - 1]) + if events[|events| - 1].Write? then 1 else 0
  }

  /** The `j`-th event is the timer firing or a sweep, with so many writes before it. */
  ghost predicate StartsAfter(events: seq<Event>, j: nat, writes: nat) {
    && j < |events|
    && (events[j].TimerFires? || events[j].SweepTick?)
    && writes == WritesIn(events[..j])
  }

  /** A cycle that started after so many writes has succeeded by the `d`-th event. */
  ghost predicate CompletedAt(events: seq<Event>, d: nat, writes: nat) {
    && d < |events| && events[d].CycleSucceeds?
    && exists j: nat | j < d :: StartsAfter(events, j, writes)
  }

  ghost predicate StartedAfter(events: seq<Event>, writes: nat) {
    exists j: nat :: StartsAfter(events, j, writes)
  }

  /** Writes are counted, and what cycles have seen is what had been written when they started. */
  ghost predicate IsHistory(s: State, events: seq<Event>) {
    && s.writes == WritesIn(events)
    && (forall c | c in s.running :: StartedAfter(events, c.seen))
    && (s.covered == 0 || exists d: nat :: CompletedAt(events, d, s.covered))
  }

  lemma StartsStay(events: seq<Event>, e: Event, j: nat, writes: nat)
    requires StartsAfter(events, j, writes)
    ensures StartsAfter(events + [e], j, writes)
  {
    assert (events + [e])[..j] == events[..j];
  }

  lemma CompletedStays(events: seq<Event>, e: Event, d: nat, writes: nat)
    requires CompletedAt(events, d, writes)
    ensures CompletedAt(events + [e], d, writes)
  {
    var j: nat :| j < d && StartsAfter(events, j, writes);
    StartsStay(events, e, j, writes);
  }

  /** A cycle that was not running before has been started by this step. */
  lemma OthersKeepRunning(s: State, e: Event, i: nat)
    requires Enabled(s, e) && i < |Step(s, e).running|
    ensures (exists c :: 0 <= c < |s.running| && Step(s, e).running[i] == s.running[c])
      || ((e.TimerFires? || e.SweepTick?) && Step(s, e).running[i].seen == s.writes)
  {
    match e
    case CycleSucceeds(x) => LeftRunning(s, x);
    case CycleThrows(x) => LeftRunning(s, x);
    case _ => assert i < |s.running| ==> Step(s, e).running[i] == s.running[i];
  }

  lemma RunningIsHistory(s: State, events: seq<Event>, e: Event, i: nat) returns (j: nat)
    requires IsHistory(s, events) && Enabled(s, e) && i < |Step(s, e).running|
    ensures StartsAfter(events + [e], j, Step(s, e).running[i].seen)
  {
    OthersKeepRunning(s, e, i);
    var seen := Step(s, e).running[i].seen;
    if c :| 0 <= c < |s.running| && Step(s, e).running[i] == s.running[c] {
      assert s.running[c] in s.running && StartedAfter(events, seen);
      j :| StartsAfter(events, j, seen);
      StartsStay(events, e, j, seen);
    } else {
      j := |events|;
      assert (events + [e])[..j] == events;
    }
  }

  lemma CoveredIsHistory(s: State, events: seq<Event>, e: Event)
    requires IsHistory(s, events) && Enabled(s, e)
    ensures Step(s, e).covered == 0 || exists d: nat :: CompletedAt(events + [e], d, Step(s, e).covered)
  {
    var covered := Step(s, e).covered;
    if covered == s.covered {
      if d: nat :| CompletedAt(events, d, covered) {
        CompletedStays(events, e, d, covered);
      }
    } else {
      assert e.CycleSucceeds? && covered == s.running[e.cycle].seen;
      assert s.running[e.cycle] in s.running && StartedAfter(events, covered);
      var j: nat :| StartsAfter(events, j, covered);
      StartsStay(events, e, j, covered);
      assert CompletedAt(events + [e], |events|, covered);
    }
  }

  lemma HistoryOneMore(s: State, events: seq<Event>, e: Event)
    requires IsHistory(s, events) && Enabled(s, e)
    ensures IsHistory(Step(s, e), events + [e])
  {
    assert (events + [e])[..|events|] == events;
    var t := Step(s, e);
    forall c | c in t.running ensures StartedAfter(events + [e], c.seen) {
      var i :| 0 <= i < |t.running| && t.running[i] == c;
      var j := RunningIsHistory(s, events, e, i);
    }
    CoveredIsHistory(s, events, e);
  }

  /** On every run: what a cycle counts as covered had been written before it was started. */
  lemma {:induction false} CoverageIsHistory(events: seq<Event>)
    requires IsRun(Reindexing(), events)
    ensures IsHistory(After(Reindexing(), events), events)
    decreases |events|
  {
    if events != [] {
      var before, e := events[..|events| - 1], events[|events| - 1];
      CoverageIsHistory(before);
      HistoryOneMore(After(Reindexing(), before), before, e);
      assert before + [e] == events;
    }
  }

  /** A sweep, or the timer for the registered indexer, starts a cycle unless one of the indexer's is running. */
  lemma IdleIndexersStart(s: State, x: IndexerId)
    requires Guarded(s)
    ensures var idle := forall c | c in s.running :: c.indexer != x;
      && (idle ==> Step(s, SweepTick(x)).running == s.running + [Cycle(x, s.writes)])
      && (!idle ==> Step(s, SweepTick(x)) == s)
      && (s.current == Some(x) && idle ==> Step(s, TimerFires).running == s.running + [Cycle(x, s.writes)])
      && (s.current == Some(x) && !idle ==> Step(s, TimerFires).rearms == s.rearms + 1)
  {
    if x in s.guards {
      var i :| 0 <= i < |s.running| && s.running[i].indexer == x;
      assert s.running[i] in s.running;
    }
  }

  /** Steps that need no new write: cycles end, re-arms run, the timer fires. */
  predicate IsDraining(e: Event) {
    e.CycleSucceeds? || e.RearmRuns? || e.TimerFires?
  }

  ghost function AfterFrom(s: State, events: seq<Event>): State
    decreases |events|
  {
    if events == [] then s else AfterFrom(Step(s, events[0]), events[1..])
  }

  ghost predicate DrainsFrom(s: State, events: seq<Event>)
    decreases |events|
  {
    events == [] ||
    (Enabled(s, events[0]) && IsDraining(events[0]) && DrainsFrom(Step(s, events[0]), events[1..]))
  }

  /** First every running cycle ends, then every pending re-arm runs, then the timer fires and its cycle ends. */
  function Drain(s: State): seq<Event>
    decreases |s.running|, s.rearms, s.timer
  {
    if |s.running| > 0 then
      [CycleSucceeds(0)] + Drain(Step(s, CycleSucceeds(0)))
    else if s.rearms > 0 then
      [RearmRuns] + Drain(Step(s, RearmRuns))
    else if s.timer then [TimerFires, CycleSucceeds(0)]
    else []
  }

  /** With nothing running or pending, one firing of an armed timer covers all writes. */
  lemma LastFiringCovers(s: State)
    requires Guarded(s) && s.current.Some? && s.running == [] && s.timer
    ensures DrainsFrom(s, [TimerFires, CycleSucceeds(0)])
    ensures AfterFrom(s, [TimerFires, CycleSucceeds(0)]).covered >= s.writes
  {
    assert s.current.value !in s.guards;
    var t := Step(s, TimerFires);
    assert [TimerFires, CycleSucceeds(0)][1..] == [CycleSucceeds(0)];
    assert [CycleSucceeds(0)][1..] == [];
    assert AfterFrom(t, [CycleSucceeds(0)]) == AfterFrom(Step(t, CycleSucceeds(0)), []);
  }

  lemma DrainStep(s: State)
    requires Guarded(s) && NothingLost(s) && s.current.Some? && (|s.running| > 0 || s.rearms > 0)
    ensures var e := Drain(s)[0];
      var t := Step(s, e);
      && Enabled(s, e) && IsDraining(e) && Drain(s) == [e] + Drain(t)
      && Guarded(t) && NothingLost(t) && t.current == s.current && t.writes == s.writes
      && |t.running| + t.rearms == |s.running| + s.rearms - 1
  {
    var e := Drain(s)[0];
    StepKeepsGuarded(s, e);
    forall k: nat | k < Step(s, e).writes ensures Remembered(Step(s, e), k) {
      StepRemembers(s, e, k);
    }
  }

  lemma {:induction false} DrainCovers(s: State)
    requires Guarded(s) && NothingLost(s) && s.current.Some?
    ensures DrainsFrom(s, Drain(s)) && AfterFrom(s, Drain(s)).covered >= s.writes
    ensures |Drain(s)| <= |s.running| + s.rearms + 2
    decreases |s.running| + s.rearms
  {
    if |s.running| > 0 || s.rearms > 0 {
      DrainStep(s);
      DrainCovers(Step(s, Drain(s)[0]));
      assert Drain(s)[1..] == Drain(Step(s, Drain(s)[0]));
    } else if s.timer {
      LastFiringCovers(s);
    } else if s.writes > 0 {
      assert Remembered(s, s.writes - 1);
    }
  }

  /** A cycle other than the `i`-th has seen every write. */
  ghost predicate AnotherSawAll(s: State, i: nat) {
    exists j :: 0 <= j < |s.running| && j != i && s.writes <= s.running[j].seen
  }

  /** The cycles that are left after one ends are the others. */
  lemma OthersRun(s: State, i: nat, k: nat)
    requires i < |s.running|
    ensures (exists j :: 0 <= j < |Ended(s, i).running| && k < Ended(s, i).running[j].seen)
       <==> exists j :: 0 <= j < |s.running| && j != i && k < s.running[j].seen
  {
    var left := Ended(s, i).running;
    LeftRunning(s, i);
    if j :| 0 <= j < |left| && k < left[j].seen {
      assert s.running[Before(i, j)] == left[j];
    }
    if j :| 0 <= j < |s.running| && j != i && k < s.running[j].seen {
      assert left[if j < i then j else j - 1] == s.running[j];
    }
  }

  /**
   * When a cycle throws, no write is lost exactly if the timer is armed, a re-arm is pending, every
   * write had been covered before, or another running cycle has seen every write.
   */
  lemma ThrowLosesUnlessArmed(s: State, i: nat)
    requires NothingLost(s) && i < |s.running|
    ensures NothingLost(Step(s, CycleThrows(i))) <==>
      s.timer || s.rearms > 0 || s.writes <= s.covered || AnotherSawAll(s, i)
  {
    var t := Step(s, CycleThrows(i));
    if s.timer || s.rearms > 0 || s.writes <= s.covered {
      assert forall k: nat | k < t.writes :: Remembered(t, k);
    } else if AnotherSawAll(s, i) {
      forall k: nat | k < t.writes ensures Remembered(t, k) {
        OthersRun(s, i, k);
      }
    } else {
      OthersRun(s, i, s.writes - 1);
      assert !Remembered(t, s.writes - 1);
    }
  }

  /** A timer that fires with no indexer registered drops every write that nothing else remembers. */
  lemma FiringLosesUnlessRemembered(s: State)
    requires NothingLost(s) && s.timer && s.current.None?
    ensures NothingLost(Step(s, TimerFires)) <==>
      s.rearms > 0 || s.writes <= s.covered || AnotherSawAll(s, |s.running|)
  {
    var t := Step(s, TimerFires);
    if s.rearms > 0 || s.writes <= s.covered || AnotherSawAll(s, |s.running|) {
      assert forall k: nat | k < t.writes :: Remembered(t, k);
    } else {
      assert !Remembered(t, s.writes - 1);
    }
  }

  /** A cycle that throws can lose the write that started it: nothing is armed, pending or running. */
  lemma ThrowingCycleLosesItsWrite()
    ensures var events := [Register(Some(0)), Write, TimerFires, CycleThrows(0)];
      var s := AfterFrom(START, events);
      s.writes == 1 && !Remembered(s, 0)
  {
    var s1 := Step(START, Register(Some(0)));
    var s2 := Step(s1, Write);
    var s3 := Step(s2, TimerFires);
    var s4 := Step(s3, CycleThrows(0));
    assert AfterFrom(s3, [CycleThrows(0)]) == AfterFrom(s4, []);
    assert AfterFrom(s2, [TimerFires, CycleThrows(0)]) == s4;
    assert AfterFrom(s1, [Write, TimerFires, CycleThrows(0)]) == s4;
  }

  // ---------------------------------------------------------------- the component

  /** The module-level variables, the indexers' in-flight flags and the cycles in progress. */
  class Reindexer {
    var wikiIndexer: Option<IndexerId>
    var reindexDebounceTimer: bool
    var cycleRunning: set<IndexerId>
    var pendingRearms: nat
    ghost var Running: seq<Cycle>
    ghost var Writes: nat
    ghost var Covered: nat

    ghost function View(): State
      reads this
    {
      State(wikiIndexer, reindexDebounceTimer, cycleRunning, pendingRearms, Running, Writes, Covered)
    }

    constructor ()
      ensures View() == START
    {
      wikiIndexer, reindexDebounceTimer, cycleRunning, pendingRearms := None, false, {}, 0;
      Running, Writes, Covered := [], 0, 0;
    }

    method SetWikiIndexer(x: Option<IndexerId>)
      modifies this
      ensures View() == Step(old(View()), Register(x))
    {
      wikiIndexer := x;
    }

    method TriggerWikiReindex()
      modifies `reindexDebounceTimer
      ensures View() == Triggered(old(View()))
    {
      if reindexDebounceTimer {
        reindexDebounceTimer := false;
      }
      reindexDebounceTimer := true;
    }

    method WikiWritten()
      modifies this
      ensures View() == Step(old(View()), Write)
    {
      Writes := Writes + 1;
      TriggerWikiReindex();
    }

    /** The synchronous part of `runCycle`; `started` is false where the source resolves to null. */
    method RunCycle(x: IndexerId) returns (started: bool)
      modifies this
      ensures started <==> x !in old(cycleRunning)
      ensures View() == if started then Started(old(View()), x) else old(View())
    {
      if x in cycleRunning {
        return false;
      }
      cycleRunning := cycleRunning + {x};
      Running := Running + [Cycle(x, Writes)];
      return true;
    }

    method SweepTick(x: IndexerId)
      modifies this
      ensures View() == Step(old(View()), Event.SweepTick(x))
    {
      var _ := RunCycle(x);
    }

    method OnTimer()
      requires reindexDebounceTimer
      modifies this
      ensures View() == Step(old(View()), TimerFires)
    {
      reindexDebounceTimer := false;
      if wikiIndexer.None? {
        return;
      }
      var started := RunCycle(wikiIndexer.value);
      if !started {
        pendingRearms := pendingRearms + 1;
      }
    }

    method OnNullResult()
      requires pendingRearms > 0
      modifies this
      ensures View() == Step(old(View()), RearmRuns)
    {
      pendingRearms := pendingRearms - 1;
      TriggerWikiReindex();
    }

    /** The body of a cycle settles; the flag is cleared whether it succeeded or threw. */
    method CycleSettles(ghost i: nat, x: IndexerId, succeeded: bool)
      requires i < |Running| && Running[i].indexer == x
      modifies this
      ensures View() == Step(old(View()), if succeeded then CycleSucceeds(i) else CycleThrows(i))
    {
      cycleRunning := cycleRunning - {x};
      if succeeded {
        Covered := Max(Covered, Running[i].seen);
      }
      Running := Running[..i] + Running[i + 1..];
    }
  }
}
