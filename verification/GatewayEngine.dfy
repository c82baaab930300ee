/**
 * The gateway engine: which record a message belongs to, batching of a record's messages behind a
 * debounce timer, and their dispatch on the record's tail.
 */
module GatewayEngine {
  import opened Options
  import opened Runs
  import opened DispatchTail
  import opened Batching

  datatype Surface = Surface(id: nat, handlesBatches: bool)

  datatype Conversation = Conversation(allowedSenders: Option<seq<string>>, surfaces: seq<Surface>)

  /** Conversations by record; an adapter's wildcard has the conversation id "*". */
  type Config = map<Record, Conversation>

  function Lookup(c: Config, r: Record): Option<Conversation> {
    if r in c then Some(c[r]) else None
  }

  function Wildcard(adapter: string): Record {
    Record(adapter, "*")
  }

  predicate SenderAllowed(allowed: Option<seq<string>>, sender: Option<string>) {
    allowed.Some? ==> sender.Some? && sender.value in allowed.value
  }

  predicate Applies(c: Config, r: Record, sender: Option<string>) {
    r in c && SenderAllowed(c[r].allowedSenders, sender)
  }

  /** A record buffers its messages when it is no wildcard and its sole surface handles batches. */
  predicate Batches(c: Config, r: Record) {
    && r in c
    && r.conversation != "*"
    && |c[r].surfaces| == 1
    && c[r].surfaces[0].handlesBatches
  }

  datatype Route = Dropped | Buffered(record: Record) | Queued(record: Record, candidates: seq<Surface>)

  /** Where a message of a sender for a record goes. */
  function RouteOf(c: Config, r: Record, sender: Option<string>): Route {
    var wildcard := Wildcard(r.adapter);
    if Applies(c, r, sender) && Batches(c, r) then Buffered(r)
    else
      var candidates :=
        (if Applies(c, r, sender) then c[r].surfaces else [])
        + (if Applies(c, wildcard, sender) then c[wildcard].surfaces else []);
      if Applies(c, r, sender) then Queued(r, candidates)
      else if wildcard in c then Queued(wildcard, candidates)
      else Dropped
  }

  method HandleMessage(c: Config, r: Record, sender: Option<string>) returns (route: Route)
    ensures route == RouteOf(c, r, sender)
  {
    var exact := Lookup(c, r);
    var wildcard := Lookup(c, Wildcard(r.adapter));
    var exactApplies := exact.Some? && SenderAllowed(exact.value.allowedSenders, sender);
    if exactApplies && Batches(c, r) {
      return Buffered(r);
    }
    var wildcardApplies := wildcard.Some? && SenderAllowed(wildcard.value.allowedSenders, sender);
    var candidates: seq<Surface> := [];
    if exactApplies {
      candidates := candidates + exact.value.surfaces;
    }
    if wildcardApplies {
      candidates := candidates + wildcard.value.surfaces;
    }
    if exactApplies {
      return Queued(r, candidates);
    }
    if wildcard.None? {
      return Dropped;
    }
    return Queued(Wildcard(r.adapter), candidates);
  }

  /** A record there is admits everyone, or those on its list; a message without a sender is on none. */
  ghost predicate Serves(c: Config, q: Record, sender: Option<string>) {
    && q in c
    && (|| c[q].allowedSenders.None?
        || exists i :: 0 <= i < |c[q].allowedSenders.value| && sender == Some(c[q].allowedSenders.value[i]))
  }

  /** How many of a record's surfaces a message of this sender may go to. */
  ghost function Serving(c: Config, q: Record, sender: Option<string>): nat {
    if Serves(c, q, sender) then |c[q].surfaces| else 0
  }

  /**
   * A message is buffered exactly when its record serves the sender, is no wildcard and has one surface,
   * which handles batches; it is dropped exactly when its record does not serve the sender and there is no
   * wildcard; and one that is queued is tried on its record's surfaces before the wildcard's.
   */
  lemma RouteMeans(c: Config, r: Record, sender: Option<string>)
    ensures var route, wildcard := RouteOf(c, r, sender), Record(r.adapter, "*");
      && (route.Buffered? <==>
            Serves(c, r, sender) && r.conversation != "*"
            && exists surface :: c[r].surfaces == [surface] && surface.handlesBatches)
      && (route.Buffered? ==> route.record == r)
      && (route.Dropped? <==> !Serves(c, r, sender) && wildcard !in c)
      && (route.Queued? ==> route.record == if Serves(c, r, sender) then r else wildcard)
      && (route.Queued? ==>
            var n, m := Serving(c, r, sender), Serving(c, wildcard, sender);
            && |route.candidates| == n + m
            && (forall i | 0 <= i < n :: route.candidates[i] == c[r].surfaces[i])
            && (forall i | 0 <= i < m :: route.candidates[n + i] == c[wildcard].surfaces[i]))
  {
    if r in c && |c[r].surfaces| == 1 {
      assert c[r].surfaces == [c[r].surfaces[0]];
    }
    SameAdmission(c, r, sender);
    SameAdmission(c, Record(r.adapter, "*"), sender);
  }

  lemma SameAdmission(c: Config, q: Record, sender: Option<string>)
    ensures Serves(c, q, sender) <==> Applies(c, q, sender)
  {
  }

  /** The loop of a queued function: candidates are asked in order until one handles the message. */
  method AskCandidates(candidates: seq<Surface>, handles: Surface -> bool) returns (asked: seq<Surface>, handled: bool)
    ensures asked <= candidates
    ensures handled <==> exists surface :: surface in candidates && handles(surface)
    ensures handled ==> asked != [] && handles(asked[|asked| - 1])
    ensures forall i | 0 <= i < |asked| && (!handled || i < |asked| - 1) :: !handles(asked[i])
    ensures !handled ==> asked == candidates
  {
    for i := 0 to |candidates|
      invariant forall k | 0 <= k < i :: !handles(candidates[k])
    {
      if handles(candidates[i]) {
        assert candidates[i] in candidates;
        return candidates[..i + 1], true;
      }
    }
    return candidates, false;
  }

  /** The record on whose tail a message is dispatched, at once or in a batch. */
  function TailRecord(c: Config, r: Record, sender: Option<string>): Option<Record> {
    match RouteOf(c, r, sender)
    case Dropped => None
    case Buffered(q) => Some(q)
    case Queued(q, _) => Some(q)
  }

  ghost predicate OneTail(c: Config, r: Record) {
    forall a: Option<string>, b: Option<string> ::
      TailRecord(c, r, a).Some? && TailRecord(c, r, b).Some? ==> TailRecord(c, r, a) == TailRecord(c, r, b)
  }

  /** The record serves some senders only, and its adapter has a wildcard record for the others. */
  predicate SendersAreSplit(c: Config, r: Record) {
    && r in c && c[r].allowedSenders.Some? && c[r].allowedSenders.value != []
    && Wildcard(r.adapter) in c && r != Wildcard(r.adapter)
  }

  /** The messages of one conversation share a tail exactly when its senders are not split. */
  lemma OneTailUnlessSendersAreSplit(c: Config, r: Record)
    ensures OneTail(c, r) <==> !SendersAreSplit(c, r)
  {
    if SendersAreSplit(c, r) {
      var known := Some(c[r].allowedSenders.value[0]);
      assert TailRecord(c, r, known) == Some(r);
      assert TailRecord(c, r, None) == Some(Wildcard(r.adapter));
    }
  }

  // ---------------------------------------------------------------- the engine as a machine

  /** `pushed` remembers what each batching record was given. */
  datatype EngineState = EngineState(
    dispatch: State, batches: map<Record, Batch>, pushed: map<Record, seq<Message>>, stopped: bool)

  datatype EngineEvent =
    | Arrives(message: Message)
    | Fires(fired: Record)
    | Works(step: Event)
    | Stops

  const FRESH := EngineState(IDLE, map[], map[], false)

  function BatchOf(s: EngineState, r: Record): Batch {
    if r in s.batches then s.batches[r] else EMPTY
  }

  function PushedTo(s: EngineState, r: Record): seq<Message> {
    if r in s.pushed then s.pushed[r] else []
  }

  predicate Enabled(s: EngineState, e: EngineEvent) {
    match e
    case Arrives(_) => true
    case Fires(r) => BatchOf(s, r).timer
    case Works(step) => !step.Submit? && DispatchTail.Enabled(s.dispatch, step)
    case Stops => true
  }

  function Received(c: Config, s: EngineState, m: Message): EngineState {
    match RouteOf(c, m.address, m.sender)
    case Dropped => s
    case Buffered(q) =>
      s.(batches := s.batches[q := Pushed(BatchOf(s, q), m)], pushed := s.pushed[q := PushedTo(s, q) + [m]])
    case Queued(q, _) => s.(dispatch := Submitted(s.dispatch, q, [m]))
  }

  function Fired(s: EngineState, r: Record): EngineState {
    var batch := BatchOf(s, r).buffer;
    var t := s.(batches := s.batches[r := EMPTY]);
    if batch == [] then t else t.(dispatch := Submitted(s.dispatch, r, batch))
  }

  function Step(c: Config, s: EngineState, e: EngineEvent): EngineState {
    match e
    case Arrives(m) => if s.stopped then s else Received(c, s, m)
    case Fires(r) => Fired(s, r)
    case Works(step) => s.(dispatch := DispatchTail.Step(s.dispatch, step))
    case Stops => s.(batches := map[], stopped := true)
  }

  function Engine(c: Config): Machine<EngineState, EngineEvent> {
    Machine(FRESH, Enabled, (s, e) => Step(c, s, e))
  }

  function AllSubmitted(s: EngineState, r: Record): seq<Message> {
    Submissions(s.dispatch.jobs, r, |s.dispatch.jobs|)
  }

  /** What a batching record was given is in its submitted batches and its buffer, in order, until the stop. */
  ghost predicate Conserves(s: EngineState, r: Record) {
    && (BatchOf(s, r).timer <==> BatchOf(s, r).buffer != [])
    && (!s.stopped ==> AllSubmitted(s, r) + BatchOf(s, r).buffer == PushedTo(s, r))
    && (s.stopped ==> BatchOf(s, r) == EMPTY && AllSubmitted(s, r) <= PushedTo(s, r))
  }

  ghost predicate Sound(c: Config, s: EngineState) {
    && Serial(s.dispatch)
    && (forall r: Record :: HandsInOrder(s.dispatch, r))
    && (forall r: Record | Batches(c, r) :: Conserves(s, r))
    && (forall r: Record | r in s.batches :: Batches(c, r))
  }

  lemma SubmittedAppends(d: State, q: Record, batch: seq<Message>, r: Record)
    ensures var t := Submitted(d, q, batch);
      Submissions(t.jobs, r, |t.jobs|)
      == Submissions(d.jobs, r, |d.jobs|) + if q == r then batch else []
  {
    SubmissionsIgnorePhases(d.jobs, Submitted(d, q, batch).jobs, r, |d.jobs|);
  }

  lemma WorkKeepsSubmissions(d: State, e: Event, r: Record)
    requires DispatchTail.Enabled(d, e) && !e.Submit?
    ensures var t := DispatchTail.Step(d, e);
      Submissions(t.jobs, r, |t.jobs|) == Submissions(d.jobs, r, |d.jobs|)
  {
    SubmissionsIgnorePhases(d.jobs, DispatchTail.Step(d, e).jobs, r, |d.jobs|);
  }

  lemma ReceiveConserves(c: Config, s: EngineState, m: Message, r: Record)
    requires Conserves(s, r) && Batches(c, r) && !s.stopped
    ensures Conserves(Received(c, s, m), r)
  {
    match RouteOf(c, m.address, m.sender)
    case Dropped =>
    case Buffered(p) =>
      assert p == r ==>
        AllSubmitted(s, r) + (BatchOf(s, r).buffer + [m]) == (AllSubmitted(s, r) + BatchOf(s, r).buffer) + [m];
    case Queued(p, _) =>
      SubmittedAppends(s.dispatch, p, [m], r);
  }

  lemma FireConserves(s: EngineState, q: Record, r: Record)
    requires Conserves(s, r) && BatchOf(s, q).timer
    ensures Conserves(Fired(s, q), r)
  {
    SubmittedAppends(s.dispatch, q, BatchOf(s, q).buffer, r);
  }

  lemma StepConserves(c: Config, s: EngineState, e: EngineEvent, r: Record)
    requires Sound(c, s) && Enabled(s, e) && Batches(c, r)
    ensures Conserves(Step(c, s, e), r)
  {
    assert Conserves(s, r);
    match e
    case Arrives(m) =>
      if !s.stopped {
        ReceiveConserves(c, s, m, r);
      }
    case Fires(q) => FireConserves(s, q, r);
    case Works(step) => WorkKeepsSubmissions(s.dispatch, step, r);
    case Stops =>
  }

  /** Every event is a dispatch step or leaves dispatch alone. */
  lemma StepDispatches(c: Config, s: EngineState, e: EngineEvent)
    requires Sound(c, s) && Enabled(s, e)
    ensures Serial(Step(c, s, e).dispatch) && forall r: Record :: HandsInOrder(Step(c, s, e).dispatch, r)
  {
    var t := Step(c, s, e);
    if t.dispatch != s.dispatch {
      var d := if e.Works? then e.step
               else if e.Fires? then Submit(e.fired, BatchOf(s, e.fired).buffer)
               else Submit(RouteOf(c, e.message.address, e.message.sender).record, [e.message]);
      assert t.dispatch == DispatchTail.Step(s.dispatch, d);
      StepKeepsSerial(s.dispatch, d);
      forall r: Record ensures HandsInOrder(t.dispatch, r) {
        StepKeepsHands(s.dispatch, d, r);
      }
    }
  }

  lemma StepKeepsSound(c: Config, s: EngineState, e: EngineEvent)
    requires Sound(c, s) && Enabled(s, e)
    ensures Sound(c, Step(c, s, e))
  {
    StepDispatches(c, s, e);
    forall r: Record | Batches(c, r) ensures Conserves(Step(c, s, e), r) {
      StepConserves(c, s, e, r);
    }
  }

  lemma EngineIsSound(c: Config, events: seq<EngineEvent>)
    requires IsRun(Engine(c), events)
    ensures Sound(c, Runs.After(Engine(c), events))
  {
    var inv := (s: EngineState) => Sound(c, s);
    forall s: EngineState, e: EngineEvent | inv(s) && Engine(c).enabled(s, e) ensures inv(Engine(c).step(s, e)) {
      StepKeepsSound(c, s, e);
    }
    InvariantHolds(Engine(c), inv, events);
  }

  lemma {:induction false} SubmissionsGrow(jobs: seq<Job>, r: Record, m: nat, n: nat)
    requires m <= n <= |jobs|
    ensures Submissions(jobs, r, m) <= Submissions(jobs, r, n)
    decreases n
  {
    if m < n {
      SubmissionsGrow(jobs, r, m, n - 1);
    }
  }

  /**
   * On every run a batching record's surface has been handed, in the order of arrival and none twice, a
   * first part of the messages pushed; and until the stop none of the others is lost.
   */
  lemma BatchedMessagesArriveInOrder(c: Config, events: seq<EngineEvent>, r: Record)
    requires IsRun(Engine(c), events) && Batches(c, r)
    ensures var s := Runs.After(Engine(c), events);
      && Handed(s.dispatch.jobs, s.dispatch.log, r) <= PushedTo(s, r)
      && (!s.stopped ==> AllSubmitted(s, r) + BatchOf(s, r).buffer == PushedTo(s, r))
  {
    EngineIsSound(c, events);
    var s := Runs.After(Engine(c), events);
    assert Conserves(s, r) && HandsInOrder(s.dispatch, r);
    SubmissionsGrow(s.dispatch.jobs, r, NextOf(s.dispatch.jobs, r, 0), |s.dispatch.jobs|);
  }

  // ---------------------------------------------------------------- turns of one conversation

  predicate RoutedTo(c: Config, batch: seq<Message>, r: Record) {
    forall m | m in batch :: TailRecord(c, m.address, m.sender) == Some(r)
  }

  /** Messages are queued and buffered at the record they are routed to. */
  ghost predicate Routed(c: Config, s: EngineState) {
    && (forall j | 0 <= j < |s.dispatch.jobs| :: RoutedTo(c, s.dispatch.jobs[j].batch, s.dispatch.jobs[j].record))
    && (forall r: Record :: RoutedTo(c, BatchOf(s, r).buffer, r))
  }

  lemma ReceiveKeepsRouted(c: Config, s: EngineState, m: Message)
    requires Routed(c, s)
    ensures Routed(c, Received(c, s, m))
  {
    var t := Received(c, s, m);
    forall r: Record ensures RoutedTo(c, BatchOf(t, r).buffer, r) {
      assert RoutedTo(c, BatchOf(s, r).buffer, r);
    }
  }

  lemma FireKeepsRouted(c: Config, s: EngineState, q: Record)
    requires Routed(c, s)
    ensures Routed(c, Fired(s, q))
  {
    var t := Fired(s, q);
    assert RoutedTo(c, BatchOf(s, q).buffer, q);
    forall r: Record ensures RoutedTo(c, BatchOf(t, r).buffer, r) {
      assert RoutedTo(c, BatchOf(s, r).buffer, r);
    }
  }

  lemma StepKeepsRouted(c: Config, s: EngineState, e: EngineEvent)
    requires Routed(c, s) && Enabled(s, e)
    ensures Routed(c, Step(c, s, e))
  {
    match e
    case Arrives(m) =>
      if !s.stopped {
        ReceiveKeepsRouted(c, s, m);
      }
    case Fires(r) => FireKeepsRouted(c, s, r);
    case Works(step) =>
      var t := Step(c, s, e);
      forall r: Record ensures RoutedTo(c, BatchOf(t, r).buffer, r) {
        assert RoutedTo(c, BatchOf(s, r).buffer, r);
      }
    case Stops =>
  }

  lemma EngineIsRouted(c: Config, events: seq<EngineEvent>)
    requires IsRun(Engine(c), events)
    ensures Routed(c, Runs.After(Engine(c), events))
  {
    var inv := (s: EngineState) => Routed(c, s);
    forall s: EngineState, e: EngineEvent | inv(s) && Engine(c).enabled(s, e) ensures inv(Engine(c).step(s, e)) {
      StepKeepsRouted(c, s, e);
    }
    InvariantHolds(Engine(c), inv, events);
  }

  /** A running function has a message addressed to this conversation. */
  predicate RunsMessageOf(d: State, j: nat, r: Record) {
    j < |d.jobs| && d.jobs[j].phase == Running && exists m :: m in d.jobs[j].batch && m.address == r
  }

  /** Two functions with messages of the conversation are running. */
  ghost predicate TwoTurns(d: State, r: Record) {
    exists i: nat, j: nat :: i < j && RunsMessageOf(d, i, r) && RunsMessageOf(d, j, r)
  }

  /** On no run two functions with messages of one conversation run at once, unless its senders are split. */
  lemma TurnsOverlapOnlyWhenSplit(c: Config, events: seq<EngineEvent>, r: Record)
    requires IsRun(Engine(c), events) && TwoTurns(Runs.After(Engine(c), events).dispatch, r)
    ensures SendersAreSplit(c, r)
  {
    var d := Runs.After(Engine(c), events).dispatch;
    EngineIsSound(c, events);
    EngineIsRouted(c, events);
    var i: nat, j: nat :| i < j && RunsMessageOf(d, i, r) && RunsMessageOf(d, j, r);
    AtMostOneRuns(d, i, j);
    assert RoutedTo(c, d.jobs[i].batch, d.jobs[i].record) && RoutedTo(c, d.jobs[j].batch, d.jobs[j].record);
    assert !OneTail(c, r);
    OneTailUnlessSendersAreSplit(c, r);
  }

  /** A message of a sender the record serves; its batch fires, if it is buffered; and its function starts. */
  function KnownStarts(c: Config, m: Message): seq<EngineEvent> {
    [] + [Arrives(m)] + (if Batches(c, m.address) then [Fires(m.address)] else []) + [Works(Start(0))]
  }

  lemma AfterKnown(c: Config, m: Message)
    requires Applies(c, m.address, m.sender)
    ensures IsRun(Engine(c), KnownStarts(c, m))
    ensures var s := Runs.After(Engine(c), KnownStarts(c, m));
      && !s.stopped && s.dispatch.settled == {} && s.dispatch.tails == map[m.address := 0]
      && s.dispatch.jobs == [Job(m.address, [m], Resolved, Running)]
  {
    var arrived: seq<EngineEvent> := [] + [Arrives(m)];
    RunOneMore(Engine(c), [], Arrives(m));
    if Batches(c, m.address) {
      assert EMPTY.buffer + [m] == [m];
      RunOneMore(Engine(c), arrived, Fires(m.address));
      RunOneMore(Engine(c), arrived + [Fires(m.address)], Works(Start(0)));
    } else {
      assert arrived + [] == arrived;
      RunOneMore(Engine(c), arrived, Works(Start(0)));
    }
  }

  /** Then a message of a sender it does not serve, whose function starts too. */
  function BothStart(c: Config, m: Message, m': Message): seq<EngineEvent> {
    KnownStarts(c, m) + [Arrives(m')] + [Works(Start(1))]
  }

  /** Two messages of one conversation, one of a sender its record serves and one the wildcard gets, can run at once. */
  lemma SplitSendersRunTogether(c: Config, m: Message, m': Message)
    requires m.address == m'.address != Wildcard(m.address.adapter) && Wildcard(m.address.adapter) in c
    requires Applies(c, m.address, m.sender) && !Applies(c, m.address, m'.sender)
    ensures IsRun(Engine(c), BothStart(c, m, m'))
    ensures var d := Runs.After(Engine(c), BothStart(c, m, m')).dispatch;
      d.jobs == [Job(m.address, [m], Resolved, Running), Job(Wildcard(m.address.adapter), [m'], Resolved, Running)]
  {
    AfterKnown(c, m);
    RunOneMore(Engine(c), KnownStarts(c, m), Arrives(m'));
    RunOneMore(Engine(c), KnownStarts(c, m) + [Arrives(m')], Works(Start(1)));
  }

  /** A conversation can run two turns at once exactly when its senders are split. */
  lemma TurnsOverlapExactlyWhenSplit(c: Config, r: Record)
    ensures SendersAreSplit(c, r) <==>
      exists events :: IsRun(Engine(c), events) && TwoTurns(Runs.After(Engine(c), events).dispatch, r)
  {
    if SendersAreSplit(c, r) {
      var m := Message(r, Some(c[r].allowedSenders.value[0]), "");
      var m' := Message(r, None, "");
      SplitSendersRunTogether(c, m, m');
      var d := Runs.After(Engine(c), BothStart(c, m, m')).dispatch;
      assert RunsMessageOf(d, 0, r) by {
        assert m in d.jobs[0].batch;
      }
      assert RunsMessageOf(d, 1, r) by {
        assert m' in d.jobs[1].batch;
      }
      assert TwoTurns(d, r);
    }
    if events :| IsRun(Engine(c), events) && TwoTurns(Runs.After(Engine(c), events).dispatch, r) {
      TurnsOverlapOnlyWhenSplit(c, events, r);
    }
  }
}
