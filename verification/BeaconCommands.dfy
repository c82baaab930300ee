/**
 * Commands to beacons over their reverse channels: each waits in a table for a response, a timeout or
 * a send error, which may come in any order and from any beacon.
 */
module BeaconCommands {
  import opened Options
  import opened Runs

  type BeaconId = string
  type RequestId = string

  /** A response frame; `ok` may be missing. */
  datatype Frame = Frame(id: RequestId, ok: Option<bool>, status: Option<int>, body: string)

  datatype CommandResponse = CommandResponse(ok: bool, status: Option<int>, body: string)

  datatype Outcome = Unsettled | Responded(response: CommandResponse) | TimedOut | SendFailed

  /** A command sent; `sentAt` is how many events had happened before, `sending` that its send is under way. */
  datatype Command = Command(id: RequestId, beacon: BeaconId, sentAt: nat, timer: bool, sending: bool, outcome: Outcome)

  datatype State = State(
    connections: set<BeaconId>, pendingRequests: map<RequestId, nat>, commands: seq<Command>, clock: nat)

  /** `Send` draws a new id; commands to a beacon that is not connected are rejected and leave no trace. */
  datatype Event =
    | Connects(beacon: BeaconId)
    | Disconnects(beacon: BeaconId)
    | Send(beacon: BeaconId, id: RequestId)
    | Receives(from: BeaconId, frame: Frame)
    | TimesOut(command: nat)
    | SendEnds(command: nat, failed: bool)

  const NOTHING := State({}, map[], [], 0)

  ghost predicate IsNew(s: State, id: RequestId) {
    id != "" && forall c | c in s.commands :: c.id != id
  }

  ghost predicate Enabled(s: State, e: Event) {
    match e
    case Send(_, id) => IsNew(s, id)
    case TimesOut(c) => c < |s.commands| && s.commands[c].timer
    case SendEnds(c, _) => c < |s.commands| && s.commands[c].sending
    case _ => true
  }

  /** A promise keeps the outcome it was first given. */
  function Settled(c: Command, o: Outcome): Command {
    c.(timer := false, outcome := if c.outcome.Unsettled? then o else c.outcome)
  }

  function ResponseOf(f: Frame): CommandResponse {
    CommandResponse(f.ok == Some(true), f.status, f.body)
  }

  function Sent(s: State, b: BeaconId, id: RequestId): State {
    if b !in s.connections then s
    else
      s.(pendingRequests := s.pendingRequests[id := |s.commands|],
         commands := s.commands + [Command(id, b, s.clock, true, true, Unsettled)])
  }

  /** A response settles the command its id is pending for, whichever beacon it comes from. */
  function Received(s: State, f: Frame): State {
    if f.id == "" || f.id !in s.pendingRequests || s.pendingRequests[f.id] >= |s.commands| then s
    else
      var c := s.pendingRequests[f.id];
      s.(pendingRequests := s.pendingRequests - {f.id},
         commands := s.commands[c := Settled(s.commands[c], Responded(ResponseOf(f)))])
  }

  function Ended(s: State, c: nat, o: Outcome): State
    requires c < |s.commands|
  {
    s.(pendingRequests := s.pendingRequests - {s.commands[c].id},
       commands := s.commands[c := Settled(s.commands[c], o)])
  }

  function Effect(s: State, e: Event): State {
    match e
    case Connects(b) => s.(connections := s.connections + {b})
    case Disconnects(b) => s.(connections := s.connections - {b})
    case Send(b, id) => Sent(s, b, id)
    case Receives(_, f) => Received(s, f)
    case TimesOut(c) => if c < |s.commands| then Ended(s, c, TimedOut) else s
    case SendEnds(c, failed) =>
      if c >= |s.commands| then s
      else
        var t := s.(commands := s.commands[c := s.commands[c].(sending := false)]);
        if failed then Ended(t, c, SendFailed) else t
  }

  function Step(s: State, e: Event): State {
    Effect(s, e).(clock := s.clock + 1)
  }

  ghost function Commanding(): Machine<State, Event> {
    Machine(NOTHING, (s, e) => Enabled(s, e), Step)
  }

  // ---------------------------------------------------------------- the table

  ghost predicate DistinctIds(s: State) {
    forall i, j | 0 <= i < j < |s.commands| :: s.commands[i].id != s.commands[j].id
  }

  /** The table holds exactly the unsettled commands, each under its id, and only they have a timer running. */
  ghost predicate TableIsUnsettled(s: State) {
    && (forall id | id in s.pendingRequests ::
          s.pendingRequests[id] < |s.commands| && s.commands[s.pendingRequests[id]].id == id
          && s.commands[s.pendingRequests[id]].outcome.Unsettled?)
    && (forall i | 0 <= i < |s.commands| && s.commands[i].outcome.Unsettled? ::
          s.commands[i].id in s.pendingRequests && s.pendingRequests[s.commands[i].id] == i)
    && (forall i | 0 <= i < |s.commands| :: s.commands[i].timer <==> s.commands[i].outcome.Unsettled?)
    && (forall i | 0 <= i < |s.commands| :: s.commands[i].id != "" && s.commands[i].sentAt < s.clock)
  }

  ghost predicate Sound(s: State) {
    DistinctIds(s) && TableIsUnsettled(s)
  }

  lemma EndKeepsSound(s: State, c: nat, o: Outcome)
    requires Sound(s) && c < |s.commands| && !o.Unsettled?
    ensures Sound(Ended(s, c, o))
  {
  }

  lemma SendKeepsSound(s: State, b: BeaconId, id: RequestId)
    requires Sound(s) && IsNew(s, id)
    ensures Sound(Sent(s, b, id).(clock := s.clock + 1))
  {
  }

  lemma ReceiveKeepsSound(s: State, f: Frame)
    requires Sound(s)
    ensures Sound(Received(s, f))
  {
    if f.id in s.pendingRequests {
      EndKeepsSound(s, s.pendingRequests[f.id], Responded(ResponseOf(f)));
    }
  }

  lemma SendEndKeepsSound(s: State, c: nat)
    requires Sound(s) && c < |s.commands|
    ensures Sound(s.(commands := s.commands[c := s.commands[c].(sending := false)]))
  {
  }

  lemma StepKeepsSound(s: State, e: Event)
    requires Sound(s) && Enabled(s, e)
    ensures Sound(Step(s, e))
  {
    match e
    case Connects(_) =>
    case Disconnects(_) =>
    case Send(b, id) => SendKeepsSound(s, b, id);
    case Receives(_, f) => ReceiveKeepsSound(s, f);
    case TimesOut(c) => EndKeepsSound(s, c, TimedOut);
    case SendEnds(c, failed) =>
      SendEndKeepsSound(s, c);
      if failed {
        EndKeepsSound(s.(commands := s.commands[c := s.commands[c].(sending := false)]), c, SendFailed);
      }
  }

  /** On every run the ids in the table are exactly those of the unsettled commands. */
  lemma TableHoldsUnsettled(events: seq<Event>)
    requires IsRun(Commanding(), events)
    ensures Sound(After(Commanding(), events))
  {
    forall s: State, e: Event | Sound(s) && Commanding().enabled(s, e) ensures Sound(Commanding().step(s, e)) {
      StepKeepsSound(s, e);
    }
    InvariantHolds(Commanding(), Sound, events);
  }

  // ---------------------------------------------------------------- the first of three wins

  /** What an event decides about the command with index `c` and this id, if anything. */
  function Verdict(e: Event, c: nat, id: RequestId): Outcome {
    match e
    case Receives(_, f) => if f.id == id then Responded(ResponseOf(f)) else Unsettled
    case TimesOut(d) => if d == c then TimedOut else Unsettled
    case SendEnds(d, failed) => if d == c && failed then SendFailed else Unsettled
    case _ => Unsettled
  }

  /** The first decision about the command among the events from the `n`-th on. */
  function FirstVerdict(events: seq<Event>, n: nat, c: nat, id: RequestId): Outcome
    decreases |events|
  {
    if |events| <= n then Unsettled
    else
      var before := FirstVerdict(events[..|events| - 1], n, c, id);
      if before.Unsettled? then Verdict(events[|events| - 1], c, id) else before
  }

  /** A step gives an unsettled command the event's verdict and leaves a settled one as it is. */
  lemma StepSettles(s: State, e: Event, c: nat)
    requires Sound(s) && Enabled(s, e) && c < |s.commands|
    ensures var before, after := s.commands[c], Step(s, e).commands;
      && c < |after|
      && after[c].id == before.id && after[c].sentAt == before.sentAt
      && after[c].outcome == if before.outcome.Unsettled? then Verdict(e, c, before.id) else before.outcome
  {
  }

  /**
   * Every command is settled exactly once: its outcome is the first matching response, timeout or send
   * error after it was sent, and it is unsettled while there was none.
   */
  lemma {:induction false} FirstDecisionSettles(events: seq<Event>, c: nat)
    requires IsRun(Commanding(), events) && c < |After(Commanding(), events).commands|
    ensures var cmd := After(Commanding(), events).commands[c];
      cmd.outcome == FirstVerdict(events, cmd.sentAt + 1, c, cmd.id)
    decreases |events|
  {
    var before, e := events[..|events| - 1], events[|events| - 1];
    var s := After(Commanding(), before);
    TableHoldsUnsettled(before);
    ClockCounts(before);
    if c < |s.commands| {
      FirstDecisionSettles(before, c);
      StepSettles(s, e, c);
    }
  }

  lemma {:induction false} ClockCounts(events: seq<Event>)
    ensures After(Commanding(), events).clock == |events|
    decreases |events|
  {
    if events != [] {
      ClockCounts(events[..|events| - 1]);
    }
  }

  // ---------------------------------------------------------------- the first of three wins, event by event

  /** A response with the command's id, its timeout, or an error of its send. */
  predicate Decides(e: Event, c: nat, id: RequestId) {
    match e
    case Receives(_, f) => f.id == id
    case TimesOut(d) => d == c
    case SendEnds(d, failed) => d == c && failed
    case _ => false
  }

  predicate NoneDecides(events: seq<Event>, n: nat, j: nat, c: nat, id: RequestId) {
    forall i | n <= i < j && i < |events| :: !Decides(events[i], c, id)
  }

  lemma {:induction false} UndecidedIsUnsettled(events: seq<Event>, n: nat, c: nat, id: RequestId)
    requires NoneDecides(events, n, |events|, c, id)
    ensures FirstVerdict(events, n, c, id).Unsettled?
    decreases |events|
  {
    if n < |events| {
      var before := events[..|events| - 1];
      assert forall i | n <= i < |before| :: before[i] == events[i];
      UndecidedIsUnsettled(before, n, c, id);
      assert !Decides(events[|events| - 1], c, id);
    }
  }

  lemma {:induction false} FirstVerdictIs(events: seq<Event>, n: nat, j: nat, c: nat, id: RequestId)
    requires n <= j < |events| && Decides(events[j], c, id) && NoneDecides(events, n, j, c, id)
    ensures FirstVerdict(events, n, c, id) == Verdict(events[j], c, id)
    decreases |events|
  {
    var before := events[..|events| - 1];
    if j == |events| - 1 {
      assert forall i | n <= i < |before| :: before[i] == events[i];
      UndecidedIsUnsettled(before, n, c, id);
    } else {
      assert before[j] == events[j] && forall i | n <= i < j :: before[i] == events[i];
      FirstVerdictIs(before, n, j, c, id);
    }
  }

  /** A response counts as a success only if it says so; its status and body are the command's. */
  ghost predicate DecidedBy(o: Outcome, e: Event) {
    match e
    case Receives(_, Frame(_, Some(true), status, body)) => o == Responded(CommandResponse(true, status, body))
    case Receives(_, Frame(_, Some(false), status, body)) => o == Responded(CommandResponse(false, status, body))
    case Receives(_, Frame(_, None, status, body)) => o == Responded(CommandResponse(false, status, body))
    case TimesOut(_) => o == TimedOut
    case SendEnds(_, _) => o == SendFailed
    case _ => false
  }

  lemma FirstVerdictMeans(events: seq<Event>, n: nat, j: nat, c: nat, id: RequestId)
    requires n <= j <= |events| && NoneDecides(events, n, j, c, id)
    requires j < |events| ==> Decides(events[j], c, id)
    ensures var o := FirstVerdict(events, n, c, id);
      if j < |events| then DecidedBy(o, events[j]) else o == Unsettled
  {
    if j < |events| {
      FirstVerdictIs(events, n, j, c, id);
    } else {
      UndecidedIsUnsettled(events, n, c, id);
    }
  }

  /** A step keeps what a command says about its sending, and one that is new was sent by this very event. */
  lemma StepSends(s: State, e: Event, c: nat)
    requires Enabled(s, e) && c < |Step(s, e).commands|
    ensures var cmd := Step(s, e).commands[c];
      if c < |s.commands| then
        cmd.sentAt == s.commands[c].sentAt && cmd.beacon == s.commands[c].beacon && cmd.id == s.commands[c].id
      else cmd.sentAt == s.clock && e == Send(cmd.beacon, cmd.id)
  {
  }

  /** A command was sent by the event at which it says it was. */
  lemma {:induction false} SentThen(events: seq<Event>, c: nat)
    requires IsRun(Commanding(), events) && c < |After(Commanding(), events).commands|
    ensures var cmd := After(Commanding(), events).commands[c];
      cmd.sentAt < |events| && events[cmd.sentAt] == Send(cmd.beacon, cmd.id)
    decreases |events|
  {
    var before, e := events[..|events| - 1], events[|events| - 1];
    var s := After(Commanding(), before);
    ClockCounts(before);
    StepSends(s, e, c);
    if c < |s.commands| {
      SentThen(before, c);
    }
  }

  /**
   * On every run a command has the outcome that the first event after its sending decides that is a
   * response with its id, its timeout or an error of its send, and none before.
   */
  lemma FirstEventDecides(events: seq<Event>, c: nat, j: nat)
    requires IsRun(Commanding(), events) && c < |After(Commanding(), events).commands|
    requires var cmd := After(Commanding(), events).commands[c];
      && cmd.sentAt < j <= |events| && NoneDecides(events, cmd.sentAt + 1, j, c, cmd.id)
      && (j < |events| ==> Decides(events[j], c, cmd.id))
    ensures var cmd := After(Commanding(), events).commands[c];
      && events[cmd.sentAt] == Send(cmd.beacon, cmd.id)
      && if j < |events| then DecidedBy(cmd.outcome, events[j]) else cmd.outcome == Unsettled
  {
    var cmd := After(Commanding(), events).commands[c];
    SentThen(events, c);
    FirstDecisionSettles(events, c);
    FirstVerdictMeans(events, cmd.sentAt + 1, j, c, cmd.id);
  }

  // ---------------------------------------------------------------- the component

  /** The module's connection and request tables, with the promises of the commands. */
  class Channel {
    var connections: set<BeaconId>
    var pendingRequests: map<RequestId, nat>
    var commands: seq<Command>
    var clock: nat

    ghost function View(): State
      reads this
    {
      State(connections, pendingRequests, commands, clock)
    }

    constructor ()
      ensures View() == NOTHING
    {
      connections, pendingRequests, commands, clock := {}, map[], [], 0;
    }

    /** `rejected` when the beacon is not connected. */
    method SendBeaconCommand(b: BeaconId, id: RequestId) returns (rejected: bool)
      modifies this
      ensures rejected <==> b !in old(connections)
      ensures View() == Step(old(View()), Send(b, id))
    {
      var now := clock;
      clock := clock + 1;
      if b !in connections {
        return true;
      }
      commands := commands + [Command(id, b, now, true, true, Unsettled)];
      pendingRequests := pendingRequests[id := |commands| - 1];
      return false;
    }

    method SettleCommand(c: nat, o: Outcome)
      requires c < |commands|
      modifies `commands
      ensures commands == old(commands)[c := Settled(old(commands)[c], o)]
    {
      commands := commands[c := commands[c].(timer := false)];
      if commands[c].outcome.Unsettled? {
        commands := commands[c := commands[c].(outcome := o)];
      }
    }

    /** The `response` branch of the frame dispatcher. */
    method DispatchResponse(from: BeaconId, f: Frame)
      requires forall id | id in pendingRequests :: pendingRequests[id] < |commands|
      modifies this
      ensures View() == Step(old(View()), Receives(from, f))
    {
      clock := clock + 1;
      if f.id == "" {
        return;
      }
      if f.id in pendingRequests {
        var c := pendingRequests[f.id];
        pendingRequests := pendingRequests - {f.id};
        SettleCommand(c, Responded(ResponseOf(f)));
      }
    }

    method OnTimeout(c: nat)
      requires c < |commands| && commands[c].timer
      modifies this
      ensures View() == Step(old(View()), TimesOut(c))
    {
      clock := clock + 1;
      pendingRequests := pendingRequests - {commands[c].id};
      SettleCommand(c, TimedOut);
    }

    method OnSendEnd(c: nat, failed: bool)
      requires c < |commands| && commands[c].sending
      modifies this
      ensures View() == Step(old(View()), SendEnds(c, failed))
    {
      clock := clock + 1;
      commands := commands[c := commands[c].(sending := false)];
      if failed {
        pendingRequests := pendingRequests - {commands[c].id};
        SettleCommand(c, SendFailed);
      }
    }
  }
}
