/**
 * Local agent processes: starting one session per conversation at a time, and the single request slot
 * of each session, filled by requests and emptied by reply lines and failures in any order.
 */
module AgentSession {
  import opened Options
  import opened Runs

  type ConversationId = string

  datatype Kind = Chat | Export | Import

  /** What a line of the agent's output says. */
  datatype Line =
    | AssistantMessage(content: string)
    | TurnComplete
    | ContextExport(ok: bool, payload: string)
    | ContextImport(ok: bool, payload: string)
    | Other

  /**
   * How a request's promise settled. `Refused` requests were never accepted; `WriteFailed` is a write
   * that threw; replies carry the kind of request they answer.
   */
  datatype Outcome =
    | Open
    | Refused
    | WriteFailed
    | Resolved(answers: Kind, value: string)
    | Rejected(answers: Kind, error: string)
    | ExitedEarly

  /** `heard` collects the assistant messages of the session while the request is open. */
  datatype Request = SlotRequest(session: nat, kind: Kind, heard: seq<string>, outcome: Outcome)

  datatype Slot = Slot(request: nat, kind: Kind, lastAssistantMessage: string)

  datatype StartPhase = InProgress | Succeeded(session: nat) | Failed

  /** A call of `startSession`; `cleaned` says that its first caller has removed it from the table. */
  datatype Start = Start(conversation: ConversationId, phase: StartPhase, cleaned: bool)

  /** `slots` holds the pending slot of every managed session, gone ones included. */
  datatype State = State(
    sessions: map<ConversationId, nat>, inFlight: map<ConversationId, nat>, starts: seq<Start>,
    slots: seq<Option<Slot>>, requests: seq<Request>)

  datatype Event =
    | SpawnCalled(conversation: ConversationId)
    | StartEnds(start: nat, succeeds: bool)
    | SpawnCleansUp(start: nat)
    | RequestCalled(session: nat, kind: Kind, writes: bool)
    | LineArrives(session: nat, line: Line)
    | PendingFails(session: nat)
    | SessionForgotten(conversation: ConversationId)

  const EMPTY := State(map[], map[], [], [], [])

  predicate Enabled(s: State, e: Event) {
    match e
    case StartEnds(i, _) => i < |s.starts| && s.starts[i].phase.InProgress?
    case SpawnCleansUp(i) => i < |s.starts| && !s.starts[i].phase.InProgress? && !s.starts[i].cleaned
    case RequestCalled(m, _, _) => m < |s.slots|
    case LineArrives(m, _) => m < |s.slots|
    case PendingFails(m) => m < |s.slots|
    case _ => true
  }

  // ---------------------------------------------------------------- spawning

  /** A new start, unless the conversation has a session or a start in flight that the caller shares. */
  function Spawned(s: State, c: ConversationId): State {
    if c in s.sessions || c in s.inFlight then s
    else s.(starts := s.starts + [Start(c, InProgress, false)], inFlight := s.inFlight[c := |s.starts|])
  }

  function StartEnded(s: State, i: nat, succeeds: bool): State
    requires i < |s.starts|
  {
    if succeeds then
      s.(starts := s.starts[i := s.starts[i].(phase := Succeeded(|s.slots|))],
         sessions := s.sessions[s.starts[i].conversation := |s.slots|],
         slots := s.slots + [None])
    else s.(starts := s.starts[i := s.starts[i].(phase := Failed)])
  }

  function CleanedUp(s: State, i: nat): State
    requires i < |s.starts|
  {
    s.(starts := s.starts[i := s.starts[i].(cleaned := true)], inFlight := s.inFlight - {s.starts[i].conversation})
  }

  // ---------------------------------------------------------------- the slot

  /** Refused when the slot is taken; otherwise the slot is taken, even if the write then throws. */
  function Requested(s: State, m: nat, k: Kind, writes: bool): State
    requires m < |s.slots|
  {
    if s.slots[m].Some? then s.(requests := s.requests + [SlotRequest(m, k, [], Refused)])
    else
      s.(slots := s.slots[m := Some(Slot(|s.requests|, k, ""))],
         requests := s.requests + [SlotRequest(m, k, [], if writes then Open else WriteFailed)])
  }

  /** A promise keeps the outcome it first settled with. */
  function Settled(r: Request, o: Outcome): Request {
    if r.outcome.Open? then r.(outcome := o) else r
  }

  function Emptied(s: State, m: nat, o: Outcome): State
    requires m < |s.slots| && s.slots[m].Some? && s.slots[m].value.request < |s.requests|
  {
    var r := s.slots[m].value.request;
    s.(slots := s.slots[m := None], requests := s.requests[r := Settled(s.requests[r], o)])
  }

  function Heard(s: State, m: nat, content: string): State
    requires m < |s.slots| && s.slots[m].Some? && s.slots[m].value.request < |s.requests|
  {
    var r := s.slots[m].value.request;
    s.(slots := s.slots[m := Some(s.slots[m].value.(lastAssistantMessage := content))],
       requests := s.requests[r := s.requests[r].(heard := s.requests[r].heard + [content])])
  }

  /** The request kind a line answers, with how it settles it; None for lines that settle nothing. */
  function ReplyOf(slot: Slot, line: Line): Option<Outcome> {
    match line
    case TurnComplete => if slot.kind == Chat then Some(Resolved(Chat, slot.lastAssistantMessage)) else None
    case ContextExport(ok, payload) =>
      if slot.kind != Export then None
      else Some(if ok then Resolved(Export, payload) else Rejected(Export, payload))
    case ContextImport(ok, payload) =>
      if slot.kind != Import then None
      else Some(if ok then Resolved(Import, "") else Rejected(Import, payload))
    case _ => None
  }

  function LineHandled(s: State, m: nat, line: Line): State
    requires m < |s.slots|
  {
    if s.slots[m].None? || s.slots[m].value.request >= |s.requests| then s
    else if line.AssistantMessage? then Heard(s, m, line.content)
    else
      match ReplyOf(s.slots[m].value, line)
      case None => s
      case Some(o) => Emptied(s, m, o)
  }

  function PendingFailed(s: State, m: nat): State
    requires m < |s.slots|
  {
    if s.slots[m].None? || s.slots[m].value.request >= |s.requests| then s else Emptied(s, m, ExitedEarly)
  }

  function Step(s: State, e: Event): State {
    match e
    case SpawnCalled(c) => Spawned(s, c)
    case StartEnds(i, succeeds) => if i < |s.starts| then StartEnded(s, i, succeeds) else s
    case SpawnCleansUp(i) => if i < |s.starts| then CleanedUp(s, i) else s
    case RequestCalled(m, k, writes) => if m < |s.slots| then Requested(s, m, k, writes) else s
    case LineArrives(m, line) => if m < |s.slots| then LineHandled(s, m, line) else s
    case PendingFails(m) => if m < |s.slots| then PendingFailed(s, m) else s
    case SessionForgotten(c) => s.(sessions := s.sessions - {c})
  }

  function Backend(): Machine<State, Event> {
    Machine(EMPTY, Enabled, Step)
  }

  // ---------------------------------------------------------------- the invariant

  /** The table of starts in flight names exactly the starts not cleaned up, which include all in progress. */
  ghost predicate SingleFlight(s: State) {
    && (forall c | c in s.inFlight ::
          s.inFlight[c] < |s.starts| && s.starts[s.inFlight[c]].conversation == c && !s.starts[s.inFlight[c]].cleaned)
    && (forall i | 0 <= i < |s.starts| && !s.starts[i].cleaned ::
          s.starts[i].conversation in s.inFlight && s.inFlight[s.starts[i].conversation] == i)
    && (forall i | 0 <= i < |s.starts| && s.starts[i].phase.InProgress? :: !s.starts[i].cleaned)
  }

  function LastOr(heard: seq<string>, other: string): string {
    if heard == [] then other else heard[|heard| - 1]
  }

  /** A taken slot is that of a request of the session, not yet replied to, and holds its last message. */
  ghost predicate SlotFits(s: State, m: nat)
    requires m < |s.slots|
  {
    s.slots[m].Some? ==>
      var slot := s.slots[m].value;
      && slot.request < |s.requests|
      && var r := s.requests[slot.request];
        && r.session == m && r.kind == slot.kind && (r.outcome.Open? || r.outcome.WriteFailed?)
        && slot.lastAssistantMessage == LastOr(r.heard, "")
  }

  /** An open request is in its session's slot; a settled one was answered by a reply of its own kind. */
  ghost predicate RequestFits(s: State, i: nat)
    requires i < |s.requests|
  {
    var r := s.requests[i];
    && r.session < |s.slots|
    && (r.outcome.Open? ==> s.slots[r.session].Some? && s.slots[r.session].value.request == i)
    && (r.outcome.Resolved? || r.outcome.Rejected? ==> r.outcome.answers == r.kind)
    && (r.outcome.Resolved? && r.kind == Chat ==> r.outcome.value == LastOr(r.heard, ""))
  }

  ghost predicate Slotted(s: State) {
    && (forall m | 0 <= m < |s.slots| :: SlotFits(s, m))
    && (forall i | 0 <= i < |s.requests| :: RequestFits(s, i))
  }

  ghost predicate Sound(s: State) {
    SingleFlight(s) && Slotted(s)
  }

  lemma SpawnKeepsSingleFlight(s: State, c: ConversationId)
    requires SingleFlight(s)
    ensures SingleFlight(Spawned(s, c))
  {
  }

  lemma StartEndKeepsSingleFlight(s: State, i: nat, succeeds: bool)
    requires SingleFlight(s) && i < |s.starts|
    ensures SingleFlight(StartEnded(s, i, succeeds))
  {
  }

  lemma CleanupKeepsSingleFlight(s: State, i: nat)
    requires SingleFlight(s) && Enabled(s, SpawnCleansUp(i))
    ensures SingleFlight(CleanedUp(s, i))
  {
  }

  lemma RequestKeepsSlotted(s: State, m: nat, k: Kind, writes: bool)
    requires Slotted(s) && m < |s.slots|
    ensures Slotted(Requested(s, m, k, writes))
  {
    var t := Requested(s, m, k, writes);
    forall n | 0 <= n < |t.slots| ensures SlotFits(t, n) {
      assert SlotFits(s, n);
    }
    forall i | 0 <= i < |t.requests| ensures RequestFits(t, i) {
      assert i < |s.requests| ==> RequestFits(s, i);
    }
  }

  lemma EmptyKeepsSlotted(s: State, m: nat, o: Outcome)
    requires Slotted(s) && m < |s.slots| && s.slots[m].Some?
    requires o.ExitedEarly? || exists line :: ReplyOf(s.slots[m].value, line) == Some(o)
    ensures s.slots[m].value.request < |s.requests| && Slotted(Emptied(s, m, o))
  {
    assert SlotFits(s, m);
    var t := Emptied(s, m, o);
    forall n | 0 <= n < |t.slots| ensures SlotFits(t, n) {
      assert SlotFits(s, n);
    }
    forall i | 0 <= i < |t.requests| ensures RequestFits(t, i) {
      assert RequestFits(s, i);
    }
  }

  lemma HearKeepsSlotted(s: State, m: nat, content: string)
    requires Slotted(s) && m < |s.slots| && s.slots[m].Some?
    ensures s.slots[m].value.request < |s.requests| && Slotted(Heard(s, m, content))
  {
    assert SlotFits(s, m);
    var t := Heard(s, m, content);
    forall n | 0 <= n < |t.slots| ensures SlotFits(t, n) {
      assert SlotFits(s, n);
    }
    forall i | 0 <= i < |t.requests| ensures RequestFits(t, i) {
      assert RequestFits(s, i);
    }
  }

  lemma LineKeepsSlotted(s: State, m: nat, line: Line)
    requires Slotted(s) && m < |s.slots|
    ensures Slotted(LineHandled(s, m, line))
  {
    if s.slots[m].Some? {
      if line.AssistantMessage? {
        HearKeepsSlotted(s, m, line.content);
      } else if ReplyOf(s.slots[m].value, line).Some? {
        EmptyKeepsSlotted(s, m, ReplyOf(s.slots[m].value, line).value);
      }
    }
  }

  lemma SlottedIgnoresSpawning(s: State, t: State)
    requires Slotted(s) && t.requests == s.requests
    requires |s.slots| <= |t.slots| && forall m | 0 <= m < |s.slots| :: t.slots[m] == s.slots[m]
    requires forall m | |s.slots| <= m < |t.slots| :: t.slots[m].None?
    ensures Slotted(t)
  {
    forall m | 0 <= m < |t.slots| ensures SlotFits(t, m) {
      assert m < |s.slots| ==> SlotFits(s, m);
    }
    forall i | 0 <= i < |t.requests| ensures RequestFits(t, i) {
      assert RequestFits(s, i);
    }
  }

  lemma StepKeepsSound(s: State, e: Event)
    requires Sound(s) && Enabled(s, e)
    ensures Sound(Step(s, e))
  {
    match e
    case RequestCalled(m, k, writes) => RequestKeepsSlotted(s, m, k, writes);
    case LineArrives(m, line) => LineKeepsSlotted(s, m, line);
    case PendingFails(m) =>
      if s.slots[m].Some? {
        EmptyKeepsSlotted(s, m, ExitedEarly);
      }
    case SpawnCalled(c) =>
      SpawnKeepsSingleFlight(s, c);
      SlottedIgnoresSpawning(s, Step(s, e));
    case StartEnds(i, succeeds) =>
      StartEndKeepsSingleFlight(s, i, succeeds);
      SlottedIgnoresSpawning(s, Step(s, e));
    case SpawnCleansUp(i) =>
      CleanupKeepsSingleFlight(s, i);
      SlottedIgnoresSpawning(s, Step(s, e));
    case SessionForgotten(_) => SlottedIgnoresSpawning(s, Step(s, e));
  }

  lemma BackendIsSound(events: seq<Event>)
    requires IsRun(Backend(), events)
    ensures Sound(After(Backend(), events))
  {
    forall s: State, e: Event | Sound(s) && Enabled(s, e) ensures Sound(Step(s, e)) {
      StepKeepsSound(s, e);
    }
    InvariantHolds(Backend(), Sound, events);
  }

  // ---------------------------------------------------------------- what it gives

  /** No two calls of `startSession` for one conversation are in progress together, on any run. */
  lemma StartsDoNotOverlap(events: seq<Event>, i: nat, j: nat)
    requires IsRun(Backend(), events)
    requires var s := After(Backend(), events);
      i < j < |s.starts| && s.starts[i].phase.InProgress? && s.starts[j].phase.InProgress?
    ensures var s := After(Backend(), events); s.starts[i].conversation != s.starts[j].conversation
  {
    BackendIsSound(events);
  }

  /** While a start is in progress, a caller for its conversation without a session starts nothing and shares it. */
  lemma LateCallersShare(s: State, i: nat)
    requires Sound(s) && i < |s.starts| && s.starts[i].phase.InProgress?
    ensures var c := s.starts[i].conversation;
      Step(s, SpawnCalled(c)) == s && c in s.inFlight && s.inFlight[c] == i
  {
  }

  /** At most one request of a session is open, on any run. */
  lemma OneRequestInFlight(events: seq<Event>, i: nat, j: nat)
    requires IsRun(Backend(), events)
    requires var s := After(Backend(), events);
      i < j < |s.requests| && s.requests[i].outcome.Open? && s.requests[j].outcome.Open?
    ensures var s := After(Backend(), events); s.requests[i].session != s.requests[j].session
  {
    BackendIsSound(events);
    var s := After(Backend(), events);
    assert RequestFits(s, i) && RequestFits(s, j);
  }

  /** Replies answer requests of their own kind, and a chat is answered by the last message heard since. */
  lemma RepliesFitRequests(events: seq<Event>, i: nat)
    requires IsRun(Backend(), events) && i < |After(Backend(), events).requests|
    ensures var r := After(Backend(), events).requests[i];
      && (r.outcome.Resolved? || r.outcome.Rejected? ==> r.outcome.answers == r.kind)
      && (r.outcome.Resolved? && r.kind == Chat ==> r.outcome.value == LastOr(r.heard, ""))
  {
    BackendIsSound(events);
    assert RequestFits(After(Backend(), events), i);
  }

  /** What a step does to a request: an open one may hear a message or settle, a settled one keeps its outcome. */
  lemma RequestsSettleOnce(s: State, e: Event, i: nat)
    requires Sound(s) && Enabled(s, e) && i < |s.requests|
    ensures var r, t := s.requests[i], Step(s, e);
      && i < |t.requests|
      && t.requests[i].session == r.session && t.requests[i].kind == r.kind
      && (!r.outcome.Open? ==> t.requests[i].outcome == r.outcome)
      && (r.outcome.Open? ==>
            t.requests[i].heard == if Brings(e, r.session) then r.heard + [e.line.content] else r.heard)
      && (r.outcome.Open? && !t.requests[i].outcome.Open? ==>
            (e.PendingFails? || (e.LineArrives? && !e.line.AssistantMessage?)) && e.session == r.session)
  {
    assert RequestFits(s, i);
    assert (e.LineArrives? || e.PendingFails?) ==> SlotFits(s, e.session);
  }

  /** The event brings an assistant message to the session. */
  predicate Brings(e: Event, m: nat) {
    e.LineArrives? && e.session == m && e.line.AssistantMessage?
  }

  /** A failure of the session settles its open request: no accepted request is left behind. */
  lemma FailureSettles(s: State, i: nat)
    requires Sound(s) && i < |s.requests| && s.requests[i].outcome.Open?
    ensures RequestFits(s, i) && Step(s, PendingFails(s.requests[i].session)).requests[i].outcome.ExitedEarly?
  {
    assert RequestFits(s, i);
  }

  /** A session with no open request refuses the next one exactly when a write that threw still holds its slot. */
  lemma FailedWriteBlocksSlot(s: State, m: nat, k: Kind, writes: bool)
    requires Sound(s) && m < |s.slots|
    requires forall i | 0 <= i < |s.requests| && s.requests[i].session == m :: !s.requests[i].outcome.Open?
    ensures Requested(s, m, k, writes).requests[|s.requests|].outcome.Refused? <==>
      s.slots[m].Some? && s.slots[m].value.request < |s.requests|
      && s.requests[s.slots[m].value.request].outcome.WriteFailed?
  {
    assert SlotFits(s, m);
  }

  /**
   * A session is spawned and an import is written to no avail. Only imports can fail like this: their
   * data is turned to JSON inside the write, where a chat's is before it and an export has none.
   */
  function FailedWriteRun(c: ConversationId): seq<Event> {
    [] + [SpawnCalled(c)] + [StartEnds(0, true)] + [RequestCalled(0, Import, false)]
  }

  lemma AfterFailedWrite(c: ConversationId)
    ensures IsRun(Backend(), FailedWriteRun(c))
    ensures After(Backend(), FailedWriteRun(c)).slots == [Some(Slot(0, Import, ""))]
    ensures After(Backend(), FailedWriteRun(c)).requests == [SlotRequest(0, Import, [], WriteFailed)]
  {
    RunOneMore(Backend(), [], SpawnCalled(c));
    RunOneMore(Backend(), [] + [SpawnCalled(c)], StartEnds(0, true));
    RunOneMore(Backend(), [] + [SpawnCalled(c)] + [StartEnds(0, true)], RequestCalled(0, Import, false));
  }

  /** This run reaches a session that has no open request and refuses every one. */
  lemma FailedWriteBlocksNextRequest(c: ConversationId, k: Kind, writes: bool)
    ensures var events := FailedWriteRun(c) + [RequestCalled(0, k, writes)];
      && IsRun(Backend(), events)
      && After(Backend(), events).requests == [SlotRequest(0, Import, [], WriteFailed), SlotRequest(0, k, [], Refused)]
  {
    AfterFailedWrite(c);
    RunOneMore(Backend(), FailedWriteRun(c), RequestCalled(0, k, writes));
  }

  // ---------------------------------------------------------------- replies, from the events alone

  /** The last assistant message of a session among the events from the `n`-th on. */
  function LastSaid(events: seq<Event>, n: nat, m: nat): string
    decreases |events|
  {
    if |events| <= n then ""
    else
      var e := events[|events| - 1];
      if Brings(e, m) then e.line.content else LastSaid(events[..|events| - 1], n, m)
  }

  /** What an event makes of an open request of session `m`, where `said` is the last assistant message so far. */
  function Answer(e: Event, m: nat, k: Kind, said: string): Outcome {
    match e
    case LineArrives(session, line) =>
      var reply := ReplyOf(Slot(0, k, said), line);
      if session == m && reply.Some? then reply.value else Open
    case PendingFails(session) => if session == m then ExitedEarly else Open
    case _ => Open
  }

  /** What the first event from the `n`-th on that answers a request makes of it. */
  function FirstAnswer(events: seq<Event>, n: nat, m: nat, k: Kind): Outcome
    decreases |events|
  {
    if |events| <= n then Open
    else
      var before := events[..|events| - 1];
      var answer := FirstAnswer(before, n, m, k);
      if answer.Open? then Answer(events[|events| - 1], m, k, LastSaid(before, n, m)) else answer
  }

  /** The `i`-th request is of session `m` and, while it is open, holds its slot with the last message. */
  ghost predicate Asked(s: State, i: nat, m: nat, k: Kind, said: string, outcome: Outcome) {
    && i < |s.requests| && m < |s.slots|
    && s.requests[i].session == m && s.requests[i].kind == k && s.requests[i].outcome == outcome
    && (outcome.Open? ==> s.slots[m] == Some(Slot(i, k, said)))
  }

  lemma StepAnswers(s: State, e: Event, i: nat, m: nat, k: Kind, said: string, outcome: Outcome)
    requires Sound(s) && Enabled(s, e) && Asked(s, i, m, k, said, outcome)
    ensures Asked(Step(s, e), i, m, k, if Brings(e, m) then e.line.content else said,
      if outcome.Open? then Answer(e, m, k, said) else outcome)
  {
    RequestsSettleOnce(s, e, i);
    assert e.LineArrives? || e.PendingFails? ==> SlotFits(s, e.session);
  }

  /**
   * On every run an accepted request has the outcome that the first event after it decides: a reply of
   * its own kind or a failure of its session, a chat with the last assistant message since it was accepted.
   */
  lemma {:induction false} FirstReplyAnswers(events: seq<Event>, n: nat, m: nat, k: Kind)
    requires IsRun(Backend(), events) && n < |events| && events[n] == RequestCalled(m, k, true)
    requires var s := After(Backend(), events[..n]); m < |s.slots| && s.slots[m].None?
    ensures Asked(After(Backend(), events), |After(Backend(), events[..n]).requests|, m, k,
      LastSaid(events, n + 1, m), FirstAnswer(events, n + 1, m, k))
    decreases |events|
  {
    var before, e := events[..|events| - 1], events[|events| - 1];
    BackendIsSound(before);
    if n < |before| {
      assert before[..n] == events[..n];
      FirstReplyAnswers(before, n, m, k);
      StepAnswers(After(Backend(), before), e, |After(Backend(), events[..n]).requests|, m, k,
        LastSaid(before, n + 1, m), FirstAnswer(before, n + 1, m, k));
    } else {
      assert before == events[..n];
    }
  }

  // ---------------------------------------------------------------- replies, line by line

  /** The event answers requests of this kind of session `m`: the line of that kind, or a failure. */
  predicate Ends(e: Event, m: nat, k: Kind) {
    match e
    case LineArrives(session, line) =>
      && session == m
      && (k.Chat? ==> line.TurnComplete?)
      && (k.Export? ==> line.ContextExport?)
      && (k.Import? ==> line.ContextImport?)
    case PendingFails(session) => session == m
    case _ => false
  }

  predicate NoneEnds(events: seq<Event>, n: nat, j: nat, m: nat, k: Kind) {
    forall i | n <= i < j && i < |events| :: !Ends(events[i], m, k)
  }

  predicate NoneBrings(events: seq<Event>, n: nat, j: nat, m: nat) {
    forall i | n <= i < j && i < |events| :: !Brings(events[i], m)
  }

  /** `said` is the last assistant message of session `m` between the two events, or nothing is said there. */
  ghost predicate SaidLast(events: seq<Event>, n: nat, j: nat, m: nat, said: string) {
    || (said == "" && NoneBrings(events, n, j, m))
    || exists i: nat | n <= i < j && i < |events| ::
         events[i] == LineArrives(m, AssistantMessage(said)) && NoneBrings(events, i + 1, j, m)
  }

  lemma {:induction false} LastSaidIsSaidLast(events: seq<Event>, n: nat, m: nat)
    ensures SaidLast(events, n, |events|, m, LastSaid(events, n, m))
    decreases |events|
  {
    if n < |events| {
      var j := |events| - 1;
      if Brings(events[j], m) {
        assert NoneBrings(events, j + 1, |events|, m);
      } else {
        LastSaidIsSaidLast(events[..j], n, m);
        SaidStillLast(events, n, j, m, LastSaid(events[..j], n, m));
      }
    }
  }

  lemma SaidStillLast(events: seq<Event>, n: nat, j: nat, m: nat, said: string)
    requires j == |events| - 1 && !Brings(events[j], m) && SaidLast(events[..j], n, j, m, said)
    ensures SaidLast(events, n, |events|, m, said)
  {
    if !NoneBrings(events[..j], n, j, m) {
      var i: nat :| n <= i < j && events[..j][i] == LineArrives(m, AssistantMessage(said))
        && NoneBrings(events[..j], i + 1, j, m);
      assert events[i] == LineArrives(m, AssistantMessage(said));
      assert NoneBrings(events, i + 1, |events|, m) by {
        assert forall h | i < h < j :: events[..j][h] == events[h];
      }
    } else {
      assert forall h | n <= h < j :: events[..j][h] == events[h];
    }
  }

  lemma {:induction false} UnendedIsOpen(events: seq<Event>, n: nat, m: nat, k: Kind)
    requires NoneEnds(events, n, |events|, m, k)
    ensures FirstAnswer(events, n, m, k) == Open
    decreases |events|
  {
    if n < |events| {
      var before := events[..|events| - 1];
      assert forall i | n <= i < |before| :: before[i] == events[i];
      UnendedIsOpen(before, n, m, k);
      assert !Ends(events[|events| - 1], m, k);
    }
  }

  lemma {:induction false} FirstEndAnswers(events: seq<Event>, n: nat, j: nat, m: nat, k: Kind)
    requires n <= j < |events| && Ends(events[j], m, k) && NoneEnds(events, n, j, m, k)
    ensures FirstAnswer(events, n, m, k) == Answer(events[j], m, k, LastSaid(events[..j], n, m))
    decreases |events|
  {
    var before := events[..|events| - 1];
    if j == |events| - 1 {
      assert forall i | n <= i < |before| :: before[i] == events[i];
      UnendedIsOpen(before, n, m, k);
    } else {
      assert before[..j] == events[..j] && before[j] == events[j];
      assert forall i | n <= i < j :: before[i] == events[i];
      FirstEndAnswers(before, n, j, m, k);
    }
  }

  /** The outcome that the first line of a request's kind, or failure of its session, decides. */
  ghost predicate Decided(o: Outcome, events: seq<Event>, n: nat, j: nat, m: nat, k: Kind)
    requires j < |events|
  {
    match events[j]
    case PendingFails(_) => o == ExitedEarly
    case LineArrives(_, ContextExport(true, context)) => o == Resolved(Export, context)
    case LineArrives(_, ContextExport(false, error)) => o == Rejected(Export, error)
    case LineArrives(_, ContextImport(true, _)) => o == Resolved(Import, "")
    case LineArrives(_, ContextImport(false, error)) => o == Rejected(Import, error)
    case LineArrives(_, TurnComplete) =>
      o.Resolved? && o.answers == Chat && SaidLast(events, n + 1, j, m, o.value)
    case _ => false
  }

  /**
   * On every run the first event after an accepted request that is a line of its kind or a failure of its
   * session decides its outcome: an export that succeeds is resolved with the context and one that fails is
   * rejected with the error, an import is resolved with nothing or rejected with the error, and a chat is
   * resolved with the last assistant message since it was accepted.
   */
  lemma FirstLineDecides(events: seq<Event>, n: nat, j: nat, m: nat, k: Kind)
    requires IsRun(Backend(), events) && n < |events| && events[n] == RequestCalled(m, k, true)
    requires var s := After(Backend(), events[..n]); m < |s.slots| && s.slots[m].None?
    requires n < j < |events| && Ends(events[j], m, k) && NoneEnds(events, n + 1, j, m, k)
    ensures var s, i := After(Backend(), events), |After(Backend(), events[..n]).requests|;
      i < |s.requests| && Decided(s.requests[i].outcome, events, n, j, m, k)
  {
    FirstReplyAnswers(events, n, m, k);
    FirstEndAnswers(events, n + 1, j, m, k);
    var said := LastSaid(events[..j], n + 1, m);
    LastSaidIsSaidLast(events[..j], n + 1, m);
    SaidInPrefix(events, n + 1, j, m, said);
  }

  lemma SaidInPrefix(events: seq<Event>, n: nat, j: nat, m: nat, said: string)
    requires j <= |events| && SaidLast(events[..j], n, j, m, said)
    ensures SaidLast(events, n, j, m, said)
  {
    if !NoneBrings(events[..j], n, j, m) {
      var i: nat :| n <= i < j && events[..j][i] == LineArrives(m, AssistantMessage(said))
        && NoneBrings(events[..j], i + 1, j, m);
      assert events[i] == LineArrives(m, AssistantMessage(said));
      assert forall h | i < h < j :: events[..j][h] == events[h];
      assert NoneBrings(events, i + 1, j, m);
    } else {
      assert forall h | n <= h < j :: events[..j][h] == events[h];
    }
  }

  /** With no such event the request stays open. */
  lemma UndecidedStaysOpen(events: seq<Event>, n: nat, m: nat, k: Kind)
    requires IsRun(Backend(), events) && n < |events| && events[n] == RequestCalled(m, k, true)
    requires var s := After(Backend(), events[..n]); m < |s.slots| && s.slots[m].None?
    requires NoneEnds(events, n + 1, |events|, m, k)
    ensures var s, i := After(Backend(), events), |After(Backend(), events[..n]).requests|;
      i < |s.requests| && s.requests[i].outcome == Open
  {
    FirstReplyAnswers(events, n, m, k);
    UnendedIsOpen(events, n + 1, m, k);
  }

  // ---------------------------------------------------------------- the component

  class LocalSpawnBackend {
    var sessions: map<ConversationId, nat>
    var pending: map<ConversationId, nat>
    var starts: seq<Start>
    var slots: seq<Option<Slot>>
    var requests: seq<Request>

    ghost function View(): State
      reads this
    {
      State(sessions, pending, starts, slots, requests)
    }

    constructor ()
      ensures View() == EMPTY
    {
      sessions, pending, starts, slots, requests := map[], map[], [], [], [];
    }

    /** The synchronous part of `spawnSession`: the session there is, or the start the caller waits for. */
    method SpawnSession(c: ConversationId) returns (session: Option<nat>, start: Option<nat>)
      modifies this
      ensures View() == Step(old(View()), SpawnCalled(c))
      ensures session == if c in sessions then Some(sessions[c]) else None
      ensures start == if c in sessions || c !in pending then None else Some(pending[c])
      ensures session.Some? || start.Some?
    {
      if c in sessions {
        return Some(sessions[c]), None;
      }
      if c in pending {
        return None, Some(pending[c]);
      }
      starts := starts + [Start(c, InProgress, false)];
      pending := pending[c := |starts| - 1];
      return None, Some(|starts| - 1);
    }

    method SessionStarted(i: nat)
      requires Enabled(View(), StartEnds(i, true))
      modifies this
      ensures View() == Step(old(View()), StartEnds(i, true))
    {
      var managed := |slots|;
      slots := slots + [None];
      sessions := sessions[starts[i].conversation := managed];
      starts := starts[i := starts[i].(phase := Succeeded(managed))];
    }

    /** The `finally` block of the first caller. */
    method SpawnCleanup(i: nat)
      requires Enabled(View(), SpawnCleansUp(i))
      modifies this
      ensures View() == Step(old(View()), SpawnCleansUp(i))
    {
      pending := pending - {starts[i].conversation};
      starts := starts[i := starts[i].(cleaned := true)];
    }

    method Request(m: nat, k: Kind, writes: bool) returns (accepted: bool)
      requires m < |slots|
      modifies this
      ensures View() == Step(old(View()), RequestCalled(m, k, writes))
      ensures accepted <==> old(slots)[m].None?
    {
      if slots[m].Some? {
        requests := requests + [SlotRequest(m, k, [], Refused)];
        return false;
      }
      slots := slots[m := Some(Slot(|requests|, k, ""))];
      requests := requests + [SlotRequest(m, k, [], if writes then Open else WriteFailed)];
      return true;
    }

    /** `settle`: only a request of this kind, and only once. */
    method Settle(m: nat, k: Kind, o: Outcome)
      requires Sound(View()) && m < |slots|
      modifies this
      ensures View() ==
        if old(slots)[m].Some? && old(slots)[m].value.kind == k && SlotFits(old(View()), m)
        then Emptied(old(View()), m, o) else old(View())
    {
      assert SlotFits(View(), m);
      if slots[m].None? || slots[m].value.kind != k {
        return;
      }
      var r := slots[m].value.request;
      slots := slots[m := None];
      requests := requests[r := Settled(requests[r], o)];
    }

    method HandleLine(m: nat, line: Line)
      requires Sound(View()) && m < |slots|
      modifies this
      ensures View() == Step(old(View()), LineArrives(m, line))
    {
      assert SlotFits(View(), m);
      match line
      case AssistantMessage(content) =>
        if slots[m].Some? {
          var slot := slots[m].value;
          slots := slots[m := Some(slot.(lastAssistantMessage := content))];
          var heard := requests[slot.request].heard + [content];
          requests := requests[slot.request := requests[slot.request].(heard := heard)];
        }
      case TurnComplete =>
        if slots[m].Some? {
          Settle(m, Chat, Resolved(Chat, slots[m].value.lastAssistantMessage));
        }
      case ContextExport(ok, payload) =>
        Settle(m, Export, if ok then Resolved(Export, payload) else Rejected(Export, payload));
      case ContextImport(ok, payload) =>
        Settle(m, Import, if ok then Resolved(Import, "") else Rejected(Import, payload));
      case Other =>
    }

    method FailPending(m: nat)
      requires Sound(View()) && m < |slots|
      modifies this
      ensures View() == Step(old(View()), PendingFails(m))
    {
      assert SlotFits(View(), m);
      if slots[m].Some? {
        var r := slots[m].value.request;
        slots := slots[m := None];
        requests := requests[r := Settled(requests[r], ExitedEarly)];
      }
    }
  }
}
