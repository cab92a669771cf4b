/** Messages and events of the agent, and the grammar of its event stream as a
    deterministic monitor. */
module AgentProtocol {
  import opened Basics

  datatype StopReason = Stop | Length | ToolUse | Error | Aborted

  datatype ToolCall = ToolCall(id: string, name: string, arguments: string)

  datatype Block = TextBlock(text: string) | CallBlock(call: ToolCall)

  datatype Message =
    | User(text: string)
    | Assistant(content: seq<Block>, stopReason: StopReason, errorMessage: string)
    | ToolResult(callId: string, toolName: string, output: string, details: string, isError: bool)

  type AssistantMessage = m: Message | m.Assistant? witness Assistant([], Stop, "")

  /** What a caller may prompt with, steer with or queue as a follow-up: any message. */
  type InputMessage = Message

  /** What a tool or a hook produces. */
  datatype Result = Result(content: string, details: string, terminate: Option<bool>)

  datatype Event =
    | AgentStart
    | AgentEnd(messages: seq<Message>)
    | TurnStart
    | TurnEnd(message: Message, toolResults: seq<Message>)
    | MessageStart(message: Message)
    | MessageUpdate(message: Message)
    | MessageEnd(message: Message)
    | ToolStart(id: string, name: string, args: string)
    | ToolUpdate(id: string, name: string, args: string, partialResult: string)
    | ToolEnd(id: string, name: string, result: Result, isError: bool)

  function Calls(content: seq<Block>): seq<ToolCall> {
    if content == [] then []
    else if content[0].CallBlock? then [content[0].call] + Calls(content[1..])
    else Calls(content[1..])
  }

  predicate Halted(m: AssistantMessage) {
    m.stopReason == Error || m.stopReason == Aborted
  }

  // ----- the grammar -----

  /** Where a run's event stream stands. `ended` is every message whose end has been
      emitted, in order. */
  datatype Phase =
    | Before
    | Started
    | Injecting
    | InputOpen(input: InputMessage)
    | Streaming
    | Batch(answer: AssistantMessage, started: nat, running: multiset<string>, results: seq<Message>)
    | ResultOpen(answer: AssistantMessage, started: nat, running: multiset<string>, results: seq<Message>, message: Message)
    | TurnOver
    | Over
    | Rejected

  datatype Monitor = Monitor(phase: Phase, ended: seq<Message>)

  /** One event of the grammar:
      agent_start, then turns, then agent_end; a turn is turn_start, input messages,
      one assistant message, its tool batch, turn_end. Inputs may be assistant messages,
      too: one that another message follows before any tool call or turn_end was an input,
      and the last one is the turn's answer. At most one message is open;
      tool calls start in order, updates fall inside their call, result i answers
      call i and comes after its end; turn_end names the assistant message and its
      results, and comes with every call finished and answered unless the message
      stopped on an error. */
  function Advance(m: Monitor, e: Event): Monitor {
    var phase := NextPhase(m.phase, m.ended, e);
    Monitor(phase, if e.MessageEnd? then m.ended + [e.message] else m.ended)
  }

  /** An input or an answer begins. */
  function Opened(m: Message): Phase { if m.Assistant? then Streaming else InputOpen(m) }

  /** Inputs may come, or the answer. */
  predicate TakesInput(p: Phase) {
    p.Injecting? || (p.Batch? && p.started == 0 && p.running == multiset{} && p.results == [])
  }

  function NextPhase(p: Phase, ended: seq<Message>, e: Event): Phase {
    match (p, e)
    case (Before, AgentStart) => Started
    case (Started, TurnStart) => Injecting
    case (Injecting, MessageStart(m)) => Opened(m)
    case (InputOpen(open), MessageEnd(m)) => if m == open then Injecting else Rejected
    case (Streaming, MessageUpdate(m)) => if m.Assistant? then Streaming else Rejected
    case (Streaming, MessageEnd(m)) => if m.Assistant? then Batch(m, 0, multiset{}, []) else Rejected
    case (Batch(answer, started, running, results), ToolStart(id, name, args)) =>
      var calls := Calls(answer.content);
      if !Halted(answer) && started < |calls| && calls[started] == ToolCall(id, name, args)
      then Batch(answer, started + 1, running + multiset{id}, results) else Rejected
    case (Batch(answer, started, running, results), ToolUpdate(id, _, _, _)) =>
      if id in running then p else Rejected
    case (Batch(answer, started, running, results), ToolEnd(id, _, _, _)) =>
      if id in running then Batch(answer, started, running - multiset{id}, results) else Rejected
    case (Batch(answer, started, running, results), MessageStart(m)) =>
      var calls := Calls(answer.content);
      if started == 0 && running == multiset{} && results == [] then Opened(m)
      else if |results| + |running| < started <= |calls| && m.ToolResult?
         && m.callId == calls[|results|].id && m.toolName == calls[|results|].name
      then ResultOpen(answer, started, running, results, m) else Rejected
    case (ResultOpen(answer, started, running, results, open), MessageEnd(m)) =>
      if m == open then Batch(answer, started, running, results + [m]) else Rejected
    case (Batch(answer, started, running, results), TurnEnd(m, toolResults)) =>
      if m == answer && toolResults == results && running == multiset{}
         && (Halted(answer) || started == |results| == |Calls(answer.content)|)
      then TurnOver else Rejected
    case (TurnOver, TurnStart) => Injecting
    case (TurnOver, AgentEnd(messages)) => if messages == ended then Over else Rejected
    case _ => Rejected
  }

  function Observe(m: Monitor, trace: seq<Event>): Monitor {
    if trace == [] then m
    else Advance(Observe(m, trace[..|trace| - 1]), trace[|trace| - 1])
  }

  const INITIAL := Monitor(Before, [])

  /** A trace is a prefix of the grammar. */
  predicate Accepted(trace: seq<Event>) {
    !Observe(INITIAL, trace).phase.Rejected?
  }

  /** A rejected trace stays rejected, so every prefix of an accepted one is. */
  lemma {:induction false} PrefixAccepted(trace: seq<Event>, n: nat)
    requires Accepted(trace) && n <= |trace|
    ensures Accepted(trace[..n])
  {
    if n < |trace| {
      PrefixAccepted(trace[..|trace| - 1], n);
      assert trace[..|trace| - 1][..n] == trace[..n];
    } else {
      assert trace[..n] == trace;
    }
  }

  /** The payloads of the message_end events of a trace. */
  function Ended(trace: seq<Event>): seq<Message> {
    if trace == [] then []
    else
      var e := trace[|trace| - 1];
      Ended(trace[..|trace| - 1]) + if e.MessageEnd? then [e.message] else []
  }

  lemma {:induction false} MonitorCollectsEnded(trace: seq<Event>)
    ensures Observe(INITIAL, trace).ended == Ended(trace)
  {
    if trace != [] {
      MonitorCollectsEnded(trace[..|trace| - 1]);
    }
  }

  /** Extending a trace by one event. */
  lemma ObserveSnoc(m: Monitor, trace: seq<Event>, e: Event)
    ensures Observe(m, trace + [e]) == Advance(Observe(m, trace), e)
    ensures Ended(trace + [e]) == Ended(trace) + if e.MessageEnd? then [e.message] else []
  {
    assert (trace + [e])[..|trace|] == trace;
  }
}
