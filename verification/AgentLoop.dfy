/** The agent loop: streaming an answer, running its tool calls, and the turns. */
module AgentLoop {
  import opened AgentProtocol
  import opened AgentState
  import opened AgentTranscript
  import opened AgentAnswers
  import opened ToolBatch
  import opened AgentRun
  import opened ToolLoop

  /** One event of an LLM stream. */
  datatype StreamEvent = Start(partial: AssistantMessage) | Delta(partial: AssistantMessage) | Done | Failed

  /** How many `start` events a stream delivers before it is done. */
  function Starts(stream: seq<StreamEvent>): nat {
    if stream == [] || stream[0].Done? || stream[0].Failed? then 0
    else (if stream[0].Start? then 1 else 0) + Starts(stream[1..])
  }

  /** What is reported of the partial messages: a start as such, anything after one as an
      update, anything before one not at all. */
  function Partials(stream: seq<StreamEvent>, started: bool): seq<Event> {
    if stream == [] || stream[0].Done? || stream[0].Failed? then []
    else if stream[0].Start? then [MessageStart(stream[0].partial)] + Partials(stream[1..], true)
    else (if started then [MessageUpdate(stream[0].partial)] else []) + Partials(stream[1..], started)
  }

  /** And of the answer: its end, after its start if none was reported. */
  function AnswerEvents(stream: seq<StreamEvent>, answer: AssistantMessage): seq<Event> {
    Partials(stream, false) + (if Starts(stream) == 0 then [MessageStart(answer)] else []) + [MessageEnd(answer)]
  }

  lemma PartialsStep(stream: seq<StreamEvent>, i: nat, started: bool, trace: seq<Event>)
    requires i < |stream| && !stream[i].Done? && !stream[i].Failed?
    ensures trace + Partials(stream[i..], started) ==
              if stream[i].Start? then trace + [MessageStart(stream[i].partial)] + Partials(stream[i + 1..], true)
              else if started then trace + [MessageUpdate(stream[i].partial)] + Partials(stream[i + 1..], true)
              else trace + Partials(stream[i + 1..], false)
    ensures Starts(stream[i..]) == (if stream[i].Start? then 1 else 0) + Starts(stream[i + 1..])
  {
    assert stream[i..][1..] == stream[i + 1..];
  }

  lemma PartialsEnd(stream: seq<StreamEvent>, started: bool)
    requires stream == [] || stream[0].Done? || stream[0].Failed?
    ensures Partials(stream, started) == [] && Starts(stream) == 0
  {
  }

  /** A stream that starts twice. */
  lemma SecondStart(a: AssistantMessage, b: AssistantMessage)
    ensures Starts([Start(a), Start(b), Done]) == 2
  {
    var stream := [Start(a), Start(b), Done];
    assert stream[1..] == [Start(b), Done] && stream[1..][1..] == [Done];
    assert Starts([Done]) == 0;
  }

  /** What callers may do to the queues at any moment. */
  datatype QueueOp = Steer(message: InputMessage)
    | FollowUp(message: InputMessage)
    | SteeringMode(mode: QueueMode)
    | FollowUpMode(mode: QueueMode)

  /** Everything outside the loop that shapes one turn: the LLM's stream and final
      answer, the outcome of each tool call and the order the calls progress in,
      whether the turn's hook stops the run, and what callers queue meanwhile. */
  datatype Turn = Turn(
    stream: seq<StreamEvent>, answer: AssistantMessage,
    sequential: bool, scripts: seq<Script>, schedule: seq<nat>,
    stopAfterTurn: bool, beforeSteering: seq<QueueOp>, beforeFollowUps: seq<QueueOp>)

  /** Every stream among these turns starts at most one message. */
  predicate SingleStarts(turns: seq<Turn>) {
    forall i :: 0 <= i < |turns| ==> Starts(turns[i].stream) <= 1
  }

  predicate SingleUpTo(turns: seq<Turn>, n: nat)
    requires n <= |turns|
  {
    SingleStarts(turns[..n])
  }

  /** `more` was delivered from one origin, and nothing from another. */
  predicate Delivered(was: Ledger, now: Ledger, from: Origin, more: seq<Message>) {
    && now.steering == was.steering + (if from == Steered then more else [])
    && now.followUps == was.followUps + (if from == FollowedUp then more else [])
  }

  /** Where the grammar stands after so many `start` events. */
  predicate StreamPhase(p: Phase, starts: nat) {
    if starts == 0 then TakesInput(p) else p == if starts == 1 then Streaming else Rejected
  }

  /** Emits a partial message: its start, or an update of it. */
  method EmitPartial(agent: Agent, partial: AssistantMessage, isStart: bool, ghost starts: nat)
    requires agent.Valid() && agent.activeRun == LocalRun && (isStart || starts > 0)
    modifies agent`messages, agent`streamingMessage, agent`pendingToolCalls, agent`errorMessage, agent`run, agent`ledger
    ensures agent.Valid() && agent.messages == old(agent.messages) && SameDeliveries(old(agent.ledger), agent.ledger)
    ensures agent.run.monitor.ended == old(agent.run.monitor.ended)
    ensures StreamPhase(old(agent.run.monitor.phase), starts) ==>
              StreamPhase(agent.run.monitor.phase, if isStart then starts + 1 else starts)
    ensures agent.run.trace == old(agent.run.trace) + [if isStart then MessageStart(partial) else MessageUpdate(partial)]
    ensures old(agent.run.monitor.phase) == Rejected ==> agent.run.monitor.phase == Rejected
  {
    hide Select, Observe, ReduceAll, Reduce;
    agent.Emit(if isStart then MessageStart(partial) else MessageUpdate(partial));
  }

  /** Emits the end of an answer, and its start if no partial was started. */
  method EmitAnswer(agent: Agent, answer: AssistantMessage, addedPartial: bool, ghost starts: nat)
    requires agent.Valid() && agent.activeRun == LocalRun && (addedPartial <==> starts > 0)
    modifies agent`messages, agent`streamingMessage, agent`pendingToolCalls, agent`errorMessage, agent`run, agent`ledger
    ensures agent.Valid() && agent.messages == old(agent.messages) + [answer]
            && SameDeliveries(old(agent.ledger), agent.ledger)
    ensures StreamPhase(old(agent.run.monitor.phase), starts) && starts <= 1 ==>
              agent.run.monitor == Monitor(Batch(answer, 0, multiset{}, []), old(agent.run.monitor.ended) + [answer])
    ensures agent.run.trace == old(agent.run.trace)
              + ((if addedPartial then [] else [MessageStart(answer)]) + [MessageEnd(answer)])
    ensures old(agent.run.monitor.phase) == Rejected ==> agent.run.monitor.phase == Rejected
  {
    hide Select, Observe, ReduceAll, Reduce;
    if !addedPartial {
      agent.Emit(MessageStart(answer));
    }
    agent.Emit(MessageEnd(answer));
  }

  /** Streams one answer into `context` and to the agent. A stream with a second
      `start` pushes a second partial message, which is never taken back. */
  method StreamAssistantResponse(agent: Agent, context: seq<Message>, stream: seq<StreamEvent>,
                                 answer: AssistantMessage)
    returns (grown: seq<Message>)
    requires agent.Valid() && agent.activeRun == LocalRun
    modifies agent`messages, agent`streamingMessage, agent`pendingToolCalls, agent`errorMessage, agent`run, agent`ledger
    ensures agent.Valid() && agent.messages == old(agent.messages) + [answer]
            && SameDeliveries(old(agent.ledger), agent.ledger)
    ensures |grown| == |context| + if Starts(stream) == 0 then 1 else Starts(stream)
    ensures Starts(stream) <= 1 ==> grown == context + [answer]
    ensures TakesInput(old(agent.run.monitor.phase)) ==>
              if Starts(stream) <= 1
              then agent.run.monitor == Monitor(Batch(answer, 0, multiset{}, []), old(agent.run.monitor.ended) + [answer])
              else agent.run.monitor.phase == Rejected
    ensures agent.run.trace == old(agent.run.trace) + AnswerEvents(stream, answer)
    ensures old(agent.run.monitor.phase) == Rejected ==> agent.run.monitor.phase == Rejected
  {
    hide NextPhase, Select, Observe, ReduceAll, Reduce, Record, Partials, Starts;
    grown := context;
    ghost var before := agent.run.trace;
    assert stream[0..] == stream;
    var addedPartial := false;
    ghost var starts := 0;
    var i := 0;
    while i < |stream| && !stream[i].Done? && !stream[i].Failed?
      invariant 0 <= i <= |stream| && agent.Valid() && agent.messages == old(agent.messages)
                && SameDeliveries(old(agent.ledger), agent.ledger)
      invariant Starts(stream) == starts + Starts(stream[i..])
      invariant before + Partials(stream, false) == agent.run.trace + Partials(stream[i..], addedPartial)
      invariant |grown| == |context| + starts && grown[..|context|] == context && (addedPartial <==> starts > 0)
      invariant agent.run.monitor.ended == old(agent.run.monitor.ended)
      invariant TakesInput(old(agent.run.monitor.phase)) ==> StreamPhase(agent.run.monitor.phase, starts)
      invariant old(agent.run.monitor.phase) == Rejected ==> agent.run.monitor.phase == Rejected
    {
      assert stream[i..][1..] == stream[i + 1..];
      PartialsStep(stream, i, addedPartial, agent.run.trace);
      var e := stream[i];
      i := i + 1;
      if e.Start? {
        grown := grown + [e.partial];
        EmitPartial(agent, e.partial, true, starts);
        addedPartial, starts := true, starts + 1;
      } else if addedPartial {
        grown := grown[|grown| - 1 := e.partial];
        EmitPartial(agent, e.partial, false, starts);
      }
    }
    grown := if addedPartial then grown[|grown| - 1 := answer] else grown + [answer];
    PartialsEnd(stream[i..], addedPartial);
    assert before + Partials(stream, false) == agent.run.trace;
    EmitAnswer(agent, answer, addedPartial, starts);
  }

  /** Emits both ends of one injected message. */
  method EmitInput(agent: Agent, message: InputMessage, ghost from: Origin)
    requires agent.Valid() && agent.activeRun == LocalRun
    modifies agent`messages, agent`streamingMessage, agent`pendingToolCalls, agent`errorMessage, agent`run, agent`ledger
    ensures agent.Valid() && agent.messages == old(agent.messages) + [message]
    ensures Delivered(old(agent.ledger), agent.ledger, from, [message])
    ensures TakesInput(old(agent.run.monitor.phase)) ==>
              TakesInput(agent.run.monitor.phase) && agent.run.monitor.ended == old(agent.run.monitor.ended) + [message]
    ensures old(agent.run.monitor.phase) == Rejected ==> agent.run.monitor.phase == Rejected
  {
    hide Select, Observe, ReduceAll, Reduce;
    agent.Emit(MessageStart(message));
    agent.Emit(MessageEnd(message), from);
  }

  /** Injects the pending messages before the next answer. */
  method InjectPending(agent: Agent, pending: seq<InputMessage>, ghost from: Origin, context: seq<Message>,
                       newMessages: seq<Message>)
    returns (grown: seq<Message>, grownNew: seq<Message>)
    requires agent.Valid() && agent.activeRun == LocalRun
    modifies agent`messages, agent`streamingMessage, agent`pendingToolCalls, agent`errorMessage, agent`run, agent`ledger
    ensures agent.Valid() && agent.messages == old(agent.messages) + pending
    ensures Delivered(old(agent.ledger), agent.ledger, from, pending)
    ensures grown == context + pending && grownNew == newMessages + pending
    ensures TakesInput(old(agent.run.monitor.phase)) ==>
              TakesInput(agent.run.monitor.phase) && agent.run.monitor.ended == old(agent.run.monitor.ended) + pending
    ensures old(agent.run.monitor.phase) == Rejected ==> agent.run.monitor.phase == Rejected
  {
    hide NextPhase, Select, Observe, ReduceAll, Reduce, Record;
    grown, grownNew := context, newMessages;
    ghost var done: seq<InputMessage> := [];
    var i := 0;
    while i < |pending|
      invariant 0 <= i <= |pending| && done == pending[..i] && agent.Valid()
      invariant agent.messages == old(agent.messages) + done
      invariant Delivered(old(agent.ledger), agent.ledger, from, done)
      invariant grown == context + done && grownNew == newMessages + done
      invariant TakesInput(old(agent.run.monitor.phase)) ==>
                  TakesInput(agent.run.monitor.phase) && agent.run.monitor.ended == old(agent.run.monitor.ended) + done
      invariant old(agent.run.monitor.phase) == Rejected ==> agent.run.monitor.phase == Rejected
    {
      EmitInput(agent, pending[i], from);
      grown := grown + [pending[i]];
      grownNew := grownNew + [pending[i]];
      done := done + [pending[i]];
      i := i + 1;
    }
    assert pending[..i] == pending;
  }

  /** The messages that callers queue. */
  function QueuedBy(ops: seq<QueueOp>): set<Message> { set op | op in ops && (op.Steer? || op.FollowUp?) :: op.message }

  function QueuedDuring(turns: seq<Turn>): set<Message> {
    set turn, m | turn in turns && m in QueuedBy(turn.beforeSteering) + QueuedBy(turn.beforeFollowUps) :: m
  }

  lemma QueuedAround(turns: seq<Turn>, i: nat)
    requires i < |turns|
    ensures QueuedBy(turns[i].beforeSteering) <= QueuedDuring(turns)
            && QueuedBy(turns[i].beforeFollowUps) <= QueuedDuring(turns)
  {
    hide QueuedBy;
    var turn := turns[i];
    assert turn in turns;
    forall m | m in QueuedBy(turn.beforeSteering) + QueuedBy(turn.beforeFollowUps) ensures m in QueuedDuring(turns) {
    }
  }

  predicate Within(messages: seq<Message>, sources: set<Message>) { forall i :: 0 <= i < |messages| ==> messages[i] in sources }

  /** Both queues hold nothing else. */
  ghost predicate QueuesWithin(agent: Agent, sources: set<Message>)
    reads agent.steeringQueue, agent.followUpQueue
  {
    Within(agent.steeringQueue.messages, sources) && Within(agent.followUpQueue.messages, sources)
  }

  /** What callers steer with, and what they queue as follow-ups, in order. */
  function SteeredBy(ops: seq<QueueOp>): seq<InputMessage> {
    if ops == [] then []
    else
      var last := ops[|ops| - 1];
      SteeredBy(ops[..|ops| - 1]) + if last.Steer? then [last.message] else []
  }

  function FollowedBy(ops: seq<QueueOp>): seq<InputMessage> {
    if ops == [] then []
    else
      var last := ops[|ops| - 1];
      FollowedBy(ops[..|ops| - 1]) + if last.FollowUp? then [last.message] else []
  }

  lemma QueuedSnoc(ops: seq<QueueOp>, i: nat)
    requires i < |ops|
    ensures SteeredBy(ops[..0]) == [] && FollowedBy(ops[..0]) == []
    ensures SteeredBy(ops[..i + 1]) == SteeredBy(ops[..i]) + if ops[i].Steer? then [ops[i].message] else []
    ensures FollowedBy(ops[..i + 1]) == FollowedBy(ops[..i]) + if ops[i].FollowUp? then [ops[i].message] else []
  {
    assert ops[..i + 1][..i] == ops[..i];
  }

  /** Callers use the queues. */
  method UseQueues(agent: Agent, ops: seq<QueueOp>, ghost sources: set<Message>)
    requires agent.Valid() && agent.Conserves([], []) && QueuesWithin(agent, sources) && QueuedBy(ops) <= sources
    modifies agent.steeringQueue, agent.followUpQueue
    ensures agent.Conserves([], []) && QueuesWithin(agent, sources)
    ensures agent.steeringQueue.messages == old(agent.steeringQueue.messages) + SteeredBy(ops)
    ensures agent.followUpQueue.messages == old(agent.followUpQueue.messages) + FollowedBy(ops)
  {
    hide NextPhase, Select, Observe, ReduceAll, Reduce, Record, SteeredBy, FollowedBy;
    NothingQueued();
    assert ops[..0] == [];
    var i := 0;
    while i < |ops|
      invariant 0 <= i <= |ops| && agent.Conserves([], []) && QueuesWithin(agent, sources)
      invariant agent.steeringQueue.messages == old(agent.steeringQueue.messages) + SteeredBy(ops[..i])
      invariant agent.followUpQueue.messages == old(agent.followUpQueue.messages) + FollowedBy(ops[..i])
    {
      assert ops[i] in ops;
      QueuedSnoc(ops, i);
      match ops[i] {
        case Steer(message) => agent.Steer(message);
        case FollowUp(message) => agent.FollowUp(message);
        case SteeringMode(mode) => agent.steeringQueue.SetMode(mode);
        case FollowUpMode(mode) => agent.followUpQueue.SetMode(mode);
      }
      i := i + 1;
    }
    assert ops[..i] == ops;
  }

  lemma NothingQueued()
    ensures SteeredBy([]) == [] && FollowedBy([]) == []
  {
  }

  /** Polls the steering queue, unless this is the initial poll of a run that was
      started with drained steering messages. */
  method PollSteering(agent: Agent, skip: bool, ghost sources: set<Message>) returns (pending: seq<InputMessage>)
    requires agent.Valid() && agent.Conserves([], []) && QueuesWithin(agent, sources)
    modifies agent.steeringQueue
    ensures agent.Conserves(pending, []) && old(agent.steeringQueue.messages) == pending + agent.steeringQueue.messages
    ensures if skip then pending == []
            else
              && (pending == [] ==> agent.steeringQueue.messages == [])
              && (agent.steeringQueue.mode == All ==> agent.steeringQueue.messages == [])
              && (agent.steeringQueue.mode == OneAtATime ==> |pending| <= 1)
    ensures Within(pending, sources) && QueuesWithin(agent, sources)
  {
    hide NextPhase, Select, Observe, ReduceAll, Reduce, Record, Within;
    if skip {
      NothingWithin(sources);
      return [];
    }
    pending := agent.steeringQueue.Drain();
    WithinSplit(pending, agent.steeringQueue.messages, sources);
  }

  method PollFollowUps(agent: Agent, ghost sources: set<Message>) returns (pending: seq<InputMessage>)
    requires agent.Valid() && agent.Conserves([], []) && QueuesWithin(agent, sources)
    modifies agent.followUpQueue
    ensures agent.Conserves([], pending) && old(agent.followUpQueue.messages) == pending + agent.followUpQueue.messages
    ensures pending == [] ==> agent.followUpQueue.messages == []
    ensures agent.followUpQueue.mode == All ==> agent.followUpQueue.messages == []
    ensures agent.followUpQueue.mode == OneAtATime ==> |pending| <= 1
    ensures Within(pending, sources) && QueuesWithin(agent, sources)
  {
    hide NextPhase, Select, Observe, ReduceAll, Reduce, Record, Within;
    pending := agent.followUpQueue.Drain();
    WithinSplit(pending, agent.followUpQueue.messages, sources);
  }

  /** Callers use the queues, then the loop polls for steering messages. */
  method NextSteering(agent: Agent, ops: seq<QueueOp>, skip: bool, ghost sources: set<Message>)
    returns (pending: seq<InputMessage>)
    requires agent.Valid() && agent.Conserves([], []) && QueuesWithin(agent, sources) && QueuedBy(ops) <= sources
    modifies agent.steeringQueue, agent.followUpQueue
    ensures agent.Conserves(pending, [])
    ensures old(agent.steeringQueue.messages) + SteeredBy(ops) == pending + agent.steeringQueue.messages
    ensures if skip then pending == [] else pending == [] ==> agent.steeringQueue.messages == []
    ensures Within(pending, sources) && QueuesWithin(agent, sources)
  {
    hide SteeredBy, FollowedBy, Agent.Conserves, Agent.Valid, QueuesWithin, Within, QueuedBy;
    UseQueues(agent, ops, sources);
    pending := PollSteering(agent, skip, sources);
  }

  /** The same for follow-ups. */
  method NextFollowUps(agent: Agent, ops: seq<QueueOp>, ghost sources: set<Message>)
    returns (pending: seq<InputMessage>)
    requires agent.Valid() && agent.Conserves([], []) && QueuesWithin(agent, sources) && QueuedBy(ops) <= sources
    modifies agent.steeringQueue, agent.followUpQueue
    ensures agent.Conserves([], pending) && (pending == [] ==> agent.followUpQueue.messages == [])
    ensures agent.steeringQueue.messages == old(agent.steeringQueue.messages) + SteeredBy(ops)
    ensures Within(pending, sources) && QueuesWithin(agent, sources)
  {
    hide SteeredBy, FollowedBy, Agent.Conserves, QueuesWithin, Within, QueuedBy;
    UseQueues(agent, ops, sources);
    pending := PollFollowUps(agent, sources);
  }

  lemma NothingWithin(sources: set<Message>)
    ensures Within([], sources)
  {
  }

  lemma WithinSplit(a: seq<Message>, b: seq<Message>, sources: set<Message>)
    ensures Within(a + b, sources) <==> Within(a, sources) && Within(b, sources)
  {
    assert forall i :: 0 <= i < |a| ==> (a + b)[i] == a[i];
    assert forall i :: 0 <= i < |b| ==> (a + b)[|a| + i] == b[i];
  }

  method ExecuteToolCalls(agent: Agent, answer: AssistantMessage, calls: seq<ToolCall>, turn: Turn)
    returns (results: seq<Message>, terminate: bool)
    requires agent.Valid() && agent.activeRun == LocalRun && calls == Calls(answer.content)
    modifies agent`messages, agent`streamingMessage, agent`pendingToolCalls, agent`errorMessage, agent`run, agent`ledger
    ensures agent.Valid() && agent.messages == old(agent.messages) + results
            && SameDeliveries(old(agent.ledger), agent.ledger)
    ensures results == Answers(calls, turn.scripts, |calls|) && terminate == Terminates(calls, turn.scripts)
    ensures AtBatch(old(agent.run.monitor), answer) ==>
              agent.run.monitor == Along(old(agent.run.monitor), answer, |calls|, multiset{}, results)
    ensures old(agent.run.monitor.phase) == Rejected ==> agent.run.monitor.phase == Rejected
  {
    hide NextPhase, Select, Observe, ReduceAll, Reduce, Record, Answers;
    if turn.sequential {
      results, terminate := ExecuteSequential(agent, answer, calls, turn.scripts);
    } else {
      results, terminate := ExecuteParallel(agent, answer, calls, turn.scripts, turn.schedule);
    }
  }

  /** How the loop's two transcripts, the agent's and the grammar stand after some
      turns: `base` was the transcript before the run. */
  ghost predicate InSync(agent: Agent, base: seq<Message>, context: seq<Message>, newMessages: seq<Message>,
                         single: bool, phase: Phase)
    reads agent
  {
    && agent.messages == base + newMessages
    && (if single then context == agent.messages && agent.run.monitor == Monitor(phase, newMessages)
        else |context| > |agent.messages| && agent.run.monitor.phase == Rejected)
  }

  /** The same while inputs may come, or the answer. */
  ghost predicate Open(agent: Agent, base: seq<Message>, context: seq<Message>, newMessages: seq<Message>, single: bool)
    reads agent
  {
    && agent.messages == base + newMessages
    && (if single then context == agent.messages
                          && TakesInput(agent.run.monitor.phase)
                          && agent.run.monitor.ended == newMessages
        else |context| > |agent.messages| && agent.run.monitor.phase == Rejected)
  }

  /** The first turn is open when the loop begins. */
  ghost predicate AtTurn(agent: Agent, base: seq<Message>, context: seq<Message>, newMessages: seq<Message>,
                         single: bool, firstTurn: bool)
    reads agent
  {
    if firstTurn then Open(agent, base, context, newMessages, single)
    else InSync(agent, base, context, newMessages, single, TurnOver)
  }

  /** The run is over, or waits for an answer. */
  ghost predicate AtEnd(agent: Agent, base: seq<Message>, context: seq<Message>, newMessages: seq<Message>,
                        single: bool, finished: bool)
    reads agent
  {
    if finished then InSync(agent, base, context, newMessages, single, Over)
    else Open(agent, base, context, newMessages, single)
  }

  /** Emits an event that opens or closes a turn or the run. */
  method EmitBoundary(agent: Agent, e: Event, ghost base: seq<Message>, ghost context: seq<Message>,
                      ghost newMessages: seq<Message>,
                      ghost single: bool, ghost phase: Phase)
    requires agent.Valid() && agent.activeRun == LocalRun && !e.MessageEnd? && !e.MessageStart?
    requires InSync(agent, base, context, newMessages, single, phase)
    modifies agent`messages, agent`streamingMessage, agent`pendingToolCalls, agent`errorMessage, agent`run, agent`ledger
    ensures agent.Valid() && agent.ledger == old(agent.ledger)
    ensures InSync(agent, base, context, newMessages, single, NextPhase(phase, newMessages, e))
    ensures EndsWith(agent.run.trace, e)
  {
    hide Select, Observe, ReduceAll, Reduce;
    agent.Emit(e);
  }

  /** Streams the turn's answer. */
  method TurnAnswer(agent: Agent, ghost base: seq<Message>, context: seq<Message>, newMessages: seq<Message>,
                    turn: Turn, ghost single: bool)
    returns (grown: seq<Message>, grownNew: seq<Message>)
    requires agent.Valid() && agent.activeRun == LocalRun && Open(agent, base, context, newMessages, single)
    modifies agent`messages, agent`streamingMessage, agent`pendingToolCalls, agent`errorMessage, agent`run, agent`ledger
    ensures agent.Valid() && SameDeliveries(old(agent.ledger), agent.ledger) && grownNew == newMessages + [turn.answer]
    ensures InSync(agent, base, grown, grownNew, single && Starts(turn.stream) <= 1,
                   Batch(turn.answer, 0, multiset{}, []))
  {
    hide NextPhase, Select, Observe, ReduceAll, Reduce, Record;
    grown := StreamAssistantResponse(agent, context, turn.stream, turn.answer);
    grownNew := newMessages + [turn.answer];
  }

  /** Runs the answer's tool calls and takes in their results. */
  method TurnTools(agent: Agent, ghost base: seq<Message>, context: seq<Message>, newMessages: seq<Message>, turn: Turn,
                   ghost single: bool)
    returns (grown: seq<Message>, grownNew: seq<Message>, results: seq<Message>, hasMoreToolCalls: bool)
    requires agent.Valid() && agent.activeRun == LocalRun && !Halted(turn.answer)
    requires InSync(agent, base, context, newMessages, single, Batch(turn.answer, 0, multiset{}, []))
    modifies agent`messages, agent`streamingMessage, agent`pendingToolCalls, agent`errorMessage, agent`run, agent`ledger
    ensures agent.Valid() && SameDeliveries(old(agent.ledger), agent.ledger)
    ensures var calls := Calls(turn.answer.content);
            && results == Answers(calls, turn.scripts, |calls|) && grownNew == newMessages + results
            && (hasMoreToolCalls <==> calls != [] && !Terminates(calls, turn.scripts))
            && InSync(agent, base, grown, grownNew, single, Batch(turn.answer, |calls|, multiset{}, results))
  {
    hide NextPhase, Select, Observe, ReduceAll, Reduce, Record;
    grown, grownNew, results, hasMoreToolCalls := context, newMessages, [], false;
    var calls := Calls(turn.answer.content);
    if |calls| > 0 {
      ghost var was := agent.run.monitor;
      var terminate;
      results, terminate := ExecuteToolCalls(agent, turn.answer, calls, turn);
      hasMoreToolCalls := !terminate;
      grown, grownNew := grown + results, grownNew + results;
      assert agent.messages == base + grownNew;
      if single {
        assert was == Monitor(Batch(turn.answer, 0, multiset{}, []), newMessages) && AtBatch(was, turn.answer);
        assert agent.run.monitor == Monitor(Batch(turn.answer, |calls|, multiset{}, results), grownNew);
      } else {
        assert |grown| == |context| + |results| && |agent.messages| == |base + newMessages| + |results|;
      }
    }
  }

  /** One turn from its injected messages to its end. */
  method AnswerTurn(agent: Agent, ghost base: seq<Message>, context: seq<Message>, newMessages: seq<Message>,
                    turn: Turn, ghost single: bool)
    returns (grown: seq<Message>, grownNew: seq<Message>, hasMoreToolCalls: bool)
    requires agent.Valid() && agent.activeRun == LocalRun && Open(agent, base, context, newMessages, single)
    modifies agent`messages, agent`streamingMessage, agent`pendingToolCalls, agent`errorMessage, agent`run, agent`ledger
    ensures agent.Valid() && SameDeliveries(old(agent.ledger), agent.ledger)
    ensures InSync(agent, base, grown, grownNew, single && Starts(turn.stream) <= 1, TurnOver)
    ensures var calls := Calls(turn.answer.content);
            grownNew == newMessages + [turn.answer]
            + (if Halted(turn.answer) then [] else Answers(calls, turn.scripts, |calls|))
            && (!Halted(turn.answer) ==> (hasMoreToolCalls <==> calls != [] && !Terminates(calls, turn.scripts)))
  {
    hide Select, Observe, ReduceAll, Reduce, Record;
    ghost var still := single && Starts(turn.stream) <= 1;
    grown, grownNew := TurnAnswer(agent, base, context, newMessages, turn, single);
    hasMoreToolCalls := false;
    if Halted(turn.answer) {
      EmitBoundary(agent, TurnEnd(turn.answer, []), base, grown, grownNew, still, Batch(turn.answer, 0, multiset{}, []));
    } else {
      var results;
      grown, grownNew, results, hasMoreToolCalls := TurnTools(agent, base, grown, grownNew, turn, still);
      EmitBoundary(agent, TurnEnd(turn.answer, results), base, grown, grownNew, still,
                   Batch(turn.answer, |results|, multiset{}, results));
    }
  }

  /** Opens a turn, unless it is the first, and injects what is pending. */
  method OpenTurn(agent: Agent, ghost base: seq<Message>, context: seq<Message>, newMessages: seq<Message>,
                  firstTurn: bool, pending: seq<InputMessage>, ghost from: Origin, ghost single: bool)
    returns (grown: seq<Message>, grownNew: seq<Message>)
    requires agent.Valid() && agent.activeRun == LocalRun
    requires AtTurn(agent, base, context, newMessages, single, firstTurn)
    modifies agent`messages, agent`streamingMessage, agent`pendingToolCalls, agent`errorMessage, agent`run, agent`ledger
    ensures agent.Valid() && Delivered(old(agent.ledger), agent.ledger, from, pending)
    ensures grownNew == newMessages + pending && Open(agent, base, grown, grownNew, single)
  {
    hide Select, Observe, ReduceAll, Reduce, Record;
    if !firstTurn {
      EmitBoundary(agent, TurnStart, base, context, newMessages, single, TurnOver);
    }
    grown, grownNew := InjectPending(agent, pending, from, context, newMessages);
  }

  /** What is pending from one queue. */
  ghost function From(pending: seq<InputMessage>, from: Origin, o: Origin): seq<InputMessage> {
    if from == o then pending else []
  }

  /** The end of one turn: the inputs the turn began with and the queue they were polled
      from, the loop's context, the messages new in this run, and the agent's messages. */
  datatype TurnEndView = TurnEndView(inputs: seq<Message>, from: Origin, context: seq<Message>,
                                     newMessages: seq<Message>, messages: seq<Message>)

  /** The results of a turn: one for each tool call, none if the answer stopped on an
      error. */
  function ResultsOf(turn: Turn): seq<Message> {
    var calls := Calls(turn.answer.content);
    if Halted(turn.answer) then [] else Answers(calls, turn.scripts, |calls|)
  }

  function Exchanges(views: seq<TurnEndView>, turns: seq<Turn>): (r: seq<Exchange>)
    requires |views| <= |turns|
    ensures |r| == |views|
  {
    if views == [] then []
    else
      var k := |views| - 1;
      Exchanges(views[..k], turns) + [Exchange(views[k].inputs, turns[k].answer, ResultsOf(turns[k]))]
  }

  /** What is new after these turns: each turn's inputs, its answer and its results. */
  function Exchanged(views: seq<TurnEndView>, turns: seq<Turn>): seq<Message>
    requires |views| <= |turns|
  {
    Flatten(Exchanges(views, turns))
  }

  /** Every turn's inputs were prompted or queued by somebody. */
  predicate InputsWithin(views: seq<TurnEndView>, waiting: seq<Message>, sources: set<Message>) {
    Within(waiting, sources) && forall k :: 0 <= k < |views| ==> Within(views[k].inputs, sources)
  }

  /** The new messages are those of the turns so far and the inputs that wait for an
      answer; all inputs come from the sources, the prompts first. */
  predicate Recorded(views: seq<TurnEndView>, waiting: seq<Message>, newMessages: seq<Message>, prompts: seq<Message>,
                     turns: seq<Turn>, sources: set<Message>)
  {
    && |views| <= |turns| && newMessages == Exchanged(views, turns) + waiting
    && InputsWithin(views, waiting, sources)
    && prompts <= FirstInputs(views, waiting)
  }

  /** The turn's results go back to the model: it has tool calls, and not all of their
      results ask to end the run. */
  predicate MoreCalls(turn: Turn) {
    var calls := Calls(turn.answer.content);
    !Halted(turn.answer) && calls != [] && !Terminates(calls, turn.scripts)
  }

  /** The run ends with this turn, whatever is queued. */
  predicate Stops(turn: Turn) { Halted(turn.answer) || turn.stopAfterTurn }

  /** One turn follows another only if that one did not stop the run, and has results to go
      back or was followed by input; follow-ups only if there were no results to go back. */
  predicate Follows(turn: Turn, next: TurnEndView) {
    && !Stops(turn) && (MoreCalls(turn) || next.inputs != [])
    && (next.from == FollowedUp ==> !MoreCalls(turn))
  }

  predicate Linked(views: seq<TurnEndView>, turns: seq<Turn>) {
    |views| <= |turns| && forall k :: 0 < k < |views| ==> Follows(turns[k - 1], views[k])
  }

  /** A run goes on as long as it should. A finished one ended with a turn that stopped it,
      or when there was nothing left to do: no results to go back, nothing to steer with
      and no follow-ups; later steering messages are still queued. One that is not finished
      has used all the scripts, and waits for another answer because it should go on. */
  ghost predicate EndsRightly(agent: Agent, finished: bool, views: seq<TurnEndView>, waiting: seq<Message>,
                              turns: seq<Turn>)
    reads agent.steeringQueue, agent.followUpQueue
  {
    var used := |views|;
    && Linked(views, turns)
    && if finished then
         used > 0 &&
         var last := turns[used - 1];
         Stops(last) || (!MoreCalls(last) && agent.followUpQueue.messages == []
                         && agent.steeringQueue.messages == SteeredBy(last.beforeFollowUps))
       else
         used == |turns| && (used > 0 ==> !Stops(turns[used - 1]) && (MoreCalls(turns[used - 1]) || waiting != []))
  }

  /** What the first turn begins with. */
  function FirstInputs(views: seq<TurnEndView>, waiting: seq<Message>): seq<Message> {
    if views == [] then waiting else views[0].inputs
  }

  lemma LinkedSnoc(views: seq<TurnEndView>, view: TurnEndView, turns: seq<Turn>)
    requires Linked(views, turns) && |views| < |turns| && (views != [] ==> Follows(turns[|views| - 1], view))
    ensures Linked(views + [view], turns)
  {
    hide Follows;
    assert forall k :: 0 <= k < |views| ==> (views + [view])[k] == views[k];
  }

  /** At each of the turn ends the agent's transcript is the old one and the new
      messages, which are those of the turns so far; the loop's context is the same
      exactly while no stream started twice. */
  ghost predicate TurnEndsInSync(views: seq<TurnEndView>, base: seq<Message>, turns: seq<Turn>)
    requires |views| <= |turns|
  {
    forall k :: 0 <= k < |views| ==>
      && views[k].messages == base + views[k].newMessages
      && views[k].newMessages == Exchanged(views[..k + 1], turns)
      && (SingleStarts(turns[..k + 1]) <==> views[k].context == views[k].messages)
  }

  /** One pass of the inner loop, short of polling for more messages. */
  method RunTurn(agent: Agent, ghost base: seq<Message>, context: seq<Message>, newMessages: seq<Message>,
                 firstTurn: bool,
                 pending: seq<InputMessage>, ghost from: Origin, turns: seq<Turn>, used: nat)
    returns (grown: seq<Message>, grownNew: seq<Message>, answered: bool, hasMoreToolCalls: bool)
    requires agent.Valid() && agent.activeRun == LocalRun && used <= |turns|
    requires AtTurn(agent, base, context, newMessages, SingleStarts(turns[..used]), firstTurn)
    requires agent.Conserves(From(pending, from, Steered), From(pending, from, FollowedUp))
    modifies agent`messages, agent`streamingMessage, agent`pendingToolCalls, agent`errorMessage, agent`run, agent`ledger
    ensures agent.Valid() && agent.Conserves([], [])
    ensures answered <==> used < |turns|
    ensures grownNew ==
              if answered then newMessages + pending + ([turns[used].answer] + ResultsOf(turns[used]))
              else newMessages + pending
    ensures !answered ==> Open(agent, base, grown, grownNew, SingleStarts(turns[..used]))
    ensures answered ==> InSync(agent, base, grown, grownNew, SingleStarts(turns[..used + 1]), TurnOver)
    ensures answered && !Halted(turns[used].answer) ==> (hasMoreToolCalls <==> MoreCalls(turns[used]))
  {
    hide Select, Observe, ReduceAll, Reduce, Record, NextPhase, Answers, Terminates, Calls, Starts, ResultsOf, Halted;
    grown, grownNew := OpenTurn(agent, base, context, newMessages, firstTurn, pending, from,
                                SingleStarts(turns[..used]));
    answered, hasMoreToolCalls := used < |turns|, false;
    if answered {
      SingleStartsSnoc(turns, used);
      grown, grownNew, hasMoreToolCalls := AnswerTurn(agent, base, grown, grownNew, turns[used],
                                                      SingleStarts(turns[..used]));
      OneBatch(newMessages + pending, turns[used]);
    }
  }

  lemma SingleStartsSnoc(turns: seq<Turn>, used: nat)
    requires used < |turns|
    ensures SingleStarts(turns[..used + 1]) <==> SingleStarts(turns[..used]) && Starts(turns[used].stream) <= 1
  {
    assert turns[..used + 1] == turns[..used] + [turns[used]];
  }

  lemma OneBatch(messages: seq<Message>, turn: Turn)
    ensures var calls := Calls(turn.answer.content);
            messages + [turn.answer] + (if Halted(turn.answer) then [] else Answers(calls, turn.scripts, |calls|))
            == messages + ([turn.answer] + ResultsOf(turn))
  {
    hide Answers, Calls;
  }

  /** Records one more turn end; `inputs` came after the turns before. */
  lemma ViewsSnoc(views: seq<TurnEndView>, view: TurnEndView, base: seq<Message>, turns: seq<Turn>)
    requires |views| < |turns| && TurnEndsInSync(views, base, turns)
    requires view.messages == base + view.newMessages
    requires SingleStarts(turns[..|views| + 1]) <==> view.context == view.messages
    requires view.newMessages == Exchanged(views, turns) + view.inputs + ([turns[|views|].answer] + ResultsOf(turns[|views|]))
    ensures TurnEndsInSync(views + [view], base, turns) && Exchanged(views + [view], turns) == view.newMessages
  {
    hide SingleStarts, ResultsOf, Exchanged;
    var n, all := |views|, views + [view];
    ExchangedSnoc(views, view, turns);
    assert all[..n + 1] == all;
    forall k | 0 <= k < n ensures all[..k + 1] == views[..k + 1] && all[k] == views[k] {
    }
  }

  lemma ExchangedSnoc(views: seq<TurnEndView>, view: TurnEndView, turns: seq<Turn>)
    requires |views| < |turns|
    ensures var n := |views|;
            Exchanged(views + [view], turns)
            == Exchanged(views, turns) + view.inputs + ([turns[n].answer] + ResultsOf(turns[n]))
  {
    hide ResultsOf, Flatten;
    var n := |views|;
    assert (views + [view])[..n] == views;
    FlattenSnoc(Exchanges(views, turns), Exchange(view.inputs, turns[n].answer, ResultsOf(turns[n])));
  }

  /** Pending inputs join those that wait for an answer. */
  lemma RecordInputs(views: seq<TurnEndView>, waiting: seq<Message>, newMessages: seq<Message>, prompts: seq<Message>,
                     turns: seq<Turn>, sources: set<Message>, pending: seq<Message>)
    requires Recorded(views, waiting, newMessages, prompts, turns, sources) && Within(pending, sources)
    ensures Recorded(views, waiting + pending, newMessages + pending, prompts, turns, sources)
  {
    hide Within, Exchanged;
    WithinSplit(waiting, pending, sources);
  }

  /** A turn ends that answers them. */
  lemma RecordTurn(views: seq<TurnEndView>, view: TurnEndView, newMessages: seq<Message>, prompts: seq<Message>,
                   turns: seq<Turn>, sources: set<Message>, base: seq<Message>)
    requires Recorded(views, view.inputs, newMessages, prompts, turns, sources)
    requires |views| < |turns| && TurnEndsInSync(views, base, turns)
    requires view.messages == base + view.newMessages
    requires SingleStarts(turns[..|views| + 1]) <==> view.context == view.messages
    requires view.newMessages == newMessages + ([turns[|views|].answer] + ResultsOf(turns[|views|]))
    ensures TurnEndsInSync(views + [view], base, turns)
    ensures Recorded(views + [view], [], view.newMessages, prompts, turns, sources)
  {
    hide Within, SingleStarts, ResultsOf, Exchanged, TurnEndsInSync;
    NothingWithin(sources);
    ViewsSnoc(views, view, base, turns);
  }

  lemma NoTurnsYet(base: seq<Message>, turns: seq<Turn>)
    ensures SingleUpTo(turns, 0) && TurnEndsInSync([], base, turns) && Linked([], turns)
  {
  }

  lemma NothingRecorded(prompts: seq<Message>, turns: seq<Turn>, sources: set<Message>)
    requires Within(prompts, sources)
    ensures Recorded([], prompts, prompts, prompts, turns, sources)
  {
    assert Exchanged([], turns) + prompts == prompts;
  }

  predicate EndsWith(trace: seq<Event>, e: Event) {
    trace != [] && trace[|trace| - 1] == e
  }

  /** Closes the run. */
  method EndRun(agent: Agent, ghost base: seq<Message>, ghost context: seq<Message>, newMessages: seq<Message>,
                ghost single: bool)
    requires agent.Valid() && agent.activeRun == LocalRun && InSync(agent, base, context, newMessages, single, TurnOver)
    requires agent.Conserves([], [])
    modifies agent`messages, agent`streamingMessage, agent`pendingToolCalls, agent`errorMessage, agent`run, agent`ledger
    ensures agent.Valid() && agent.Conserves([], []) && InSync(agent, base, context, newMessages, single, Over)
    ensures EndsWith(agent.run.trace, AgentEnd(newMessages))
  {
    EmitBoundary(agent, AgentEnd(newMessages), base, context, newMessages, single, TurnOver);
  }

  /** One turn, and its record. */
  method RecordedTurn(agent: Agent, ghost base: seq<Message>, context: seq<Message>, newMessages: seq<Message>,
                      firstTurn: bool, pending: seq<InputMessage>, ghost from: Origin, turns: seq<Turn>, used: nat,
                      ghost views: seq<TurnEndView>, ghost waiting: seq<Message>, ghost prompts: seq<Message>,
                      ghost sources: set<Message>)
    returns (grown: seq<Message>, grownNew: seq<Message>, answered: bool, hasMoreToolCalls: bool,
             ghost nextViews: seq<TurnEndView>, ghost nextWaiting: seq<Message>)
    requires agent.Valid() && agent.activeRun == LocalRun && used == |views| <= |turns|
    requires AtTurn(agent, base, context, newMessages, SingleUpTo(turns, used), firstTurn)
    requires agent.Conserves(From(pending, from, Steered), From(pending, from, FollowedUp))
    requires TurnEndsInSync(views, base, turns) && Recorded(views, waiting, newMessages, prompts, turns, sources)
    requires Within(pending, sources)
    modifies agent`messages, agent`streamingMessage, agent`pendingToolCalls, agent`errorMessage, agent`run, agent`ledger
    ensures agent.Valid() && agent.Conserves([], [])
    ensures answered <==> used < |turns|
    ensures if answered
            then |nextViews| == used + 1 && nextViews[..used] == views
                 && nextViews[used].inputs == waiting + pending && nextViews[used].from == from
                 && (!Halted(turns[used].answer) ==> (hasMoreToolCalls <==> MoreCalls(turns[used])))
            else nextViews == views && nextWaiting == waiting + pending
    ensures !answered ==> Open(agent, base, grown, grownNew, SingleUpTo(turns, used))
    ensures answered ==> InSync(agent, base, grown, grownNew, SingleUpTo(turns, used + 1), TurnOver)
    ensures answered ==> nextWaiting == []
    ensures TurnEndsInSync(nextViews, base, turns)
            && Recorded(nextViews, nextWaiting, grownNew, prompts, turns, sources)
  {
    hide Select, Observe, ReduceAll, Reduce, Record, NextPhase, Starts, SingleStarts, InSync, Open, TurnEndsInSync;
    hide Agent.Conserves, Agent.View, Recorded, Within, ResultsOf;
    RecordInputs(views, waiting, newMessages, prompts, turns, sources, pending);
    nextViews, nextWaiting := views, waiting + pending;
    grown, grownNew, answered, hasMoreToolCalls :=
      RunTurn(agent, base, context, newMessages, firstTurn, pending, from, turns, used);
    if answered {
      ghost var view := TurnEndView(nextWaiting, from, grown, grownNew, agent.messages);
      SyncedView(agent, base, grown, grownNew, SingleUpTo(turns, used + 1));
      RecordTurn(views, view, newMessages + pending, prompts, turns, sources, base);
      nextViews, nextWaiting := views + [view], [];
    }
  }

  /** The inner loop: turns while there are tool calls or pending messages. It is left
      early if an answer or the hook stops the run, or if the scripts run out and an answer
      is waited for. */
  method RunTurns(agent: Agent, ghost base: seq<Message>, context: seq<Message>, newMessages: seq<Message>,
                  firstTurn: bool, firstPending: seq<InputMessage>, ghost firstFrom: Origin,
                  turns: seq<Turn>, start: nat, ghost views: seq<TurnEndView>, ghost waiting: seq<Message>,
                  ghost prompts: seq<Message>, ghost sources: set<Message>)
    returns (grown: seq<Message>, grownNew: seq<Message>, stopped: bool, answered: bool, used: nat,
             ghost nextViews: seq<TurnEndView>, ghost nextWaiting: seq<Message>)
    requires agent.Valid() && agent.activeRun == LocalRun && start == |views| <= |turns|
    requires AtTurn(agent, base, context, newMessages, SingleUpTo(turns, start), firstTurn)
    requires agent.Conserves(From(firstPending, firstFrom, Steered), From(firstPending, firstFrom, FollowedUp))
    requires TurnEndsInSync(views, base, turns) && Recorded(views, waiting, newMessages, prompts, turns, sources)
    requires Within(firstPending, sources) && QueuesWithin(agent, sources) && QueuedDuring(turns) <= sources
    requires Linked(views, turns) && CanStart(views, waiting, firstPending, firstFrom, turns)
    modifies agent.steeringQueue, agent.followUpQueue
    modifies agent`messages, agent`streamingMessage, agent`pendingToolCalls, agent`errorMessage, agent`run, agent`ledger
    ensures agent.Valid() && agent.Conserves([], []) && start <= used == |nextViews| <= |turns|
    ensures AtTurn(agent, base, grown, grownNew, SingleUpTo(turns, used), !answered)
    ensures TurnEndsInSync(nextViews, base, turns)
    ensures Recorded(nextViews, nextWaiting, grownNew, prompts, turns, sources)
    ensures answered ==> used > start && nextWaiting == []
    ensures !stopped ==> answered && QueuesWithin(agent, sources)
    ensures Linked(nextViews, turns)
            && FirstInputs(nextViews, nextWaiting) == FirstInputs(views, waiting + firstPending)
    ensures if !answered then CanWait(nextViews, nextWaiting, turns)
            else if stopped then Stops(turns[used - 1])
            else !Stops(turns[used - 1]) && !MoreCalls(turns[used - 1]) && agent.steeringQueue.messages == []
  {
    hide Select, Observe, ReduceAll, Reduce, Record, NextPhase, Starts, SingleUpTo, InSync, Open, TurnEndsInSync;
    hide Agent.Conserves, Agent.View, Agent.Valid, Recorded, Within, QueuesWithin, ResultsOf;
    hide QueuedBy, QueuedDuring, SteeredBy, Linked, MoreCalls;
    grown, grownNew, used, nextViews, nextWaiting := context, newMessages, start, views, waiting;
    var hasMoreToolCalls, first, pending := true, firstTurn, firstPending;
    stopped, answered := false, false;
    ghost var from := firstFrom;
    while hasMoreToolCalls || |pending| > 0
      invariant agent.Valid() && agent.activeRun == LocalRun && start <= used == |nextViews| <= |turns|
      invariant AtTurn(agent, base, grown, grownNew, SingleUpTo(turns, used), first)
      invariant agent.Conserves(From(pending, from, Steered), From(pending, from, FollowedUp))
      invariant TurnEndsInSync(nextViews, base, turns)
      invariant Recorded(nextViews, nextWaiting, grownNew, prompts, turns, sources)
      invariant Within(pending, sources) && QueuesWithin(agent, sources)
      invariant Linked(nextViews, turns)
      invariant FirstInputs(nextViews, nextWaiting + if used > start then [] else pending)
                == FirstInputs(views, waiting + firstPending)
      invariant if used > start then answered && !first && nextWaiting == [] && from == Steered
                                     && !Stops(turns[used - 1]) && (hasMoreToolCalls <==> MoreCalls(turns[used - 1]))
                                     && (pending == [] ==> agent.steeringQueue.messages == [])
                else hasMoreToolCalls && pending == firstPending && from == firstFrom && nextWaiting == waiting
      decreases |turns| - used
    {
      ghost var before, asked := nextViews, nextWaiting + pending;
      grown, grownNew, answered, hasMoreToolCalls, nextViews, nextWaiting :=
        RecordedTurn(agent, base, grown, grownNew, first, pending, from, turns, used, nextViews, nextWaiting,
                     prompts, sources);
      first := false;
      if !answered {
        stopped := true;
        return;
      }
      TurnLinked(before, nextViews, turns);
      pending := [];
      var turn := turns[used];
      QueuedAround(turns, used);
      used := used + 1;
      if Halted(turn.answer) || turn.stopAfterTurn {
        stopped := true;
        return;
      }
      pending := NextSteering(agent, turn.beforeSteering, false, sources);
      from := Steered;
    }
  }

  /** The next turn begins with the prompts, or with follow-ups. */
  predicate CanStart(views: seq<TurnEndView>, waiting: seq<Message>, pending: seq<Message>, from: Origin,
                     turns: seq<Turn>) {
    |views| <= |turns| &&
    (views != [] ==> waiting == [] && pending != [] && !Stops(turns[|views| - 1])
                     && (from == FollowedUp ==> !MoreCalls(turns[|views| - 1])))
  }

  /** An answer is waited for. */
  predicate CanWait(views: seq<TurnEndView>, waiting: seq<Message>, turns: seq<Turn>) {
    |views| == |turns|
    && (views != [] ==> !Stops(turns[|views| - 1]) && (MoreCalls(turns[|views| - 1]) || waiting != []))
  }

  lemma TurnLinked(before: seq<TurnEndView>, views: seq<TurnEndView>, turns: seq<Turn>)
    requires Linked(before, turns) && |before| < |views| == |before| + 1 <= |turns| && views[..|before|] == before
    requires before != [] ==> Follows(turns[|before| - 1], views[|before|])
    ensures Linked(views, turns)
  {
    hide Follows;
    LinkedSnoc(before, views[|before|], turns);
    assert views == before + [views[|before|]];
  }

  /** The loop: an inner loop over turns, an outer one while follow-ups arrive. `turns`
      scripts the LLM and its surroundings; if it runs out the run is left waiting for an
      answer, with the inputs `waiting` already taken in. */
  method RunLoop(agent: Agent, ghost base: seq<Message>, context: seq<Message>, newMessages: seq<Message>,
                 turns: seq<Turn>, beforeFirst: seq<QueueOp>, skipInitialPoll: bool, ghost sources: set<Message>)
    returns (grown: seq<Message>, grownNew: seq<Message>, finished: bool, used: nat,
             ghost views: seq<TurnEndView>, ghost waiting: seq<Message>)
    requires agent.Valid() && agent.activeRun == LocalRun && agent.Conserves([], [])
    requires Open(agent, base, context, newMessages, true)
    requires Within(newMessages, sources) && QueuesWithin(agent, sources)
             && QueuedBy(beforeFirst) + QueuedDuring(turns) <= sources
    modifies agent.steeringQueue, agent.followUpQueue
    modifies agent`messages, agent`streamingMessage, agent`pendingToolCalls, agent`errorMessage, agent`run, agent`ledger
    ensures agent.Valid() && agent.Conserves([], []) && used == |views| <= |turns|
    ensures AtEnd(agent, base, grown, grownNew, SingleUpTo(turns, used), finished)
    ensures TurnEndsInSync(views, base, turns)
    ensures Recorded(views, waiting, grownNew, newMessages, turns, sources) && (finished ==> waiting == [])
    ensures EndsRightly(agent, finished, views, waiting, turns)
    ensures FirstInputs(views, waiting) == newMessages <==>
              skipInitialPoll || old(agent.steeringQueue.messages) + SteeredBy(beforeFirst) == []
    ensures finished ==> EndsWith(agent.run.trace, AgentEnd(grownNew))
  {
    hide Select, Observe, ReduceAll, Reduce, Record, NextPhase, Starts, SingleUpTo, InSync, Open, TurnEndsInSync;
    hide Agent.Conserves, Agent.View, Agent.Valid, Halted, EndsWith, Recorded, Within, QueuesWithin, ResultsOf;
    hide QueuedBy, QueuedDuring, SteeredBy, Linked, MoreCalls, Stops, EndsRightly, CanWait, FirstInputs, CanStart;
    grown, grownNew, finished, used, views, waiting := context, newMessages, false, 0, [], newMessages;
    var firstTurn := true;
    NoTurnsYet(base, turns);
    NothingRecorded(newMessages, turns, sources);
    var pending := NextSteering(agent, beforeFirst, skipInitialPoll, sources);
    ghost var from, first := Steered, newMessages + pending;
    PollEmpty(old(agent.steeringQueue.messages) + SteeredBy(beforeFirst), pending, agent.steeringQueue.messages,
              skipInitialPoll, newMessages);
    FirstStart(newMessages, pending, turns);
    while true
      invariant agent.Valid() && agent.activeRun == LocalRun && used == |views| <= |turns|
      invariant AtTurn(agent, base, grown, grownNew, SingleUpTo(turns, used), firstTurn)
      invariant agent.Conserves(From(pending, from, Steered), From(pending, from, FollowedUp))
      invariant TurnEndsInSync(views, base, turns) && Recorded(views, waiting, grownNew, newMessages, turns, sources)
      invariant Within(pending, sources) && QueuesWithin(agent, sources)
      invariant Linked(views, turns) && CanStart(views, waiting, pending, from, turns)
      invariant FirstInputs(views, waiting + pending) == first
      decreases |turns| - used
    {
      var stopped, answered;
      grown, grownNew, stopped, answered, used, views, waiting :=
        RunTurns(agent, base, grown, grownNew, firstTurn, pending, from, turns, used, views, waiting, newMessages,
                 sources);
      if !answered {
        WaitsRightly(agent, views, waiting, turns);
        return;
      }
      if stopped {
        StoppedRightly(agent, views, turns);
        break;
      }
      firstTurn := false;
      QueuedAround(turns, used - 1);
      var followUps := NextFollowUps(agent, turns[used - 1].beforeFollowUps, sources);
      if |followUps| == 0 {
        IdleRightly(agent, views, turns);
        break;
      }
      NextStart(views, followUps, turns);
      pending := followUps;
      from := FollowedUp;
    }
    EndRun(agent, base, grown, grownNew, SingleUpTo(turns, used));
    finished := true;
  }

  lemma PollEmpty(queue: seq<Message>, polled: seq<Message>, rest: seq<Message>, skip: bool, prompts: seq<Message>)
    requires queue == polled + rest && if skip then polled == [] else polled == [] ==> rest == []
    ensures prompts + polled == prompts <==> skip || queue == []
  {
  }

  lemma FirstStart(prompts: seq<Message>, pending: seq<Message>, turns: seq<Turn>)
    ensures CanStart([], prompts, pending, Steered, turns) && FirstInputs([], prompts + pending) == prompts + pending
  {
  }

  lemma NextStart(views: seq<TurnEndView>, followUps: seq<Message>, turns: seq<Turn>)
    requires 0 < |views| <= |turns| && followUps != [] && !Stops(turns[|views| - 1]) && !MoreCalls(turns[|views| - 1])
    ensures CanStart(views, [], followUps, FollowedUp, turns)
    ensures FirstInputs(views, [] + followUps) == FirstInputs(views, [])
  {
  }

  lemma WaitsRightly(agent: Agent, views: seq<TurnEndView>, waiting: seq<Message>, turns: seq<Turn>)
    requires Linked(views, turns) && CanWait(views, waiting, turns)
    ensures EndsRightly(agent, false, views, waiting, turns)
  {
  }

  lemma StoppedRightly(agent: Agent, views: seq<TurnEndView>, turns: seq<Turn>)
    requires 0 < |views| <= |turns| && Linked(views, turns) && Stops(turns[|views| - 1])
    ensures EndsRightly(agent, true, views, [], turns)
  {
  }

  lemma IdleRightly(agent: Agent, views: seq<TurnEndView>, turns: seq<Turn>)
    requires 0 < |views| <= |turns| && Linked(views, turns)
    requires !MoreCalls(turns[|views| - 1]) && agent.followUpQueue.messages == []
    requires agent.steeringQueue.messages == SteeredBy(turns[|views| - 1].beforeFollowUps)
    ensures EndsRightly(agent, true, views, [], turns)
  {
  }

  lemma SyncedView(agent: Agent, base: seq<Message>, context: seq<Message>, newMessages: seq<Message>, single: bool)
    requires InSync(agent, base, context, newMessages, single, TurnOver)
    ensures agent.messages == base + newMessages && (single <==> context == agent.messages)
  {
  }

  // ----- which answers have their results -----

  lemma ResultsComplete(turn: Turn, inputs: seq<Message>)
    ensures Complete(Exchange(inputs, turn.answer, ResultsOf(turn)))
  {
  }

  lemma {:induction false} ExchangesAre(views: seq<TurnEndView>, turns: seq<Turn>)
    requires |views| <= |turns|
    ensures forall k :: 0 <= k < |views| ==>
              Complete(Exchanges(views, turns)[k]) && Exchanges(views, turns)[k].inputs == views[k].inputs
  {
    hide Complete, ResultsOf;
    if views != [] {
      var k := |views| - 1;
      ExchangesAre(views[..k], turns);
      ResultsComplete(turns[k], views[k].inputs);
    }
  }

  predicate InputsAnswered(views: seq<TurnEndView>, waiting: seq<Message>) {
    WellAnswered(waiting) && forall k :: 0 <= k < |views| ==> WellAnswered(views[k].inputs)
  }

  /** Whatever the language model and the tools do: every assistant message that is new,
      and did not stop on an error, has its own results right behind it if and only if
      that holds within each turn's inputs; and so for the whole transcript, if it held
      before the run. */
  lemma AnsweredIffInputsAnswered(base: seq<Message>, views: seq<TurnEndView>, waiting: seq<Message>, turns: seq<Turn>)
    requires |views| <= |turns|
    ensures var newMessages := Exchanged(views, turns) + waiting;
            && (WellAnswered(newMessages) <==> InputsAnswered(views, waiting))
            && (WellAnswered(base) ==> (WellAnswered(base + newMessages) <==> InputsAnswered(views, waiting)))
  {
    hide WellAnswered, Complete;
    var newMessages := Exchanged(views, turns) + waiting;
    ExchangesAre(views, turns);
    AnsweredIffInputsAre(Exchanges(views, turns), waiting);
    if WellAnswered(base + newMessages) { AnsweredBack(base, newMessages); }
    if WellAnswered(base) && WellAnswered(newMessages) { AnsweredExtends(base, newMessages); }
  }

  /** The same at every turn end of a run. */
  lemma AnsweredAtTurnEnds(views: seq<TurnEndView>, base: seq<Message>, turns: seq<Turn>, k: nat)
    requires k < |views| <= |turns| && TurnEndsInSync(views, base, turns)
    ensures WellAnswered(views[k].newMessages) <==> forall j :: 0 <= j <= k ==> WellAnswered(views[j].inputs)
  {
    hide WellAnswered, Exchanged, SingleStarts;
    AnsweredIffInputsAnswered(base, views[..k + 1], [], turns);
    assert WellAnswered([]) by { NoneToAnswer([]); }
    assert Exchanged(views[..k + 1], turns) + [] == Exchanged(views[..k + 1], turns);
    assert forall j :: 0 <= j <= k ==> views[..k + 1][j] == views[j];
  }

  /** So it holds of every run that is given no assistant message. */
  lemma NoAssistantGiven(views: seq<TurnEndView>, waiting: seq<Message>, turns: seq<Turn>, sources: set<Message>)
    requires |views| <= |turns| && InputsWithin(views, waiting, sources)
    requires forall m :: m in sources ==> !m.Assistant?
    ensures WellAnswered(Exchanged(views, turns) + waiting)
  {
    hide WellAnswered, Exchanged;
    NoneToAnswer(waiting);
    forall k | 0 <= k < |views| ensures WellAnswered(views[k].inputs) { NoneToAnswer(views[k].inputs); }
    AnsweredIffInputsAnswered([], views, waiting, turns);
  }

  /** What a run leaves behind. */
  datatype Report = Report(context: seq<Message>, newMessages: seq<Message>, finished: bool, used: nat)

  /** A prompt run: the prompts open the first turn. */
  method RunAgentLoop(agent: Agent, prompts: seq<InputMessage>, ghost from: Origin, turns: seq<Turn>,
                      beforeFirst: seq<QueueOp>, skipInitialPoll: bool, ghost sources: set<Message>)
    returns (report: Report, ghost views: seq<TurnEndView>, ghost waiting: seq<Message>)
    requires agent.Valid() && agent.activeRun == LocalRun && agent.run == NewRun(agent.began)
    requires agent.Conserves(From(prompts, from, Steered), From(prompts, from, FollowedUp))
    requires Within(prompts, sources) && QueuesWithin(agent, sources)
             && QueuedBy(beforeFirst) + QueuedDuring(turns) <= sources
    modifies agent.steeringQueue, agent.followUpQueue
    modifies agent`messages, agent`streamingMessage, agent`pendingToolCalls, agent`errorMessage, agent`run, agent`ledger
    ensures agent.Valid() && agent.Conserves([], []) && report.used == |views| <= |turns|
    ensures AtEnd(agent, old(agent.messages), report.context, report.newMessages, SingleStarts(turns[..report.used]),
                  report.finished)
    ensures TurnEndsInSync(views, old(agent.messages), turns)
    ensures Recorded(views, waiting, report.newMessages, prompts, turns, sources) && (report.finished ==> waiting == [])
    ensures EndsRightly(agent, report.finished, views, waiting, turns)
    ensures FirstInputs(views, waiting) == prompts <==>
              skipInitialPoll || old(agent.steeringQueue.messages) + SteeredBy(beforeFirst) == []
    ensures report.finished ==> EndsWith(agent.run.trace, AgentEnd(report.newMessages))
  {
    hide Select, Observe, ReduceAll, Reduce, Record, TurnEndsInSync, EndsWith, SingleStarts, Recorded, Within, QueuedBy,
         QueuedDuring;
    ghost var base := agent.messages;
    assert InSync(agent, base, agent.messages, [], true, Before);
    EmitBoundary(agent, AgentStart, base, agent.messages, [], true, Before);
    EmitBoundary(agent, TurnStart, base, agent.messages, [], true, Started);
    var context, newMessages := InjectPending(agent, prompts, from, agent.messages, []);
    assert newMessages == prompts;
    var finished, used;
    context, newMessages, finished, used, views, waiting :=
      RunLoop(agent, base, context, newMessages, turns, beforeFirst, skipInitialPoll, sources);
    report := Report(context, newMessages, finished, used);
  }
}
