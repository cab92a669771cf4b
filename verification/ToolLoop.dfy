/** Running the tool calls of one answer, one after the other or interleaved. */
module ToolLoop {
  import opened Basics
  import opened AgentProtocol
  import opened AgentState
  import opened ToolBatch
  import opened AgentRun

  /** No queued message was delivered. */
  predicate SameDeliveries(was: Ledger, now: Ledger) {
    now.steering == was.steering && now.followUps == was.followUps
  }

  /** Emits an event about a running tool. */
  method EmitTool(agent: Agent, e: Event)
    requires agent.Valid() && agent.activeRun == LocalRun && !e.MessageEnd?
    modifies agent`messages, agent`streamingMessage, agent`pendingToolCalls, agent`errorMessage, agent`run, agent`ledger
    ensures agent.Valid() && agent.messages == old(agent.messages) && SameDeliveries(old(agent.ledger), agent.ledger)
    ensures agent.run.monitor == old(agent.run.monitor)
              .(phase := NextPhase(old(agent.run.monitor.phase), old(agent.run.monitor.ended), e))
    ensures agent.run.trace == old(agent.run.trace) + [e]
  {
    hide Select, Observe, ReduceAll, Reduce;
    agent.Emit(e);
  }

  /** Emits both ends of one tool result. */
  method EmitResult(agent: Agent, message: Message)
    requires agent.Valid() && agent.activeRun == LocalRun && message.ToolResult?
    modifies agent`messages, agent`streamingMessage, agent`pendingToolCalls, agent`errorMessage, agent`run, agent`ledger
    ensures agent.Valid() && agent.messages == old(agent.messages) + [message]
            && SameDeliveries(old(agent.ledger), agent.ledger)
    ensures var p := old(agent.run.monitor.phase);
            p.Batch? ==>
              var calls := Calls(p.answer.content);
              |p.results| + |p.running| < p.started <= |calls|
              && message.callId == calls[|p.results|].id && message.toolName == calls[|p.results|].name ==>
                agent.run.monitor == Monitor(Batch(p.answer, p.started, p.running, p.results + [message]),
                                             old(agent.run.monitor.ended) + [message])
    ensures agent.run.trace == old(agent.run.trace) + [MessageStart(message), MessageEnd(message)]
    ensures old(agent.run.monitor.phase) == Rejected ==> agent.run.monitor.phase == Rejected
  {
    hide Select, Observe, ReduceAll, Reduce;
    agent.Emit(MessageStart(message));
    agent.Emit(MessageEnd(message));
  }

  /** The updates a tool reports while it runs. */
  method EmitUpdates(agent: Agent, call: ToolCall, updates: seq<string>)
    requires agent.Valid() && agent.activeRun == LocalRun
    modifies agent`messages, agent`streamingMessage, agent`pendingToolCalls, agent`errorMessage, agent`run, agent`ledger
    ensures agent.Valid() && agent.messages == old(agent.messages) && SameDeliveries(old(agent.ledger), agent.ledger)
    ensures old(agent.run.monitor.phase).Batch? && call.id in old(agent.run.monitor.phase).running ==>
              agent.run.monitor == old(agent.run.monitor)
    ensures agent.run.trace == old(agent.run.trace) + Updates(call, updates)
    ensures old(agent.run.monitor.phase) == Rejected ==> agent.run.monitor.phase == Rejected
  {
    hide Select, Observe, ReduceAll, Reduce;
    var i := 0;
    while i < |updates|
      invariant 0 <= i <= |updates| && agent.run.trace == old(agent.run.trace) + Updates(call, updates)[..i]
      invariant agent.Valid() && agent.messages == old(agent.messages)
                && SameDeliveries(old(agent.ledger), agent.ledger)
      invariant old(agent.run.monitor.phase).Batch? && call.id in old(agent.run.monitor.phase).running ==>
                  agent.run.monitor == old(agent.run.monitor)
      invariant old(agent.run.monitor.phase) == Rejected ==> agent.run.monitor.phase == Rejected
    {
      EmitTool(agent, ToolUpdate(call.id, call.name, call.arguments, updates[i]));
      i := i + 1;
    }
  }

  method EmitEnd(agent: Agent, f: Finalized)
    requires agent.Valid() && agent.activeRun == LocalRun
    modifies agent`messages, agent`streamingMessage, agent`pendingToolCalls, agent`errorMessage, agent`run, agent`ledger
    ensures agent.Valid() && agent.messages == old(agent.messages) && SameDeliveries(old(agent.ledger), agent.ledger)
    ensures var p := old(agent.run.monitor.phase);
            p.Batch? && f.call.id in p.running ==>
              agent.run.monitor == old(agent.run.monitor)
                .(phase := Batch(p.answer, p.started, p.running - multiset{f.call.id}, p.results))
    ensures agent.run.trace == old(agent.run.trace) + [EndOf(f)]
    ensures old(agent.run.monitor.phase) == Rejected ==> agent.run.monitor.phase == Rejected
  {
    hide Select, Observe, ReduceAll, Reduce, Calls;
    EmitTool(agent, ToolEnd(f.call.id, f.call.name, f.result, f.isError));
  }

  method EmitStart(agent: Agent, call: ToolCall)
    requires agent.Valid() && agent.activeRun == LocalRun
    modifies agent`messages, agent`streamingMessage, agent`pendingToolCalls, agent`errorMessage, agent`run, agent`ledger
    ensures agent.Valid() && agent.messages == old(agent.messages) && SameDeliveries(old(agent.ledger), agent.ledger)
    ensures var p := old(agent.run.monitor.phase);
            p.Batch? && !Halted(p.answer) && p.started < |Calls(p.answer.content)|
            && Calls(p.answer.content)[p.started] == call ==>
              agent.run.monitor == old(agent.run.monitor)
                .(phase := Batch(p.answer, p.started + 1, p.running + multiset{call.id}, p.results))
    ensures agent.run.trace == old(agent.run.trace) + [StartOf(call)]
    ensures old(agent.run.monitor.phase) == Rejected ==> agent.run.monitor.phase == Rejected
  {
    hide Select, Observe, ReduceAll, Reduce;
    EmitTool(agent, ToolStart(call.id, call.name, call.arguments));
  }

  /** A batch may begin: the answer's end was just emitted. */
  ghost predicate AtBatch(m: Monitor, answer: AssistantMessage) {
    m.phase == Batch(answer, 0, multiset{}, []) && !Halted(answer)
  }

  /** After `n` calls of a batch that began at `was`. */
  ghost function Along(was: Monitor, answer: AssistantMessage, started: nat, running: multiset<string>,
                       results: seq<Message>): Monitor {
    Monitor(Batch(answer, started, running, results), was.ended + results)
  }

  /** The batch has started, and the calls that have not finished are running. */
  ghost predicate BatchRuns(m: Monitor, was: Monitor, answer: AssistantMessage, calls: seq<ToolCall>,
                            scripts: seq<Script>,
                          progress: seq<nat>)
    requires |progress| == |calls|
  {
    AtBatch(was, answer) && m == Along(was, answer, |calls|, Unfinished(calls, scripts, progress, |calls|), [])
  }

  predicate ShouldTerminate(finalized: seq<Finalized>) {
    |finalized| > 0 && forall i :: 0 <= i < |finalized| ==> finalized[i].result.terminate == Some(true)
  }

  // ----- one after the other -----

  /** Prepares a started call, runs its tool if it is accepted, and ends it. */
  method FinishCall(agent: Agent, call: ToolCall, script: Script) returns (f: Finalized)
    requires agent.Valid() && agent.activeRun == LocalRun
    modifies agent`messages, agent`streamingMessage, agent`pendingToolCalls, agent`errorMessage, agent`run, agent`ledger
    ensures agent.Valid() && f == ToolBatch.Outcome(call, script) && SameDeliveries(old(agent.ledger), agent.ledger)
    ensures agent.messages == old(agent.messages)
    ensures var p := old(agent.run.monitor.phase);
            p.Batch? && call.id in p.running ==>
              agent.run.monitor == old(agent.run.monitor)
                .(phase := Batch(p.answer, p.started, p.running - multiset{call.id}, p.results))
    ensures agent.run.trace == old(agent.run.trace) + Reports(call, script)
    ensures old(agent.run.monitor.phase) == Rejected ==> agent.run.monitor.phase == Rejected
  {
    hide NextPhase, Select, Observe, ReduceAll, Reduce, Record, Finalize;
    var prepared := Prepare(call, script);
    if prepared.Immediate? {
      f := Finalized(call, prepared.result, prepared.isError);
    } else {
      EmitUpdates(agent, prepared.call, script.execution.updates);
      f := Finalize(prepared.call, script);
    }
    assert f == ToolBatch.Outcome(call, script);
    EmitEnd(agent, f);
  }

  /** Runs call `k` from its start to its end. */
  method RunCall(agent: Agent, answer: AssistantMessage, calls: seq<ToolCall>, scripts: seq<Script>, k: nat,
                 ghost was: Monitor, ghost results: seq<Message>) returns (f: Finalized)
    requires agent.Valid() && agent.activeRun == LocalRun && calls == Calls(answer.content) && k < |calls|
    modifies agent`messages, agent`streamingMessage, agent`pendingToolCalls, agent`errorMessage, agent`run, agent`ledger
    ensures agent.Valid() && f == OutcomeAt(calls, scripts, k) && SameDeliveries(old(agent.ledger), agent.ledger)
    ensures agent.messages == old(agent.messages)
    ensures AtBatch(was, answer) && old(agent.run.monitor) == Along(was, answer, k, multiset{}, results) ==>
              agent.run.monitor == Along(was, answer, k + 1, multiset{}, results)
    ensures agent.run.trace == old(agent.run.trace) + ([StartOf(calls[k])] + Reports(calls[k], ScriptAt(scripts, k)))
    ensures old(agent.run.monitor.phase) == Rejected ==> agent.run.monitor.phase == Rejected
  {
    hide NextPhase, Select, Observe, ReduceAll, Reduce, Record, Reports, ToolBatch.Outcome, ScriptAt, Calls;
    EmitStart(agent, calls[k]);
    f := FinishCall(agent, calls[k], ScriptAt(scripts, k));
    assert multiset{} + multiset{calls[k].id} - multiset{calls[k].id} == multiset{};
  }

  /** Runs call `k` and emits its result. */
  method RunAndAnswer(agent: Agent, answer: AssistantMessage, calls: seq<ToolCall>, scripts: seq<Script>, k: nat,
                      ghost was: Monitor) returns (f: Finalized)
    requires agent.Valid() && agent.activeRun == LocalRun && calls == Calls(answer.content) && k < |calls|
    modifies agent`messages, agent`streamingMessage, agent`pendingToolCalls, agent`errorMessage, agent`run, agent`ledger
    ensures agent.Valid() && f == OutcomeAt(calls, scripts, k) && SameDeliveries(old(agent.ledger), agent.ledger)
    ensures agent.messages == old(agent.messages) + [ResultMessage(f)]
    ensures AtBatch(was, answer) && old(agent.run.monitor) == Along(was, answer, k, multiset{}, Answers(calls, scripts, k)) ==>
              agent.run.monitor == Along(was, answer, k + 1, multiset{}, Answers(calls, scripts, k + 1))
    ensures agent.run.trace == old(agent.run.trace)
              + ([StartOf(calls[k])] + Reports(calls[k], ScriptAt(scripts, k)) + ResultEvents(f))
    ensures old(agent.run.monitor.phase) == Rejected ==> agent.run.monitor.phase == Rejected
  {
    hide NextPhase, Select, Observe, ReduceAll, Reduce, Record;
    f := RunCall(agent, answer, calls, scripts, k, was, Answers(calls, scripts, k));
    EmitResult(agent, ResultMessage(f));
  }

  lemma BatchBegins(was: Monitor, answer: AssistantMessage)
    requires AtBatch(was, answer)
    ensures Along(was, answer, 0, multiset{}, []) == was
  {
  }

  lemma NextAnswer(calls: seq<ToolCall>, scripts: seq<Script>, k: nat)
    requires k < |calls|
    ensures Answers(calls, scripts, k + 1) == Answers(calls, scripts, k) + [ResultMessage(OutcomeAt(calls, scripts, k))]
  {
  }

  lemma NoEvents(calls: seq<ToolCall>, scripts: seq<Script>)
    ensures SequentialEvents(calls, scripts, 0) == []
  {
  }

  lemma NextEvents(calls: seq<ToolCall>, scripts: seq<Script>, k: nat)
    requires k < |calls|
    ensures SequentialEvents(calls, scripts, k + 1) ==
              SequentialEvents(calls, scripts, k)
              + ([StartOf(calls[k])] + Reports(calls[k], ScriptAt(scripts, k)) + ResultEvents(OutcomeAt(calls, scripts, k)))
  {
  }

  method ExecuteSequential(agent: Agent, answer: AssistantMessage, calls: seq<ToolCall>, scripts: seq<Script>)
    returns (results: seq<Message>, terminate: bool)
    requires agent.Valid() && agent.activeRun == LocalRun && calls == Calls(answer.content)
    modifies agent`messages, agent`streamingMessage, agent`pendingToolCalls, agent`errorMessage, agent`run, agent`ledger
    ensures agent.Valid() && agent.messages == old(agent.messages) + results
            && SameDeliveries(old(agent.ledger), agent.ledger)
    ensures results == Answers(calls, scripts, |calls|) && terminate == Terminates(calls, scripts)
    ensures AtBatch(old(agent.run.monitor), answer) ==>
              agent.run.monitor == Along(old(agent.run.monitor), answer, |calls|, multiset{}, results)
    ensures agent.run.trace == old(agent.run.trace) + SequentialEvents(calls, scripts, |calls|)
    ensures old(agent.run.monitor.phase) == Rejected ==> agent.run.monitor.phase == Rejected
  {
    hide NextPhase, Select, Observe, ReduceAll, Reduce, Record, OutcomeAt, Along, Calls, Answers, Reports,
         SequentialEvents,
         ScriptAt, ResultEvents;
    var finalizedCalls: seq<Finalized> := [];
    results := [];
    NoAnswers(calls, scripts);
    NoEvents(calls, scripts);
    if AtBatch(agent.run.monitor, answer) { BatchBegins(agent.run.monitor, answer); }
    var k := 0;
    while k < |calls|
      invariant 0 <= k <= |calls| == |Calls(answer.content)| && agent.Valid()
                && SameDeliveries(old(agent.ledger), agent.ledger)
      invariant results == Answers(calls, scripts, k) && agent.messages == old(agent.messages) + results
      invariant |finalizedCalls| == k && forall i :: 0 <= i < k ==> finalizedCalls[i] == OutcomeAt(calls, scripts, i)
      invariant AtBatch(old(agent.run.monitor), answer) ==>
                  agent.run.monitor == Along(old(agent.run.monitor), answer, k, multiset{}, results)
      invariant agent.run.trace == old(agent.run.trace) + SequentialEvents(calls, scripts, k)
      invariant old(agent.run.monitor.phase) == Rejected ==> agent.run.monitor.phase == Rejected
    {
      NextAnswer(calls, scripts, k);
      NextEvents(calls, scripts, k);
      var f := RunAndAnswer(agent, answer, calls, scripts, k, old(agent.run.monitor));
      finalizedCalls := finalizedCalls + [f];
      results := results + [ResultMessage(f)];
      k := k + 1;
    }
    terminate := ShouldTerminate(finalizedCalls);
  }

  // ----- interleaved -----

  /** Starts call `k`; one answered at once also ends at once, and its entry is filled. */
  method StartCall(agent: Agent, answer: AssistantMessage, calls: seq<ToolCall>, scripts: seq<Script>, k: nat,
                   ghost was: Monitor, ghost running: multiset<string>) returns (entry: Option<Finalized>)
    requires agent.Valid() && agent.activeRun == LocalRun && calls == Calls(answer.content) && k < |calls|
    modifies agent`messages, agent`streamingMessage, agent`pendingToolCalls, agent`errorMessage, agent`run, agent`ledger
    ensures agent.Valid() && agent.messages == old(agent.messages) && SameDeliveries(old(agent.ledger), agent.ledger)
    ensures AtStart(calls, scripts, k) + [entry] == AtStart(calls, scripts, k + 1)
    ensures AtBatch(was, answer) && old(agent.run.monitor) == Along(was, answer, k, running, []) ==>
              agent.run.monitor == Along(was, answer, k + 1,
                                         running + if 0 < Steps(calls, scripts, k) then multiset{calls[k].id} else multiset{},
                                         [])
    ensures agent.run.trace == old(agent.run.trace)
              + ([StartOf(calls[k])] + if 0 < Steps(calls, scripts, k) then [] else Reports(calls[k], ScriptAt(scripts, k)))
    ensures old(agent.run.monitor.phase) == Rejected ==> agent.run.monitor.phase == Rejected
  {
    hide NextPhase, Select, Observe, ReduceAll, Reduce, Record;
    EmitStart(agent, calls[k]);
    var prepared := Prepare(calls[k], ScriptAt(scripts, k));
    if prepared.Immediate? {
      var finalized := Finalized(calls[k], prepared.result, prepared.isError);
      EmitEnd(agent, finalized);
      assert running + multiset{calls[k].id} - multiset{calls[k].id} == running + multiset{};
      entry := Some(finalized);
    } else {
      entry := None;
    }
  }

  lemma UnfinishedNext(calls: seq<ToolCall>, scripts: seq<Script>, progress: seq<nat>, k: nat)
    requires k <= |calls| == |progress|
    ensures Unfinished(calls, scripts, progress, 0) == multiset{}
    ensures k < |calls| ==>
              Unfinished(calls, scripts, progress, k + 1) ==
                Unfinished(calls, scripts, progress, k)
                + if progress[k] < Steps(calls, scripts, k) then multiset{calls[k].id} else multiset{}
  {
  }

  /** Starts every call in order. */
  method StartAll(agent: Agent, answer: AssistantMessage, calls: seq<ToolCall>, scripts: seq<Script>)
    returns (progress: seq<nat>, entries: seq<Option<Finalized>>)
    requires agent.Valid() && agent.activeRun == LocalRun && calls == Calls(answer.content)
    modifies agent`messages, agent`streamingMessage, agent`pendingToolCalls, agent`errorMessage, agent`run, agent`ledger
    ensures agent.Valid() && agent.messages == old(agent.messages) && SameDeliveries(old(agent.ledger), agent.ledger)
    ensures Collected(calls, scripts, progress, entries)
    ensures AtBatch(old(agent.run.monitor), answer) ==>
              agent.run.monitor == Along(old(agent.run.monitor), answer, |calls|,
                                         Unfinished(calls, scripts, progress, |calls|), [])
    ensures old(agent.run.monitor.phase) == Rejected ==> agent.run.monitor.phase == Rejected
  {
    hide NextPhase, Select, Observe, ReduceAll, Reduce, Record, OutcomeAt, Calls, AtStart, Unfinished, Along, Steps,
         Prepare;
    progress := seq(|calls|, _ => 0);
    UnfinishedNext(calls, scripts, progress, 0);
    if AtBatch(agent.run.monitor, answer) { BatchBegins(agent.run.monitor, answer); }
    entries := [];
    NothingStarted(calls, scripts);
    var k := 0;
    while k < |calls|
      invariant 0 <= k <= |calls| && agent.Valid() && agent.messages == old(agent.messages)
                && SameDeliveries(old(agent.ledger), agent.ledger)
      invariant entries == AtStart(calls, scripts, k)
      invariant AtBatch(old(agent.run.monitor), answer) ==>
                  agent.run.monitor == Along(old(agent.run.monitor), answer, k, Unfinished(calls, scripts, progress, k), [])
      invariant old(agent.run.monitor.phase) == Rejected ==> agent.run.monitor.phase == Rejected
    {
      UnfinishedNext(calls, scripts, progress, k);
      var entry := StartCall(agent, answer, calls, scripts, k, old(agent.run.monitor),
                             Unfinished(calls, scripts, progress, k));
      entries := entries + [entry];
      k := k + 1;
    }
  }

  /** Lets running call `k` emit its next event: an update, or its end. */
  method StepCall(agent: Agent, answer: AssistantMessage, calls: seq<ToolCall>, scripts: seq<Script>,
                  progress: seq<nat>, entries: seq<Option<Finalized>>, k: nat, ghost was: Monitor)
    returns (next: seq<nat>, filled: seq<Option<Finalized>>)
    requires agent.Valid() && agent.activeRun == LocalRun && calls == Calls(answer.content)
    requires Collected(calls, scripts, progress, entries) && k < |calls| && progress[k] < Steps(calls, scripts, k)
    modifies agent`messages, agent`streamingMessage, agent`pendingToolCalls, agent`errorMessage, agent`run, agent`ledger
    ensures agent.Valid() && agent.messages == old(agent.messages) && SameDeliveries(old(agent.ledger), agent.ledger)
    ensures next == progress[k := progress[k] + 1] && Collected(calls, scripts, next, filled)
    ensures BatchRuns(old(agent.run.monitor), was, answer, calls, scripts, progress) ==>
              BatchRuns(agent.run.monitor, was, answer, calls, scripts, next)
    ensures agent.run.trace == old(agent.run.trace) + [Reports(calls[k], ScriptAt(scripts, k))[progress[k]]]
    ensures old(agent.run.monitor.phase) == Rejected ==> agent.run.monitor.phase == Rejected
  {
    hide NextPhase, Select, Observe, ReduceAll, Reduce, Record, Unfinished;
    StepOne(calls, scripts, progress, k);
    var script := ScriptAt(scripts, k);
    var prepared := Prepare(calls[k], script);
    next, filled := progress[k := progress[k] + 1], entries;
    ghost var running := Unfinished(calls, scripts, progress, |calls|);
    assert calls[k].id in running && running - multiset{} == running;
    if progress[k] < |script.execution.updates| {
      EmitUpdates(agent, prepared.call, [script.execution.updates[progress[k]]]);
    } else {
      var finalized := Finalize(prepared.call, script);
      EmitEnd(agent, finalized);
      filled := entries[k := Some(finalized)];
    }
  }

  /** Lets running calls go on as far and in the order that `schedule` picks. */
  method RunSchedule(agent: Agent, answer: AssistantMessage, calls: seq<ToolCall>, scripts: seq<Script>,
                     startProgress: seq<nat>, startEntries: seq<Option<Finalized>>, schedule: seq<nat>, ghost was: Monitor)
    returns (progress: seq<nat>, entries: seq<Option<Finalized>>)
    requires agent.Valid() && agent.activeRun == LocalRun && calls == Calls(answer.content)
    requires Collected(calls, scripts, startProgress, startEntries)
    modifies agent`messages, agent`streamingMessage, agent`pendingToolCalls, agent`errorMessage, agent`run, agent`ledger
    ensures agent.Valid() && agent.messages == old(agent.messages) && SameDeliveries(old(agent.ledger), agent.ledger)
    ensures Collected(calls, scripts, progress, entries)
    ensures BatchRuns(old(agent.run.monitor), was, answer, calls, scripts, startProgress) ==>
              BatchRuns(agent.run.monitor, was, answer, calls, scripts, progress)
    ensures old(agent.run.monitor.phase) == Rejected ==> agent.run.monitor.phase == Rejected
  {
    hide NextPhase, Select, Observe, ReduceAll, Reduce, Record, Unfinished, Reports;
    progress, entries := startProgress, startEntries;
    var i := 0;
    while i < |schedule|
      invariant 0 <= i <= |schedule| && agent.Valid() && agent.messages == old(agent.messages)
                && SameDeliveries(old(agent.ledger), agent.ledger)
      invariant Collected(calls, scripts, progress, entries)
      invariant BatchRuns(old(agent.run.monitor), was, answer, calls, scripts, startProgress) ==>
                  BatchRuns(agent.run.monitor, was, answer, calls, scripts, progress)
      invariant old(agent.run.monitor.phase) == Rejected ==> agent.run.monitor.phase == Rejected
    {
      var k := schedule[i];
      if k < |calls| && progress[k] < Steps(calls, scripts, k) {
        progress, entries := StepCall(agent, answer, calls, scripts, progress, entries, k, was);
      }
      i := i + 1;
    }
  }

  /** Runs the started calls to their ends in the order `schedule` picks; calls it
      leaves unfinished complete afterwards. Every interleaving is some schedule. */
  method Interleave(agent: Agent, answer: AssistantMessage, calls: seq<ToolCall>, scripts: seq<Script>,
                    startProgress: seq<nat>, startEntries: seq<Option<Finalized>>, schedule: seq<nat>, ghost was: Monitor)
    returns (finalized: seq<Finalized>)
    requires agent.Valid() && agent.activeRun == LocalRun && calls == Calls(answer.content)
    requires Collected(calls, scripts, startProgress, startEntries)
    modifies agent`messages, agent`streamingMessage, agent`pendingToolCalls, agent`errorMessage, agent`run, agent`ledger
    ensures agent.Valid() && agent.messages == old(agent.messages) && SameDeliveries(old(agent.ledger), agent.ledger)
    ensures |finalized| == |calls| && forall i :: 0 <= i < |calls| ==> finalized[i] == OutcomeAt(calls, scripts, i)
    ensures BatchRuns(old(agent.run.monitor), was, answer, calls, scripts, startProgress) ==>
              agent.run.monitor == Along(was, answer, |calls|, multiset{}, [])
    ensures old(agent.run.monitor.phase) == Rejected ==> agent.run.monitor.phase == Rejected
  {
    hide NextPhase, Select, Observe, ReduceAll, Reduce, Record, Unfinished, Reports;
    var progress: seq<nat>, entries := RunSchedule(agent, answer, calls, scripts, startProgress, startEntries, schedule,
                                                   was);
    var k := 0;
    while k < |calls|
      invariant 0 <= k <= |calls| && agent.Valid() && agent.messages == old(agent.messages)
                && SameDeliveries(old(agent.ledger), agent.ledger)
      invariant Collected(calls, scripts, progress, entries)
      invariant forall j :: 0 <= j < k ==> progress[j] == Steps(calls, scripts, j)
      invariant BatchRuns(old(agent.run.monitor), was, answer, calls, scripts, startProgress) ==>
                  BatchRuns(agent.run.monitor, was, answer, calls, scripts, progress)
      invariant old(agent.run.monitor.phase) == Rejected ==> agent.run.monitor.phase == Rejected
      decreases |calls| - k, if k < |calls| then Steps(calls, scripts, k) - progress[k] else 0
    {
      if progress[k] < Steps(calls, scripts, k) {
        progress, entries := StepCall(agent, answer, calls, scripts, progress, entries, k, was);
      } else {
        k := k + 1;
      }
    }
    AllFinished(calls, scripts, progress, |calls|);
    finalized := seq(|calls|, i requires 0 <= i < |calls| && entries[i].Some? => entries[i].value);
  }

  /** Emits the result of call `k` once every call has ended. */
  method EmitResultOf(agent: Agent, answer: AssistantMessage, calls: seq<ToolCall>, scripts: seq<Script>, k: nat,
                      f: Finalized, ghost was: Monitor)
    returns (message: Message)
    requires agent.Valid() && agent.activeRun == LocalRun && calls == Calls(answer.content)
    requires k < |calls| && f == OutcomeAt(calls, scripts, k)
    modifies agent`messages, agent`streamingMessage, agent`pendingToolCalls, agent`errorMessage, agent`run, agent`ledger
    ensures agent.Valid() && agent.messages == old(agent.messages) + [message]
            && SameDeliveries(old(agent.ledger), agent.ledger)
    ensures Answers(calls, scripts, k) + [message] == Answers(calls, scripts, k + 1)
    ensures AtBatch(was, answer)
            && old(agent.run.monitor) == Along(was, answer, |calls|, multiset{}, Answers(calls, scripts, k)) ==>
              agent.run.monitor == Along(was, answer, |calls|, multiset{}, Answers(calls, scripts, k + 1))
    ensures old(agent.run.monitor.phase) == Rejected ==> agent.run.monitor.phase == Rejected
  {
    hide NextPhase, Select, Observe, ReduceAll, Reduce, Record, OutcomeAt;
    message := ResultMessage(f);
    EmitResult(agent, message);
  }

  /** Emits the results in call order once every call has ended. */
  method EmitResults(agent: Agent, answer: AssistantMessage, calls: seq<ToolCall>, scripts: seq<Script>,
                     finalized: seq<Finalized>, ghost was: Monitor)
    returns (results: seq<Message>)
    requires agent.Valid() && agent.activeRun == LocalRun && calls == Calls(answer.content)
    requires |finalized| == |calls| && forall i :: 0 <= i < |calls| ==> finalized[i] == OutcomeAt(calls, scripts, i)
    modifies agent`messages, agent`streamingMessage, agent`pendingToolCalls, agent`errorMessage, agent`run, agent`ledger
    ensures agent.Valid() && agent.messages == old(agent.messages) + results
            && SameDeliveries(old(agent.ledger), agent.ledger)
    ensures results == Answers(calls, scripts, |calls|)
    ensures AtBatch(was, answer) && old(agent.run.monitor) == Along(was, answer, |calls|, multiset{}, []) ==>
              agent.run.monitor == Along(was, answer, |calls|, multiset{}, results)
    ensures old(agent.run.monitor.phase) == Rejected ==> agent.run.monitor.phase == Rejected
  {
    hide NextPhase, Select, Observe, ReduceAll, Reduce, Record, OutcomeAt, Along, Calls;
    results := [];
    NoAnswers(calls, scripts);
    var k := 0;
    while k < |calls|
      invariant 0 <= k <= |calls| && agent.Valid() && SameDeliveries(old(agent.ledger), agent.ledger)
      invariant results == Answers(calls, scripts, k) && agent.messages == old(agent.messages) + results
      invariant AtBatch(was, answer) && old(agent.run.monitor) == Along(was, answer, |calls|, multiset{}, []) ==>
                  agent.run.monitor == Along(was, answer, |calls|, multiset{}, results)
      invariant old(agent.run.monitor.phase) == Rejected ==> agent.run.monitor.phase == Rejected
    {
      var message := EmitResultOf(agent, answer, calls, scripts, k, finalized[k], was);
      results := results + [message];
      k := k + 1;
    }
  }

  method ExecuteParallel(agent: Agent, answer: AssistantMessage, calls: seq<ToolCall>, scripts: seq<Script>,
                         schedule: seq<nat>)
    returns (results: seq<Message>, terminate: bool)
    requires agent.Valid() && agent.activeRun == LocalRun && calls == Calls(answer.content)
    modifies agent`messages, agent`streamingMessage, agent`pendingToolCalls, agent`errorMessage, agent`run, agent`ledger
    ensures agent.Valid() && agent.messages == old(agent.messages) + results
            && SameDeliveries(old(agent.ledger), agent.ledger)
    ensures results == Answers(calls, scripts, |calls|) && terminate == Terminates(calls, scripts)
    ensures AtBatch(old(agent.run.monitor), answer) ==>
              agent.run.monitor == Along(old(agent.run.monitor), answer, |calls|, multiset{}, results)
    ensures old(agent.run.monitor.phase) == Rejected ==> agent.run.monitor.phase == Rejected
  {
    hide NextPhase, Select, Observe, ReduceAll, Reduce, Record, Unfinished;
    var progress, entries := StartAll(agent, answer, calls, scripts);
    var finalized := Interleave(agent, answer, calls, scripts, progress, entries, schedule, old(agent.run.monitor));
    results := EmitResults(agent, answer, calls, scripts, finalized, old(agent.run.monitor));
    terminate := ShouldTerminate(finalized);
  }
}
