/** Starting a run: `prompt`, `continue`, and what a run leaves behind. */
module AgentEntry {
  import opened Basics
  import opened AgentProtocol
  import opened AgentState
  import opened AgentAnswers
  import opened AgentRun
  import opened AgentLoop

  /** A run of the agent from state `start`, whether it has finished or still waits for
      an answer: the transcript is the old one and the new messages; the loop's context
      agrees with it, and the event stream obeys the grammar, exactly while no answer
      stream started twice; the run went on as long as it should; no queued message is lost; and a remote agent that replays
      the finished run's events ends in the same state. */
  ghost predicate Ran(agent: Agent, start: State, report: Report, turns: seq<Turn>, views: seq<TurnEndView>,
                      waiting: seq<Message>)
    requires report.used == |views| <= |turns|
    reads agent, agent.steeringQueue, agent.followUpQueue
  {
    var single := SingleStarts(turns[..report.used]);
    var trace := agent.run.trace;
    && agent.Valid() && agent.Conserves([], [])
    && agent.messages == start.messages + report.newMessages
    && EndsRightly(agent, report.finished, views, waiting, turns)
    && (single <==> report.context == agent.messages)
    && (single <==> Accepted(trace))
    && (single ==> Ended(trace) == report.newMessages)
    && agent.errorMessage == LastError(trace) && agent.isStreaming == !report.finished
    && (if report.finished
        then agent.activeRun == Idle && agent.streamingMessage == None && agent.pendingToolCalls == {}
             && agent.View() == Finish(ReduceAll(Begin(start), trace))
             && Replay(Remote(start, false, false), trace) == Ok(Remote(agent.View(), false, false))
        else agent.activeRun == LocalRun && agent.View() == ReduceAll(Begin(start), trace))
  }

  /** Every message that somebody gives to a run: the prompts, what the queues hold when it
      begins, and what is queued while it lasts. */
  function Given(prompts: seq<Message>, steering: seq<Message>, followUps: seq<Message>, beforeFirst: seq<QueueOp>,
                 turns: seq<Turn>): set<Message> {
    (set m | m in prompts + steering + followUps) + QueuedBy(beforeFirst) + QueuedDuring(turns)
  }

  /** What a run adds to the transcript are its turns, each from its inputs to its
      results, and every answer that did not stop on an error has its own results right
      behind it if and only if the inputs of each turn are like that; so it is if no
      assistant message is given to the run. */
  ghost predicate RunAnswers(start: State, report: Report, views: seq<TurnEndView>, waiting: seq<Message>,
                             prompts: seq<Message>,
                    turns: seq<Turn>, given: set<Message>)
    requires report.used == |views| <= |turns|
  {
    && TurnEndsInSync(views, start.messages, turns)
    && Recorded(views, waiting, report.newMessages, prompts, turns, given)
    && (report.finished ==> waiting == [])
    && (WellAnswered(report.newMessages) <==> InputsAnswered(views, waiting))
    && (WellAnswered(start.messages) ==>
          (WellAnswered(start.messages + report.newMessages) <==> InputsAnswered(views, waiting)))
    && ((forall m :: m in given ==> !m.Assistant?) ==> WellAnswered(report.newMessages))
  }

  lemma RecordedAnswers(start: State, report: Report, views: seq<TurnEndView>, waiting: seq<Message>,
                        prompts: seq<Message>,
                        turns: seq<Turn>, given: set<Message>)
    requires report.used == |views| <= |turns| && TurnEndsInSync(views, start.messages, turns)
    requires Recorded(views, waiting, report.newMessages, prompts, turns, given) && (report.finished ==> waiting == [])
    ensures RunAnswers(start, report, views, waiting, prompts, turns, given)
  {
    hide TurnEndsInSync, WellAnswered, InputsAnswered, InputsWithin, Exchanged;
    AnsweredIffInputsAnswered(start.messages, views, waiting, turns);
    if forall m :: m in given ==> !m.Assistant? { NoAssistantGiven(views, waiting, turns, given); }
  }

  /** Queued messages that were taken out and prompted had been given, too. */
  lemma GivenByQueue(start: State, report: Report, views: seq<TurnEndView>, waiting: seq<Message>,
                     prompts: seq<Message>,
                     turns: seq<Turn>, given: set<Message>, all: set<Message>)
    requires report.used == |views| <= |turns| && given <= all
    requires RunAnswers(start, report, views, waiting, prompts, turns, given)
    ensures RunAnswers(start, report, views, waiting, [], turns, all)
  {
    hide TurnEndsInSync, WellAnswered, InputsAnswered, Exchanged;
  }

  /** Runs the loop between the agent's begin and finish. */
  method RunWithLifecycle(agent: Agent, prompts: seq<InputMessage>, ghost from: Origin, turns: seq<Turn>,
                          beforeFirst: seq<QueueOp>, skipInitialPoll: bool)
    returns (report: Report, ghost views: seq<TurnEndView>, ghost waiting: seq<Message>)
    requires agent.Valid() && agent.activeRun == Idle
    requires agent.Conserves(From(prompts, from, Steered), From(prompts, from, FollowedUp))
    modifies agent, agent.steeringQueue, agent.followUpQueue
    ensures report.used == |views| <= |turns| && Ran(agent, old(agent.View()), report, turns, views, waiting)
    ensures RunAnswers(old(agent.View()), report, views, waiting, prompts, turns,
                    Given(prompts, old(agent.steeringQueue.messages), old(agent.followUpQueue.messages), beforeFirst,
                          turns))
    ensures FirstInputs(views, waiting) == prompts <==>
              skipInitialPoll || old(agent.steeringQueue.messages) + SteeredBy(beforeFirst) == []
  {
    hide Select, Observe, ReduceAll, Reduce, Record, TurnEndsInSync, SingleStarts, NextPhase, Replay, Ended, LastError;
    hide Recorded, RunAnswers, Given, WellAnswered, QueuedBy, QueuedDuring;
    ghost var start := agent.View();
    ghost var given := Given(prompts, agent.steeringQueue.messages, agent.followUpQueue.messages, beforeFirst, turns);
    GivenHolds(prompts, agent.steeringQueue.messages, agent.followUpQueue.messages, beforeFirst, turns);
    agent.BeginRun(LocalRun);
    report, views, waiting := RunAgentLoop(agent, prompts, from, turns, beforeFirst, skipInitialPoll, given);
    RecordedAnswers(start, report, views, waiting, prompts, turns, given);
    ghost var trace := agent.run.trace;
    MonitorCollectsEnded(trace);
    ErrorIsLast(Begin(start), trace);
    assert SingleStarts(turns[..report.used]) <==> Accepted(trace);
    if report.finished {
      agent.FinishRun();
      assert trace[|trace| - 1].AgentEnd? && trace[|trace| - 1] in trace;
      ReplayEqualsLocal(Remote(start, false, false), trace);
    }
  }

  lemma GivenHolds(prompts: seq<Message>, steering: seq<Message>, followUps: seq<Message>, beforeFirst: seq<QueueOp>,
                   turns: seq<Turn>)
    ensures var given := Given(prompts, steering, followUps, beforeFirst, turns);
            && Within(prompts, given) && Within(steering, given) && Within(followUps, given)
            && QueuedBy(beforeFirst) + QueuedDuring(turns) <= given
  {
    hide QueuedBy, QueuedDuring;
  }

  datatype Started<+T> = Completed(value: T) | Refused(reason: string)

  /** Prompts the agent. */
  method Prompt(agent: Agent, prompts: seq<InputMessage>, turns: seq<Turn>, beforeFirst: seq<QueueOp>)
    returns (result: Started<Report>, ghost views: seq<TurnEndView>, ghost waiting: seq<Message>)
    requires agent.Valid() && agent.Conserves([], [])
    modifies agent, agent.steeringQueue, agent.followUpQueue
    ensures result.Refused? <==> old(agent.activeRun) != Idle
    ensures result.Refused? ==> agent.View() == old(agent.View()) && agent.Valid() && agent.Conserves([], [])
    ensures result.Completed? ==>
              result.value.used == |views| <= |turns| && Ran(agent, old(agent.View()), result.value, turns, views, waiting)
              && RunAnswers(old(agent.View()), result.value, views, waiting, prompts, turns,
                         Given(prompts, old(agent.steeringQueue.messages), old(agent.followUpQueue.messages),
                               beforeFirst, turns))
    ensures result.Completed? ==>
              (FirstInputs(views, waiting) == prompts <==> old(agent.steeringQueue.messages) + SteeredBy(beforeFirst) == [])
  {
    views, waiting := [], [];
    if agent.activeRun != Idle {
      return Refused("Agent is already processing a prompt."), [], [];
    }
    var report;
    report, views, waiting := RunWithLifecycle(agent, prompts, Prompted, turns, beforeFirst, false);
    result := Completed(report);
  }

  lemma GivenQueued(taken: seq<Message>, steering: seq<Message>, followUps: seq<Message>, steeringLeft: seq<Message>,
                    followUpsLeft: seq<Message>, beforeFirst: seq<QueueOp>, turns: seq<Turn>)
    requires (steering == taken + steeringLeft && followUps == followUpsLeft)
             || (followUps == taken + followUpsLeft && steering == steeringLeft)
    ensures Given(taken, steeringLeft, followUpsLeft, beforeFirst, turns) <= Given([], steering, followUps, beforeFirst, turns)
  {
    hide QueuedBy, QueuedDuring;
  }

  /** After an assistant message: queued steering messages, else queued follow-ups, are
      taken out and used as prompts. */
  method ContinueQueued(agent: Agent, turns: seq<Turn>, beforeFirst: seq<QueueOp>)
    returns (result: Started<Report>, ghost views: seq<TurnEndView>, ghost waiting: seq<Message>)
    requires agent.Valid() && agent.Conserves([], []) && agent.activeRun == Idle
    modifies agent, agent.steeringQueue, agent.followUpQueue
    ensures result.Refused? <==> old(agent.steeringQueue.messages) == [] && old(agent.followUpQueue.messages) == []
    ensures result.Refused? ==> agent.View() == old(agent.View()) && agent.Valid() && agent.Conserves([], [])
    ensures result.Completed? ==>
              result.value.used == |views| <= |turns| && Ran(agent, old(agent.View()), result.value, turns, views, waiting)
              && RunAnswers(old(agent.View()), result.value, views, waiting, [], turns,
                         Given([], old(agent.steeringQueue.messages), old(agent.followUpQueue.messages), beforeFirst,
                               turns))
  {
    hide Ran, RunAnswers, Given;
    views, waiting := [], [];
    ghost var start := agent.View();
    ghost var steering, followUps := agent.steeringQueue.messages, agent.followUpQueue.messages;
    ghost var given := Given([], steering, followUps, beforeFirst, turns);
    var queuedSteering := agent.steeringQueue.Drain();
    if |queuedSteering| > 0 {
      ghost var rest := agent.steeringQueue.messages;
      var report;
      report, views, waiting := RunWithLifecycle(agent, queuedSteering, Steered, turns, beforeFirst, true);
      GivenQueued(queuedSteering, steering, followUps, rest, followUps, beforeFirst, turns);
      GivenByQueue(start, report, views, waiting, queuedSteering, turns,
                   Given(queuedSteering, rest, followUps, beforeFirst, turns), given);
      return Completed(report), views, waiting;
    }
    var queuedFollowUps := agent.followUpQueue.Drain();
    if |queuedFollowUps| > 0 {
      ghost var rest := agent.followUpQueue.messages;
      var report;
      report, views, waiting := RunWithLifecycle(agent, queuedFollowUps, FollowedUp, turns, beforeFirst, false);
      GivenQueued(queuedFollowUps, steering, followUps, steering, rest, beforeFirst, turns);
      GivenByQueue(start, report, views, waiting, queuedFollowUps, turns,
                   Given(queuedFollowUps, steering, rest, beforeFirst, turns), given);
      return Completed(report), views, waiting;
    }
    result := Refused("Cannot continue from message role: assistant");
  }

  /** Continues from the transcript. */
  method Continue(agent: Agent, turns: seq<Turn>, beforeFirst: seq<QueueOp>)
    returns (result: Started<Report>, ghost views: seq<TurnEndView>, ghost waiting: seq<Message>)
    requires agent.Valid() && agent.Conserves([], [])
    modifies agent, agent.steeringQueue, agent.followUpQueue
    ensures result.Refused? <==>
              || old(agent.activeRun) != Idle
              || old(agent.messages) == []
              || (old(agent.messages)[|old(agent.messages)| - 1].Assistant?
                  && old(agent.steeringQueue.messages) == [] && old(agent.followUpQueue.messages) == [])
    ensures result.Refused? ==> agent.View() == old(agent.View()) && agent.Valid() && agent.Conserves([], [])
    ensures result.Completed? ==>
              result.value.used == |views| <= |turns| && Ran(agent, old(agent.View()), result.value, turns, views, waiting)
              && RunAnswers(old(agent.View()), result.value, views, waiting, [], turns,
                         Given([], old(agent.steeringQueue.messages), old(agent.followUpQueue.messages), beforeFirst,
                               turns))
  {
    hide Ran, RunAnswers, Given;
    views, waiting := [], [];
    if agent.activeRun != Idle {
      return Refused("Agent is already processing. Wait for completion before continuing."), [], [];
    }
    if |agent.messages| == 0 {
      return Refused("No messages to continue from"), [], [];
    }
    if agent.messages[|agent.messages| - 1].Assistant? {
      result, views, waiting := ContinueQueued(agent, turns, beforeFirst);
      return;
    }
    var report;
    report, views, waiting := RunWithLifecycle(agent, [], Prompted, turns, beforeFirst, false);
    result := Completed(report);
  }
}
