/** The agent object, its two queues, and the loop that drives it. The loop works on
    its own copy of the transcript and tells the agent only through events. */
module AgentRun {
  import opened Basics
  import opened AgentProtocol
  import opened AgentState
  import opened ToolBatch

  // ----- queues -----

  datatype QueueMode = All | OneAtATime

  class PendingMessageQueue {
    var messages: seq<InputMessage>
    var mode: QueueMode
    ghost var enqueued: seq<InputMessage>   // everything ever put in
    ghost var drained: seq<InputMessage>    // everything ever taken out

    ghost predicate Valid()
      reads this
    {
      enqueued == drained + messages
    }

    constructor (mode: QueueMode)
      ensures Valid() && messages == enqueued == drained == [] && this.mode == mode
    {
      messages, enqueued, drained := [], [], [];
      this.mode := mode;
    }

    method Enqueue(message: InputMessage)
      requires Valid()
      modifies this
      ensures Valid() && mode == old(mode) && drained == old(drained)
      ensures messages == old(messages) + [message] && enqueued == old(enqueued) + [message]
    {
      messages := messages + [message];
      enqueued := enqueued + [message];
    }

    method SetMode(mode: QueueMode)
      requires Valid()
      modifies this`mode
      ensures Valid() && this.mode == mode
    {
      this.mode := mode;
    }

    /** Takes everything, or the first message, as the mode says. */
    method Drain() returns (taken: seq<InputMessage>)
      requires Valid()
      modifies this`messages, this`drained
      ensures Valid() && drained == old(drained) + taken && old(messages) == taken + messages
      ensures taken == [] <==> old(messages) == []
      ensures mode == All ==> messages == []
      ensures mode == OneAtATime ==> |taken| <= 1
    {
      if mode == All {
        taken := messages;
        messages := [];
      } else if messages == [] {
        taken := [];
      } else {
        taken := [messages[0]];
        messages := messages[1..];
      }
      drained := drained + taken;
    }
  }

  // ----- where the messages of the transcript come from -----

  datatype Origin = Initial | Prompted | Steered | FollowedUp | Generated

  /** The messages of one origin, in transcript order. */
  function Select(messages: seq<Message>, origins: seq<Origin>, o: Origin): seq<Message>
    requires |messages| == |origins|
  {
    if messages == [] then []
    else
      var n := |messages| - 1;
      Select(messages[..n], origins[..n], o) + if origins[n] == o then [messages[n]] else []
  }

  lemma SelectSnoc(messages: seq<Message>, origins: seq<Origin>, m: Message, from: Origin, o: Origin)
    requires |messages| == |origins|
    ensures Select(messages + [m], origins + [from], o) == Select(messages, origins, o) + if from == o then [m] else []
  {
    assert (messages + [m])[..|messages|] == messages && (origins + [from])[..|origins|] == origins;
  }

  lemma {:induction false} NoneOf(messages: seq<Message>, origins: seq<Origin>, o: Origin)
    requires |messages| == |origins| && forall i :: 0 <= i < |origins| ==> origins[i] != o
    ensures Select(messages, origins, o) == []
  {
    if messages != [] {
      var n := |messages| - 1;
      NoneOf(messages[..n], origins[..n], o);
    }
  }

  datatype LedgerData = Ledger(messages: seq<Message>, origins: seq<Origin>, steering: seq<Message>, followUps: seq<Message>)

  /** The transcript with the origin of every message, and the delivered steering and
      follow-up messages it contains. */
  type Ledger = l: LedgerData |
    && |l.messages| == |l.origins|
    && l.steering == Select(l.messages, l.origins, Steered)
    && l.followUps == Select(l.messages, l.origins, FollowedUp)
    witness Ledger([], [], [], [])

  function Record(l: Ledger, m: Message, from: Origin): Ledger {
    SelectSnoc(l.messages, l.origins, m, from, Steered);
    SelectSnoc(l.messages, l.origins, m, from, FollowedUp);
    Ledger(l.messages + [m], l.origins + [from],
           if from == Steered then l.steering + [m] else l.steering,
           if from == FollowedUp then l.followUps + [m] else l.followUps)
  }

  datatype RunData = Run(atBegin: State, trace: seq<Event>, monitor: Monitor, state: State)

  /** The events of a run so far, where they stand in the grammar, and the state they
      lead to. */
  type Run = r: RunData |
    r.monitor == Observe(INITIAL, r.trace) && r.state == ReduceAll(r.atBegin, r.trace)
    witness Run(State([], false, None, {}, None), [], INITIAL, State([], false, None, {}, None))

  function NewRun(st: State): Run { Run(st, [], INITIAL, st) }

  function Extend(r: Run, e: Event): Run {
    ReduceSnoc(r.atBegin, r.trace, e);
    ObserveSnoc(INITIAL, r.trace, e);
    Run(r.atBegin, r.trace + [e], Advance(r.monitor, e), Reduce(r.state, e))
  }

  // ----- the agent -----

  datatype RunMode = Idle | LocalRun | RemoteRun

  class Agent {
    var messages: seq<Message>
    var isStreaming: bool
    var streamingMessage: Option<Message>
    var pendingToolCalls: set<string>
    var errorMessage: Option<string>
    var activeRun: RunMode
    var remoteAgentEndApplied: bool
    const steeringQueue: PendingMessageQueue
    const followUpQueue: PendingMessageQueue

    ghost var began: State    // the state the current run, or the last one, began with
    ghost var run: Run        // that run
    ghost var ledger: Ledger  // where each transcript message comes from

    ghost function View(): State
      reads this
    {
      State(messages, isStreaming, streamingMessage, pendingToolCalls, errorMessage)
    }

    ghost predicate Valid()
      reads this
    {
      && steeringQueue != followUpQueue
      && ledger.messages == messages
      && (activeRun == Idle ==> pendingToolCalls == {})
      && (activeRun != Idle ==> View() == run.state && run.atBegin == began)
    }

    /** Every steering and follow-up message ever enqueued is, in order, in the
        transcript, taken out and about to be injected, or still queued. */
    ghost predicate Conserves(steering: seq<InputMessage>, followUps: seq<InputMessage>)
      reads this, steeringQueue, followUpQueue
    {
      && steeringQueue.Valid() && followUpQueue.Valid()
      && steeringQueue.enqueued == ledger.steering + steering + steeringQueue.messages
      && followUpQueue.enqueued == ledger.followUps + followUps + followUpQueue.messages
    }

    constructor (initial: seq<Message>, steeringMode: QueueMode, followUpMode: QueueMode)
      ensures Valid() && Conserves([], []) && activeRun == Idle
      ensures View() == State(initial, false, None, {}, None)
      ensures fresh(steeringQueue) && fresh(followUpQueue)
    {
      messages, isStreaming, streamingMessage := initial, false, None;
      pendingToolCalls, errorMessage := {}, None;
      activeRun, remoteAgentEndApplied := Idle, false;
      steeringQueue := new PendingMessageQueue(steeringMode);
      followUpQueue := new PendingMessageQueue(followUpMode);
      began := State(initial, false, None, {}, None);
      run := NewRun(State(initial, false, None, {}, None));
      ghost var origins := seq(|initial|, _ => Initial);
      NoneOf(initial, origins, Steered);
      NoneOf(initial, origins, FollowedUp);
      ledger := Ledger(initial, origins, [], []);
    }

    /** The reduction of one event into the fields. */
    method ReduceEvent(e: Event)
      modifies `messages, `streamingMessage, `pendingToolCalls, `errorMessage
      ensures View() == Reduce(old(View()), e)
      ensures messages == if e.MessageEnd? then old(messages) + [e.message] else old(messages)
    {
      match e {
        case MessageStart(message) => streamingMessage := Some(message);
        case MessageUpdate(message) => streamingMessage := Some(message);
        case MessageEnd(message) =>
          streamingMessage := None;
          messages := messages + [message];
        case ToolStart(id, _, _) => pendingToolCalls := pendingToolCalls + {id};
        case ToolEnd(id, _, _, _) => pendingToolCalls := pendingToolCalls - {id};
        case TurnEnd(message, _) =>
          if message.Assistant? && message.errorMessage != "" {
            errorMessage := Some(message.errorMessage);
          }
        case AgentEnd(_) => streamingMessage := None;
        case _ =>
      }
    }

    method ProcessEvents(e: Event, ghost from: Origin := Generated)
      requires Valid() && activeRun != Idle
      modifies `messages, `streamingMessage, `pendingToolCalls, `errorMessage, `run, `ledger
      ensures Valid() && View() == Reduce(old(View()), e) && run == Extend(old(run), e)
      ensures ledger == if e.MessageEnd? then Record(old(ledger), e.message, from) else old(ledger)
    {
      hide Select, Observe, ReduceAll, NextPhase, Reduce;
      ReduceEvent(e);
      ghost var now := View();
      run := Extend(run, e);
      assert run.state == Reduce(old(View()), e) == now;
      if e.MessageEnd? { ledger := Record(ledger, e.message, from); }
    }

    /** The event sink the agent hands to the loop. */
    method Emit(e: Event, ghost from: Origin := Generated)
      requires Valid() && activeRun != Idle
      modifies `messages, `streamingMessage, `pendingToolCalls, `errorMessage, `run, `ledger
      ensures Valid()
      ensures messages == if e.MessageEnd? then old(messages) + [e.message] else old(messages)
      ensures run.trace == old(run.trace) + [e]
      ensures run.monitor.phase == NextPhase(old(run.monitor.phase), old(run.monitor.ended), e)
      ensures run.monitor.ended == if e.MessageEnd? then old(run.monitor.ended) + [e.message] else old(run.monitor.ended)
      ensures ledger == if e.MessageEnd? then Record(old(ledger), e.message, from) else old(ledger)
    {
      hide Select, Observe, ReduceAll, Reduce, NextPhase;
      ProcessEvents(e, from);
    }

    method Steer(message: InputMessage)
      requires steeringQueue.Valid()
      modifies steeringQueue
      ensures steeringQueue.Valid() && steeringQueue.drained == old(steeringQueue.drained)
      ensures steeringQueue.messages == old(steeringQueue.messages) + [message]
      ensures steeringQueue.enqueued == old(steeringQueue.enqueued) + [message]
    {
      steeringQueue.Enqueue(message);
    }

    method FollowUp(message: InputMessage)
      requires followUpQueue.Valid()
      modifies followUpQueue
      ensures followUpQueue.Valid() && followUpQueue.drained == old(followUpQueue.drained)
      ensures followUpQueue.messages == old(followUpQueue.messages) + [message]
      ensures followUpQueue.enqueued == old(followUpQueue.enqueued) + [message]
    {
      followUpQueue.Enqueue(message);
    }

    method BeginRun(mode: RunMode)
      requires Valid() && activeRun == Idle && mode != Idle
      modifies `activeRun, `remoteAgentEndApplied, `isStreaming, `streamingMessage, `errorMessage, `run, `began
      ensures Valid() && activeRun == mode && View() == Begin(old(View())) == began && run == NewRun(began)
      ensures remoteAgentEndApplied == (mode == LocalRun && old(remoteAgentEndApplied))
    {
      activeRun := mode;
      if mode == RemoteRun { remoteAgentEndApplied := false; }
      isStreaming, streamingMessage, errorMessage := true, None, None;
      began := View();
      run := NewRun(began);
    }

    method FinishRun()
      requires Valid()
      modifies `activeRun, `remoteAgentEndApplied, `isStreaming, `streamingMessage, `pendingToolCalls
      ensures Valid() && activeRun == Idle && View() == Finish(old(View())) && !remoteAgentEndApplied
      ensures messages == old(messages)
    {
      isStreaming, streamingMessage, pendingToolCalls := false, None, {};
      remoteAgentEndApplied, activeRun := false, Idle;
    }

    // ----- remote runs -----

    ghost function RemoteView(): Remote
      reads this
    {
      Remote(View(), activeRun == RemoteRun, activeRun == RemoteRun && remoteAgentEndApplied)
    }

    method BeginRemoteRun() returns (thrown: bool)
      requires Valid()
      modifies `activeRun, `remoteAgentEndApplied, `isStreaming, `streamingMessage, `errorMessage, `run, `began
      ensures Valid() && thrown == (old(activeRun) != Idle)
      ensures thrown ==> View() == old(View()) && activeRun == old(activeRun)
      ensures !thrown ==> Ok(RemoteView()) == BeginRemote(old(RemoteView())) && run == NewRun(began) && began == View()
    {
      if activeRun != Idle { return true; }
      BeginRun(RemoteRun);
      thrown := false;
    }

    method ApplyRemoteEvent(e: Event) returns (thrown: bool)
      requires Valid()
      modifies `messages, `streamingMessage, `pendingToolCalls, `errorMessage, `run, `ledger, `remoteAgentEndApplied
      ensures Valid() && activeRun == old(activeRun) && thrown == ApplyRemote(old(RemoteView()), e).Thrown?
      ensures thrown ==> View() == old(View())
      ensures !thrown ==> Ok(RemoteView()) == ApplyRemote(old(RemoteView()), e)
    {
      hide Select, Observe, ReduceAll, NextPhase, Reduce, Record, Extend;
      if activeRun != RemoteRun { return true; }
      ProcessEvents(e);
      if e.AgentEnd? { remoteAgentEndApplied := true; }
      thrown := false;
    }

    method EndRemoteRun() returns (thrown: bool)
      requires Valid()
      modifies `activeRun, `remoteAgentEndApplied, `isStreaming, `streamingMessage, `pendingToolCalls
      ensures Valid() && thrown == EndRemote(old(RemoteView())).Thrown?
      ensures thrown ==> View() == old(View()) && activeRun == old(activeRun)
      ensures !thrown ==> Ok(RemoteView()) == EndRemote(old(RemoteView())) && activeRun == Idle
    {
      if activeRun != RemoteRun { return true; }
      if !remoteAgentEndApplied { return true; }
      FinishRun();
      thrown := false;
    }
  }
}
