/** The agent's observable state as a function of the events it processes, and the
    two facts about it that hold on every accepted trace. */
module AgentState {
  import opened Basics
  import opened AgentProtocol

  datatype State = State(
    messages: seq<Message>,
    isStreaming: bool,
    streamingMessage: Option<Message>,
    pendingToolCalls: set<string>,
    errorMessage: Option<string>)

  /** What `processEvents` does to the state. */
  function Reduce(st: State, e: Event): State {
    match e
    case MessageStart(m) => st.(streamingMessage := Some(m))
    case MessageUpdate(m) => st.(streamingMessage := Some(m))
    case MessageEnd(m) => st.(streamingMessage := None, messages := st.messages + [m])
    case ToolStart(id, _, _) => st.(pendingToolCalls := st.pendingToolCalls + {id})
    case ToolEnd(id, _, _, _) => st.(pendingToolCalls := st.pendingToolCalls - {id})
    case TurnEnd(m, _) =>
      if m.Assistant? && m.errorMessage != "" then st.(errorMessage := Some(m.errorMessage)) else st
    case AgentEnd(_) => st.(streamingMessage := None)
    case _ => st
  }

  function ReduceAll(st: State, trace: seq<Event>): State {
    if trace == [] then st else Reduce(ReduceAll(st, trace[..|trace| - 1]), trace[|trace| - 1])
  }

  /** Entering and leaving a run. */
  function Begin(st: State): State {
    st.(isStreaming := true, streamingMessage := None, errorMessage := None)
  }

  function Finish(st: State): State {
    st.(isStreaming := false, streamingMessage := None, pendingToolCalls := {})
  }

  lemma ReduceSnoc(st: State, trace: seq<Event>, e: Event)
    ensures ReduceAll(st, trace + [e]) == Reduce(ReduceAll(st, trace), e)
  {
    assert (trace + [e])[..|trace|] == trace;
  }

  /** The transcript grows by exactly the messages whose ends were emitted. */
  lemma {:induction false} TranscriptIsEnded(st: State, trace: seq<Event>)
    ensures ReduceAll(st, trace).messages == st.messages + Ended(trace)
  {
    if trace != [] {
      TranscriptIsEnded(st, trace[..|trace| - 1]);
    }
  }

  function Running(p: Phase): multiset<string> {
    if p.Batch? || p.ResultOpen? then p.running else multiset{}
  }

  predicate PendingWithin(st: State, p: Phase) {
    forall id :: id in st.pendingToolCalls ==> id in Running(p)
  }

  lemma PendingStep(st: State, p: Phase, ended: seq<Message>, e: Event)
    requires PendingWithin(st, p) && !NextPhase(p, ended, e).Rejected?
    ensures PendingWithin(Reduce(st, e), NextPhase(p, ended, e))
  {
    hide NextPhase, Reduce, PendingWithin;
    if e.ToolStart? || e.ToolEnd? || e.ToolUpdate? {
      PendingToolStep(st, p, ended, e);
    } else {
      PendingOtherStep(st, p, ended, e);
    }
  }

  lemma PendingToolStep(st: State, p: Phase, ended: seq<Message>, e: Event)
    requires PendingWithin(st, p) && !NextPhase(p, ended, e).Rejected? && (e.ToolStart? || e.ToolEnd? || e.ToolUpdate?)
    ensures PendingWithin(Reduce(st, e), NextPhase(p, ended, e))
  {
    hide Calls, Halted;
    assert p.Batch?;
  }

  lemma PendingOtherStep(st: State, p: Phase, ended: seq<Message>, e: Event)
    requires PendingWithin(st, p) && !NextPhase(p, ended, e).Rejected? && !e.ToolStart? && !e.ToolEnd? && !e.ToolUpdate?
    ensures PendingWithin(Reduce(st, e), NextPhase(p, ended, e))
  {
    RunningKept(p, ended, e);
    assert Reduce(st, e).pendingToolCalls == st.pendingToolCalls;
  }

  lemma RunningKept(p: Phase, ended: seq<Message>, e: Event)
    requires !NextPhase(p, ended, e).Rejected? && !e.ToolStart? && !e.ToolEnd? && !e.ToolUpdate?
    ensures Running(NextPhase(p, ended, e)) == Running(p)
  {
    hide Calls, Halted;
  }

  /** Although pending calls are a set and ids may repeat, a call is pending only while
      one of that id is running. */
  lemma {:induction false} PendingAreRunning(st: State, trace: seq<Event>)
    requires st.pendingToolCalls == {} && Accepted(trace)
    ensures PendingWithin(ReduceAll(st, trace), Observe(INITIAL, trace).phase)
  {
    if trace != [] {
      var init := trace[..|trace| - 1];
      PrefixAccepted(trace, |trace| - 1);
      PendingAreRunning(st, init);
      var m := Observe(INITIAL, init);
      PendingStep(ReduceAll(st, init), m.phase, m.ended, trace[|trace| - 1]);
    }
  }

  /** So none is pending when a turn has ended. */
  lemma NonePendingAtTurnEnd(st: State, trace: seq<Event>)
    requires st.pendingToolCalls == {} && Accepted(trace)
    requires trace != [] && trace[|trace| - 1].TurnEnd?
    ensures ReduceAll(st, trace).pendingToolCalls == {}
  {
    PendingAreRunning(st, trace);
  }

  // ----- what else the state says of a run -----

  /** The error of the last turn that ended with one. */
  function LastError(trace: seq<Event>): Option<string> {
    if trace == [] then None
    else
      var e := trace[|trace| - 1];
      if e.TurnEnd? && e.message.Assistant? && e.message.errorMessage != "" then Some(e.message.errorMessage)
      else LastError(trace[..|trace| - 1])
  }

  /** The error shown is that of the last turn that had one; nothing but a turn's end sets
      it, and no event ends the streaming. */
  lemma {:induction false} ErrorIsLast(st: State, trace: seq<Event>)
    ensures ReduceAll(st, trace).errorMessage == if LastError(trace).Some? then LastError(trace) else st.errorMessage
    ensures ReduceAll(st, trace).isStreaming == st.isStreaming
  {
    if trace != [] { ErrorIsLast(st, trace[..|trace| - 1]); }
  }

  /** Whether the last event about a call of the id was its start. */
  function LastStarted(trace: seq<Event>, id: string): Option<bool> {
    if trace == [] then None
    else
      var e := trace[|trace| - 1];
      if e.ToolStart? && e.id == id then Some(true)
      else if e.ToolEnd? && e.id == id then Some(false)
      else LastStarted(trace[..|trace| - 1], id)
  }

  /** An id is pending exactly if the last thing heard of it was a start. */
  lemma {:induction false} PendingIffLastStarted(st: State, trace: seq<Event>, id: string)
    ensures id in ReduceAll(st, trace).pendingToolCalls <==>
              if LastStarted(trace, id).Some? then LastStarted(trace, id).value else id in st.pendingToolCalls
  {
    if trace != [] { PendingIffLastStarted(st, trace[..|trace| - 1], id); }
  }

  /** No two calls of the id run at once. */
  ghost predicate RunsAlone(trace: seq<Event>, id: string) {
    forall n :: 0 <= n <= |trace| ==> Running(Observe(INITIAL, trace[..n]).phase)[id] <= 1
  }

  /** Then it is pending exactly while it runs. */
  lemma {:induction false} PendingIffRunning(st: State, trace: seq<Event>, id: string)
    requires Accepted(trace) && st.pendingToolCalls == {} && RunsAlone(trace, id)
    ensures id in ReduceAll(st, trace).pendingToolCalls <==> id in Running(Observe(INITIAL, trace).phase)
  {
    hide NextPhase, Reduce, Running;
    if trace == [] {
      NothingPending(st, id);
    } else {
      var n := |trace| - 1;
      var init := trace[..n];
      PrefixAccepted(trace, n);
      forall k | 0 <= k <= n ensures Running(Observe(INITIAL, init[..k]).phase)[id] <= 1 {
        assert init[..k] == trace[..k];
      }
      PendingIffRunning(st, init, id);
      assert trace[..|trace|] == trace;
      var m := Observe(INITIAL, init);
      PendingAsRunning(ReduceAll(st, init), m.phase, m.ended, trace[n], id);
    }
  }

  lemma NothingPending(st: State, id: string)
    requires st.pendingToolCalls == {}
    ensures id !in ReduceAll(st, []).pendingToolCalls && id !in Running(Observe(INITIAL, []).phase)
  {
  }

  lemma PendingAsRunning(st: State, p: Phase, ended: seq<Message>, e: Event, id: string)
    requires !NextPhase(p, ended, e).Rejected? && Running(NextPhase(p, ended, e))[id] <= 1 && Running(p)[id] <= 1
    requires id in st.pendingToolCalls <==> id in Running(p)
    ensures id in Reduce(st, e).pendingToolCalls <==> id in Running(NextPhase(p, ended, e))
  {
    hide Calls, Halted;
    if e.ToolStart? || e.ToolEnd? || e.ToolUpdate? {
      assert p.Batch?;
    } else {
      RunningKept(p, ended, e);
    }
  }

  /** The message that is open, if one is; of an answer the last partial one. */
  predicate Streams(st: State, p: Phase) {
    match p
    case InputOpen(m) => st.streamingMessage == Some(m)
    case ResultOpen(_, _, _, _, m) => st.streamingMessage == Some(m)
    case Streaming => st.streamingMessage.Some? && st.streamingMessage.value.Assistant?
    case _ => st.streamingMessage == None
  }

  /** A message is shown as streaming exactly while it is open. */
  lemma {:induction false} StreamsWhileOpen(st: State, trace: seq<Event>)
    requires Accepted(trace) && st.streamingMessage == None
    ensures Streams(ReduceAll(st, trace), Observe(INITIAL, trace).phase)
  {
    hide NextPhase, Reduce, Streams;
    if trace == [] {
      NothingStreams(st);
    } else {
      var n := |trace| - 1;
      PrefixAccepted(trace, n);
      StreamsWhileOpen(st, trace[..n]);
      var m := Observe(INITIAL, trace[..n]);
      StreamsStep(ReduceAll(st, trace[..n]), m.phase, m.ended, trace[n]);
    }
  }

  lemma NothingStreams(st: State)
    requires st.streamingMessage == None
    ensures Streams(ReduceAll(st, []), Before)
  {
  }

  lemma StreamsStep(st: State, p: Phase, ended: seq<Message>, e: Event)
    requires Streams(st, p) && !NextPhase(p, ended, e).Rejected?
    ensures Streams(Reduce(st, e), NextPhase(p, ended, e))
  {
    hide Calls, Halted;
  }

  // ----- remote runs -----

  /** An agent that ingests a run: its state, and whether a remote run is active and
      has seen agent_end. */
  datatype Remote = Remote(state: State, active: bool, endApplied: bool)

  datatype Outcome<+T> = Ok(value: T) | Thrown(reason: string)

  function BeginRemote(r: Remote): Outcome<Remote> {
    if r.active then Thrown("Agent is already processing.")
    else Ok(Remote(Begin(r.state), true, false))
  }

  function ApplyRemote(r: Remote, e: Event): Outcome<Remote> {
    if !r.active then Thrown("beginRemoteRun() must be called before applyRemoteEvent().")
    else Ok(r.(state := Reduce(r.state, e), endApplied := r.endApplied || e.AgentEnd?))
  }

  function EndRemote(r: Remote): Outcome<Remote> {
    if !r.active then Thrown("beginRemoteRun() must be called before endRemoteRun().")
    else if !r.endApplied then Thrown("Remote run cannot end before an agent_end event.")
    else Ok(Remote(Finish(r.state), false, false))
  }

  function ApplyAll(r: Remote, trace: seq<Event>): Outcome<Remote> {
    if trace == [] then Ok(r)
    else
      var before := ApplyAll(r, trace[..|trace| - 1]);
      if before.Thrown? then before else ApplyRemote(before.value, trace[|trace| - 1])
  }

  /** A whole remote run over the events of some run. */
  function Replay(r: Remote, trace: seq<Event>): Outcome<Remote> {
    var begun := BeginRemote(r);
    if begun.Thrown? then begun
    else
      var applied := ApplyAll(begun.value, trace);
      if applied.Thrown? then applied else EndRemote(applied.value)
  }

  lemma {:induction false} ApplyAllReduces(r: Remote, trace: seq<Event>)
    requires r.active
    ensures ApplyAll(r, trace)
            == Ok(r.(state := ReduceAll(r.state, trace), endApplied := r.endApplied || exists e :: e in trace && e.AgentEnd?))
  {
    if trace != [] {
      var init := trace[..|trace| - 1];
      ApplyAllReduces(r, init);
      assert trace == init + [trace[|trace| - 1]];
      assert forall e :: e in trace <==> e in init || e == trace[|trace| - 1];
    }
  }

  /** An idle agent that replays a trace succeeds exactly if the trace contains an
      agent_end, and then ends idle, in the state a local run with that trace leaves. */
  lemma ReplayEqualsLocal(r: Remote, trace: seq<Event>)
    requires !r.active
    ensures Replay(r, trace).Ok? <==> exists e :: e in trace && e.AgentEnd?
    ensures Replay(r, trace).Ok? ==>
      Replay(r, trace).value == Remote(Finish(ReduceAll(Begin(r.state), trace)), false, false)
  {
    ApplyAllReduces(BeginRemote(r).value, trace);
  }
}
