/** What a trace that obeys the grammar says about tool calls and the transcript,
    without the monitor. */
module AgentTranscript {
  import opened AgentProtocol
  import opened AgentState

  // ----- starts and ends -----

  function StartsOf(trace: seq<Event>, id: string): nat {
    if trace == [] then 0
    else
      var e := trace[|trace| - 1];
      StartsOf(trace[..|trace| - 1], id) + if e.ToolStart? && e.id == id then 1 else 0
  }

  function EndsOf(trace: seq<Event>, id: string): nat {
    if trace == [] then 0
    else
      var e := trace[|trace| - 1];
      EndsOf(trace[..|trace| - 1], id) + if e.ToolEnd? && e.id == id then 1 else 0
  }

  /** A phase change starts, ends or keeps running calls as the event says. */
  lemma RunningStep(p: Phase, ended: seq<Message>, e: Event, id: string)
    requires !NextPhase(p, ended, e).Rejected?
    ensures Running(NextPhase(p, ended, e))[id]
            == Running(p)[id] + (if e.ToolStart? && e.id == id then 1 else 0) - (if e.ToolEnd? && e.id == id then 1 else 0)
  {
    hide Calls, Halted;
    if e.ToolStart? || e.ToolEnd? || e.ToolUpdate? {
      assert p.Batch?;
    } else {
      RunningKept(p, ended, e);
    }
  }

  /** At every point of an accepted trace no id has ended more often than it started. */
  lemma {:induction false} StartsMinusEnds(trace: seq<Event>, id: string)
    requires Accepted(trace)
    ensures StartsOf(trace, id) - EndsOf(trace, id) == Running(Observe(INITIAL, trace).phase)[id]
  {
    hide NextPhase, Running;
    if trace == [] {
      NothingRuns(id);
    } else {
      var init := trace[..|trace| - 1];
      PrefixAccepted(trace, |trace| - 1);
      StartsMinusEnds(init, id);
      var m := Observe(INITIAL, init);
      RunningStep(m.phase, m.ended, trace[|trace| - 1], id);
    }
  }

  lemma NothingRuns(id: string)
    ensures Running(Before)[id] == 0
  {
  }

  /** Every update falls between a start and the matching end of its id, and when a
      turn ends every started call has ended exactly once. */
  lemma CallsAreBracketed(trace: seq<Event>, id: string)
    requires Accepted(trace) && trace != []
    ensures var e := trace[|trace| - 1];
            && (e.ToolUpdate? && e.id == id ==> EndsOf(trace, id) < StartsOf(trace, id))
            && (e.TurnEnd? ==> EndsOf(trace, id) == StartsOf(trace, id))
  {
    StartsMinusEnds(trace, id);
    var init := trace[..|trace| - 1];
    PrefixAccepted(trace, |trace| - 1);
    var m := Observe(INITIAL, init);
    match trace[|trace| - 1] {
      case ToolUpdate(_, _, _, _) => assert m.phase.Batch?;
      case TurnEnd(_, _) => assert m.phase.Batch?;
      case _ =>
    }
  }

  // ----- answers in the transcript -----

  /** `results` answers the first calls of `content`, in order. */
  predicate AnswersOf(content: seq<Block>, results: seq<Message>) {
    && |results| <= |Calls(content)|
    && forall j :: 0 <= j < |results| ==>
         results[j].ToolResult? && results[j].callId == Calls(content)[j].id && results[j].toolName == Calls(content)[j].name
  }

  /** The transcript while a batch is running: it ends with the answer and those of its
      results that are there. */
  predicate BatchAtEnd(m: Monitor) {
    if m.phase.Batch? || m.phase.ResultOpen? then
      && EndsInAnswer(m.ended, m.phase.answer, m.phase.results)
      && AnswersOf(m.phase.answer.content, m.phase.results)
      && (m.phase.ResultOpen? ==>
          |m.phase.results| < m.phase.started
          && AnswersOf(m.phase.answer.content, m.phase.results + [m.phase.message]))
      && (Halted(m.phase.answer) ==> m.phase.started == 0 && m.phase.results == [])
    else true
  }

  predicate EndsInAnswer(messages: seq<Message>, answer: Message, results: seq<Message>) {
    |results| < |messages| && messages[|messages| - |results| - 1..] == [answer] + results
  }

  lemma BatchStep(m: Monitor, e: Event)
    requires BatchAtEnd(m) && !Advance(m, e).phase.Rejected?
    ensures BatchAtEnd(Advance(m, e))
  {
    var p := m.phase;
    if e.MessageEnd? && p.ResultOpen? {
      BatchGrows(m.ended, p.answer, p.results, e.message);
    } else if e.MessageEnd? && p.Streaming? {
      assert (m.ended + [e.message])[|m.ended|..] == [e.message];
    }
  }

  lemma BatchGrows(messages: seq<Message>, answer: Message, results: seq<Message>, more: Message)
    requires EndsInAnswer(messages, answer, results)
    ensures EndsInAnswer(messages + [more], answer, results + [more])
  {
    var i := |messages| - |results| - 1;
    assert (messages + [more])[i..] == messages[i..] + [more];
  }

  lemma {:induction false} BatchesAtEnd(trace: seq<Event>)
    requires Accepted(trace)
    ensures BatchAtEnd(Observe(INITIAL, trace))
  {
    hide Advance, NextPhase, BatchAtEnd;
    if trace == [] {
      NoBatch();
    } else {
      var init := trace[..|trace| - 1];
      PrefixAccepted(trace, |trace| - 1);
      BatchesAtEnd(init);
      BatchStep(Observe(INITIAL, init), trace[|trace| - 1]);
    }
  }

  lemma NoBatch()
    ensures BatchAtEnd(INITIAL)
  {
  }

  /** At each turn_end the transcript ends with the turn's answer, immediately followed by
      exactly the answers to its own calls, in call order, if it did not stop on an error,
      and by nothing if it did. */
  lemma TurnEndsAnswered(trace: seq<Event>)
    requires Accepted(trace) && trace != [] && trace[|trace| - 1].TurnEnd?
    ensures var e := trace[|trace| - 1];
            && e.message.Assistant? && EndsInAnswer(Ended(trace), e.message, e.toolResults)
            && AnswersOf(e.message.content, e.toolResults)
            && |e.toolResults| == if Halted(e.message) then 0 else |Calls(e.message.content)|
  {
    hide BatchAtEnd;
    var init := trace[..|trace| - 1];
    PrefixAccepted(trace, |trace| - 1);
    BatchesAtEnd(init);
    MonitorCollectsEnded(init);
    var m := Observe(INITIAL, init);
    assert m.phase.Batch?;
    assert BatchAtEnd(m) ==> EndsInAnswer(m.ended, m.phase.answer, m.phase.results) by { UnfoldBatch(m); }
    UnfoldBatch(m);
    assert Ended(trace) == Ended(init);
  }

  lemma UnfoldBatch(m: Monitor)
    requires BatchAtEnd(m) && m.phase.Batch?
    ensures EndsInAnswer(m.ended, m.phase.answer, m.phase.results) && AnswersOf(m.phase.answer.content, m.phase.results)
    ensures Halted(m.phase.answer) ==> m.phase.results == []
  {
  }

  /** Messages that have ended stay where they are, so this holds of every turn of a run. */
  lemma {:induction false} EndedOnlyGrows(trace: seq<Event>, n: nat)
    requires n <= |trace|
    ensures Ended(trace[..n]) <= Ended(trace)
  {
    if n == |trace| {
      assert trace[..n] == trace;
    } else {
      var init := trace[..|trace| - 1];
      EndedOnlyGrows(init, n);
      assert init[..n] == trace[..n];
    }
  }
}
