/** Which assistant messages of a run have the results of their tool calls behind them. */
module AgentAnswers {
  import opened AgentProtocol
  import opened AgentTranscript

  /** Every assistant message that did not stop on an error is immediately followed by
      the results of exactly its own tool calls, in call order. */
  predicate WellAnswered(messages: seq<Message>) {
    forall i :: 0 <= i < |messages| && messages[i].Assistant? && !Halted(messages[i]) ==> AnsweredAt(messages, i)
  }

  predicate AnsweredAt(messages: seq<Message>, i: nat)
    requires i < |messages| && messages[i].Assistant?
  {
    var n := |Calls(messages[i].content)|;
    i + 1 + n <= |messages| && AnswersOf(messages[i].content, messages[i + 1..i + 1 + n])
  }

  /** What one turn adds to the transcript: what was prompted or polled, the answer, and
      the results of its tool calls. */
  datatype Exchange = Exchange(inputs: seq<Message>, answer: AssistantMessage, results: seq<Message>)

  /** A halted answer has no results; any other has all of them. */
  predicate Complete(x: Exchange) {
    AnswersOf(x.answer.content, x.results) && |x.results| == if Halted(x.answer) then 0 else |Calls(x.answer.content)|
  }

  function Flatten(exchanges: seq<Exchange>): seq<Message> {
    if exchanges == [] then []
    else
      var x := exchanges[|exchanges| - 1];
      Flatten(exchanges[..|exchanges| - 1]) + x.inputs + ([x.answer] + x.results)
  }

  lemma FlattenSnoc(exchanges: seq<Exchange>, x: Exchange)
    ensures Flatten(exchanges + [x]) == Flatten(exchanges) + x.inputs + ([x.answer] + x.results)
  {
    assert (exchanges + [x])[..|exchanges|] == exchanges;
  }

  /** Joining two transcripts keeps every answer's results behind it. */
  lemma AnsweredExtends(messages: seq<Message>, more: seq<Message>)
    requires WellAnswered(messages) && WellAnswered(more)
    ensures WellAnswered(messages + more)
  {
    var all := messages + more;
    forall i | 0 <= i < |all| && all[i].Assistant? && !Halted(all[i]) ensures AnsweredAt(all, i) {
      var n := |Calls(all[i].content)|;
      if i < |messages| {
        assert AnsweredAt(messages, i);
        assert all[i + 1..i + 1 + n] == messages[i + 1..i + 1 + n];
      } else {
        assert AnsweredAt(more, i - |messages|);
        assert all[i + 1..i + 1 + n] == more[i - |messages| + 1..i - |messages| + 1 + n];
      }
    }
  }

  lemma AnsweredBack(messages: seq<Message>, more: seq<Message>)
    requires WellAnswered(messages + more)
    ensures WellAnswered(more)
  {
    var all := messages + more;
    forall i | 0 <= i < |more| && more[i].Assistant? && !Halted(more[i]) ensures AnsweredAt(more, i) {
      var n := |Calls(more[i].content)|;
      assert all[|messages| + i] == more[i];
      assert AnsweredAt(all, |messages| + i);
      assert all[|messages| + i + 1..|messages| + i + 1 + n] == more[i + 1..i + 1 + n];
    }
  }

  /** Results cannot lie beyond the next assistant message. */
  lemma AnsweredFront(messages: seq<Message>, more: seq<Message>)
    requires WellAnswered(messages + more) && more != [] && more[0].Assistant?
    ensures WellAnswered(messages)
  {
    var all := messages + more;
    forall i | 0 <= i < |messages| && messages[i].Assistant? && !Halted(messages[i]) ensures AnsweredAt(messages, i) {
      var n := |Calls(messages[i].content)|;
      assert all[i] == messages[i];
      assert AnsweredAt(all, i);
      var results := all[i + 1..i + 1 + n];
      assert forall j :: i < j < i + 1 + n ==> all[j] == results[j - i - 1];
      assert all[|messages|] == more[0];
      assert i + 1 + n <= |messages|;
      assert all[i + 1..i + 1 + n] == messages[i + 1..i + 1 + n];
    }
  }

  /** An answer with all its results, or a halted one, is well answered. */
  lemma CompleteIsAnswered(x: Exchange)
    requires Complete(x)
    ensures WellAnswered([x.answer] + x.results)
  {
    var all := [x.answer] + x.results;
    if !Halted(x.answer) {
      assert all[1..1 + |x.results|] == x.results;
      assert AnsweredAt(all, 0);
    }
  }

  /** Turns with complete batches: every answer in the transcript has its own results
      behind it if and only if that holds within the inputs of each turn, because an
      answer always ends the inputs before it. */
  lemma {:induction false} AnsweredIffInputsAre(exchanges: seq<Exchange>, waiting: seq<Message>)
    requires forall k :: 0 <= k < |exchanges| ==> Complete(exchanges[k])
    ensures WellAnswered(Flatten(exchanges) + waiting) <==>
              WellAnswered(waiting) && forall k :: 0 <= k < |exchanges| ==> WellAnswered(exchanges[k].inputs)
  {
    hide WellAnswered, Complete;
    if exchanges == [] {
      assert Flatten(exchanges) + waiting == waiting;
    } else {
      var init, x := exchanges[..|exchanges| - 1], exchanges[|exchanges| - 1];
      AnsweredIffInputsAre(init, x.inputs);
      var front, batch := Flatten(init) + x.inputs, [x.answer] + x.results;
      CompleteIsAnswered(x);
      assert Flatten(exchanges) + waiting == front + (batch + waiting) == (front + batch) + waiting;
      if WellAnswered(Flatten(exchanges) + waiting) {
        AnsweredFront(front, batch + waiting);
        AnsweredBack(front + batch, waiting);
      }
      if WellAnswered(waiting) && WellAnswered(front) {
        AnsweredExtends(front, batch);
        AnsweredExtends(front + batch, waiting);
      }
      assert forall k :: 0 <= k < |init| ==> init[k] == exchanges[k];
    }
  }

  /** Inputs without assistant messages leave nothing to answer. */
  lemma NoneToAnswer(messages: seq<Message>)
    requires forall i :: 0 <= i < |messages| ==> !messages[i].Assistant?
    ensures WellAnswered(messages)
  {
  }

  lemma OneCall(call: ToolCall)
    ensures Calls([CallBlock(call)]) == [call]
  {
    assert [CallBlock(call)][1..] == [] && Calls([]) == [];
  }

  /** A prompted assistant message with a tool call stays without a result, whatever the
      turn answers. */
  lemma PromptedCallStaysOpen(call: ToolCall, answer: AssistantMessage, results: seq<Message>)
    ensures !WellAnswered(Flatten([Exchange([Assistant([CallBlock(call)], ToolUse, "")], answer, results)]))
  {
    var open := Assistant([CallBlock(call)], ToolUse, "");
    var x := Exchange([open], answer, results);
    var one := [x];
    assert one[..|one| - 1] == [] && one[|one| - 1] == x;
    var all := Flatten(one);
    assert all == Flatten([]) + [open] + ([answer] + results);
    OneCall(call);
    assert all[0] == open && all[1..2] == [answer] && !all[1..2][0].ToolResult?;
    assert |Calls(all[0].content)| == 1;
    assert !AnsweredAt(all, 0);
  }
}
