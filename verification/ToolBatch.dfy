/** One tool call from start to result, and what a whole batch must come to. */
module ToolBatch {
  import opened Basics
  import opened AgentProtocol

  /** Everything outside the loop that decides a call: whether its tool exists and its
      arguments validate, what the before hook says, what the tool does, what the
      after hook says. */
  datatype Script = Script(preparation: Preparation, execution: Execution, after: AfterHook)

  datatype Preparation =
    | NotFound
    | Fails(error: string)                    // preparing, validating or the hook throws
    | Blocked(reason: string)
    | Accepts(arguments: string)

  datatype Execution = Execution(updates: seq<string>, outcome: ToolOutcome)

  datatype ToolOutcome = Returns(result: Result) | Throws(error: string)

  datatype AfterHook =
    | NoHook
    | KeepsResult
    | Overrides(content: Option<string>, details: Option<string>, terminate: Option<bool>, isError: Option<bool>)
    | HookThrows(error: string)

  datatype Prepared = Immediate(result: Result, isError: bool) | Ready(call: ToolCall)

  datatype Finalized = Finalized(call: ToolCall, result: Result, isError: bool)

  function ErrorResult(message: string): Result { Result(message, "", None) }

  function Prepare(call: ToolCall, script: Script): (r: Prepared)
    ensures r.Ready? ==> r.call.id == call.id && r.call.name == call.name
  {
    match script.preparation
    case NotFound => Immediate(ErrorResult("Tool " + call.name + " not found"), true)
    case Fails(error) => Immediate(ErrorResult(error), true)
    case Blocked(reason) => Immediate(ErrorResult(if reason == "" then "Tool execution was blocked" else reason), true)
    case Accepts(arguments) => Ready(call.(arguments := arguments))
  }

  /** The tool's own outcome: a throw becomes an error result. */
  function Executed(execution: Execution): (Result, bool) {
    match execution.outcome
    case Returns(result) => (result, false)
    case Throws(error) => (ErrorResult(error), true)
  }

  function OrElse<T>(a: Option<T>, b: T): T { if a.Some? then a.value else b }

  function Finalize(call: ToolCall, script: Script): Finalized {
    var (result, isError) := Executed(script.execution);
    match script.after
    case NoHook => Finalized(call, result, isError)
    case KeepsResult => Finalized(call, result, isError)
    case Overrides(content, details, terminate, error) =>
      Finalized(call,
                Result(OrElse(content, result.content), OrElse(details, result.details),
                       if terminate.Some? then terminate else result.terminate),
                OrElse(error, isError))
    case HookThrows(error) => Finalized(call, ErrorResult(error), true)
  }

  /** What one call comes to, whichever way the batch runs. */
  function Outcome(call: ToolCall, script: Script): (r: Finalized)
    ensures r.call.id == call.id && r.call.name == call.name
  {
    match Prepare(call, script)
    case Immediate(result, isError) => Finalized(call, result, isError)
    case Ready(ready) => Finalize(ready, script)
  }

  function ResultMessage(f: Finalized): Message {
    ToolResult(f.call.id, f.call.name, f.result.content, f.result.details, f.isError)
  }

  /** What the model is told about a call that is not accepted. */
  function Refusal(call: ToolCall, preparation: Preparation): string
    requires !preparation.Accepts?
  {
    match preparation
    case NotFound => "Tool " + call.name + " not found"
    case Fails(error) => error
    case Blocked(reason) => if reason == "" then "Tool execution was blocked" else reason
  }

  /** A call that is not accepted is answered at once with an error that says why, without
      details; nothing that its tool or the after hook would have done matters. */
  lemma RefusedCall(call: ToolCall, script: Script, execution: Execution, after: AfterHook)
    requires !script.preparation.Accepts?
    ensures var f := Outcome(call, script);
            && ResultMessage(f) == ToolResult(call.id, call.name, Refusal(call, script.preparation), "", true)
            && f.call == call && f.result.terminate == None
            && Outcome(call, script.(execution := execution, after := after)) == f
    ensures Steps([call], [script], 0) == 0
  {
  }

  /** An accepted call that no hook touches passes on what its tool returned, and is an
      error exactly if the tool threw; then the result is the thrown text. */
  lemma AcceptedCall(call: ToolCall, script: Script)
    requires script.preparation.Accepts? && (script.after.NoHook? || script.after.KeepsResult?)
    ensures var f := Outcome(call, script); var outcome := script.execution.outcome;
            && f.call == call.(arguments := script.preparation.arguments)
            && (f.isError <==> outcome.Throws?)
            && (outcome.Returns? ==>
                  f.result == outcome.result
                  && ResultMessage(f) == ToolResult(call.id, call.name, outcome.result.content, outcome.result.details, false))
            && (outcome.Throws? ==>
                  f.result.terminate == None && ResultMessage(f) == ToolResult(call.id, call.name, outcome.error, "", true))
    ensures Steps([call], [script], 0) == |script.execution.updates| + 1
  {
  }

  /** An override replaces exactly the fields that it gives. */
  lemma OverriddenCall(call: ToolCall, script: Script)
    requires script.preparation.Accepts? && script.after.Overrides?
    ensures var f := Outcome(call, script); var plain := Outcome(call, script.(after := NoHook)); var a := script.after;
            && f.call == plain.call
            && (if a.content.Some? then f.result.content == a.content.value else f.result.content == plain.result.content)
            && (if a.details.Some? then f.result.details == a.details.value else f.result.details == plain.result.details)
            && (if a.terminate.Some? then f.result.terminate == a.terminate else f.result.terminate == plain.result.terminate)
            && (if a.isError.Some? then f.isError == a.isError.value else f.isError == plain.isError)
  {
  }

  /** A throwing after hook replaces the result by an error, whatever the tool did. */
  lemma HookThrowsCall(call: ToolCall, script: Script)
    requires script.preparation.Accepts? && script.after.HookThrows?
    ensures var f := Outcome(call, script);
            f.result.terminate == None && ResultMessage(f) == ToolResult(call.id, call.name, script.after.error, "", true)
  {
  }

  /** The script of call `i`. A batch brings one script per call; a missing one stands
      for a tool that does not exist. */
  function ScriptAt(scripts: seq<Script>, i: nat): Script {
    if i < |scripts| then scripts[i] else Script(NotFound, Execution([], Throws("")), NoHook)
  }

  function OutcomeAt(calls: seq<ToolCall>, scripts: seq<Script>, i: nat): (r: Finalized)
    requires i < |calls|
    ensures r.call.id == calls[i].id && r.call.name == calls[i].name
  {
    Outcome(calls[i], ScriptAt(scripts, i))
  }

  /** The answers to the first `n` calls, in call order. */
  function Answers(calls: seq<ToolCall>, scripts: seq<Script>, n: nat): (r: seq<Message>)
    requires n <= |calls|
    ensures |r| == n
    ensures forall i :: 0 <= i < n ==>
      r[i].ToolResult? && r[i].callId == calls[i].id && r[i].toolName == calls[i].name
    ensures forall i :: 0 <= i < n ==> r[i] == ResultMessage(OutcomeAt(calls, scripts, i))
  {
    if n == 0 then [] else Answers(calls, scripts, n - 1) + [ResultMessage(OutcomeAt(calls, scripts, n - 1))]
  }

  /** A batch ends the run's tool turns only if it has calls and all of them ask so. */
  predicate Terminates(calls: seq<ToolCall>, scripts: seq<Script>) {
    |calls| > 0 && forall i :: 0 <= i < |calls| ==> OutcomeAt(calls, scripts, i).result.terminate == Some(true)
  }

  predicate AsksToEnd(outcome: ToolOutcome) { outcome.Returns? && outcome.result.terminate == Some(true) }

  /** One call that is not accepted, or whose tool throws, keeps the run going; a single
      call that returns with `terminate` and is not overridden ends it. */
  lemma OneKeepsGoing(calls: seq<ToolCall>, scripts: seq<Script>, i: nat)
    requires i < |calls|
    ensures var script := ScriptAt(scripts, i);
            && (!script.preparation.Accepts? ==> !Terminates(calls, scripts))
            && (script.after.NoHook? && script.execution.outcome.Throws? ==> !Terminates(calls, scripts))
            && (|calls| == 1 && script.preparation.Accepts? && script.after.NoHook? && AsksToEnd(script.execution.outcome) ==>
                  Terminates(calls, scripts))
    ensures !Terminates([], scripts)
  {
    var f := OutcomeAt(calls, scripts, i);
  }

  // ----- what is reported of a call -----

  function StartOf(call: ToolCall): Event { ToolStart(call.id, call.name, call.arguments) }

  function EndOf(f: Finalized): Event { ToolEnd(f.call.id, f.call.name, f.result, f.isError) }

  /** Each partial result, with the arguments the tool was given. */
  function Updates(call: ToolCall, updates: seq<string>): (r: seq<Event>)
    ensures |r| == |updates|
    ensures forall i :: 0 <= i < |r| ==> r[i] == ToolUpdate(call.id, call.name, call.arguments, updates[i])
  {
    seq(|updates|, i requires 0 <= i < |updates| => ToolUpdate(call.id, call.name, call.arguments, updates[i]))
  }

  /** What a call reports after its start: the tool's partial results, if it runs, and the
      outcome. */
  function Reports(call: ToolCall, script: Script): seq<Event> {
    (if Prepare(call, script).Ready? then Updates(Prepare(call, script).call, script.execution.updates) else [])
    + [EndOf(Outcome(call, script))]
  }

  function ResultEvents(f: Finalized): seq<Event> { [MessageStart(ResultMessage(f)), MessageEnd(ResultMessage(f))] }

  /** Everything reported of the first `n` calls when they run one after the other. */
  function SequentialEvents(calls: seq<ToolCall>, scripts: seq<Script>, n: nat): seq<Event>
    requires n <= |calls|
  {
    if n == 0 then []
    else
      SequentialEvents(calls, scripts, n - 1)
      + ([StartOf(calls[n - 1])] + Reports(calls[n - 1], ScriptAt(scripts, n - 1))
         + ResultEvents(OutcomeAt(calls, scripts, n - 1)))
  }

  // ----- progress of a parallel batch -----

  /** How many events call `i` still has to emit once the batch is running: its updates
      and its end; a call answered immediately has none. */
  function Steps(calls: seq<ToolCall>, scripts: seq<Script>, i: nat): nat
    requires i < |calls|
  {
    var script := ScriptAt(scripts, i);
    if Prepare(calls[i], script).Immediate? then 0 else |script.execution.updates| + 1
  }

  predicate Progress(calls: seq<ToolCall>, scripts: seq<Script>, progress: seq<nat>) {
    |progress| == |calls| && forall i :: 0 <= i < |calls| ==> progress[i] <= Steps(calls, scripts, i)
  }

  /** The ids of the first `n` calls that have not ended. */
  function Unfinished(calls: seq<ToolCall>, scripts: seq<Script>, progress: seq<nat>, n: nat): multiset<string>
    requires n <= |calls| && n <= |progress|
  {
    if n == 0 then multiset{}
    else
      Unfinished(calls, scripts, progress, n - 1)
      + if progress[n - 1] < Steps(calls, scripts, n - 1) then multiset{calls[n - 1].id} else multiset{}
  }

  /** The batch as a whole after the first `n` calls: who still runs depends only on
      who has finished. */
  lemma {:induction false} UnfinishedSame(calls: seq<ToolCall>, scripts: seq<Script>, a: seq<nat>, b: seq<nat>, n: nat)
    requires n <= |calls| && n <= |a| && n <= |b|
    requires forall i :: 0 <= i < n ==> (a[i] < Steps(calls, scripts, i) <==> b[i] < Steps(calls, scripts, i))
    ensures Unfinished(calls, scripts, a, n) == Unfinished(calls, scripts, b, n)
  {
    if n > 0 { UnfinishedSame(calls, scripts, a, b, n - 1); }
  }

  lemma RemoveFirst(m: multiset<string>, rest: multiset<string>, id: string)
    requires id in m
    ensures (m + rest) - multiset{id} == (m - multiset{id}) + rest
  {
  }

  /** A call that has not ended is among the running ids, and ending it removes one
      occurrence of its id, even where ids repeat. */
  lemma {:induction false} FinishOne(calls: seq<ToolCall>, scripts: seq<Script>, progress: seq<nat>, k: nat, n: nat)
    requires k < n <= |calls| && n <= |progress| && progress[k] < Steps(calls, scripts, k)
    ensures calls[k].id in Unfinished(calls, scripts, progress, n)
    ensures Unfinished(calls, scripts, progress[k := Steps(calls, scripts, k)], n)
            == Unfinished(calls, scripts, progress, n) - multiset{calls[k].id}
  {
    hide Steps, Prepare;
    var after := progress[k := Steps(calls, scripts, k)];
    if k == n - 1 {
      UnfinishedSame(calls, scripts, progress, after, n - 1);
    } else {
      FinishOne(calls, scripts, progress, k, n - 1);
      var last := if progress[n - 1] < Steps(calls, scripts, n - 1) then multiset{calls[n - 1].id} else multiset{};
      var before := Unfinished(calls, scripts, progress, n - 1);
      assert after[n - 1] == progress[n - 1];
      assert Unfinished(calls, scripts, progress, n) == before + last;
      assert Unfinished(calls, scripts, after, n) == Unfinished(calls, scripts, after, n - 1) + last;
      RemoveFirst(before, last, calls[k].id);
    }
  }

  lemma {:induction false} AllFinished(calls: seq<ToolCall>, scripts: seq<Script>, progress: seq<nat>, n: nat)
    requires n <= |calls| && n <= |progress| && forall i :: 0 <= i < n ==> progress[i] == Steps(calls, scripts, i)
    ensures Unfinished(calls, scripts, progress, n) == multiset{}
  {
    if n > 0 { AllFinished(calls, scripts, progress, n - 1); }
  }

  /** One more event of call `k`: it is still running unless that was its last. */
  lemma StepOne(calls: seq<ToolCall>, scripts: seq<Script>, progress: seq<nat>, k: nat)
    requires Progress(calls, scripts, progress) && k < |calls| && progress[k] < Steps(calls, scripts, k)
    ensures var n := |calls|;
            var next := progress[k := progress[k] + 1];
            && Progress(calls, scripts, next)
            && calls[k].id in Unfinished(calls, scripts, progress, n)
            && Unfinished(calls, scripts, next, n)
               == Unfinished(calls, scripts, progress, n)
                  - if next[k] < Steps(calls, scripts, k) then multiset{} else multiset{calls[k].id}
  {
    var next := progress[k := progress[k] + 1];
    FinishOne(calls, scripts, progress, k, |calls|);
    if next[k] < Steps(calls, scripts, k) {
      UnfinishedSame(calls, scripts, progress, next, |calls|);
    }
  }

  /** What the entries of a parallel batch hold: the outcome of each finished call. */
  predicate Collected(calls: seq<ToolCall>, scripts: seq<Script>, progress: seq<nat>, entries: seq<Option<Finalized>>) {
    && Progress(calls, scripts, progress) && |entries| == |calls|
    && forall i :: 0 <= i < |calls| ==>
         entries[i] == if progress[i] < Steps(calls, scripts, i) then None else Some(OutcomeAt(calls, scripts, i))
  }

  /** The entries of the first `n` calls once they have started. */
  function AtStart(calls: seq<ToolCall>, scripts: seq<Script>, n: nat): (r: seq<Option<Finalized>>)
    requires n <= |calls|
    ensures |r| == n
    ensures forall i :: 0 <= i < n ==> r[i] == if 0 < Steps(calls, scripts, i) then None else Some(OutcomeAt(calls, scripts, i))
  {
    if n == 0 then []
    else AtStart(calls, scripts, n - 1)
         + [if 0 < Steps(calls, scripts, n - 1) then None else Some(OutcomeAt(calls, scripts, n - 1))]
  }

  lemma NothingStarted(calls: seq<ToolCall>, scripts: seq<Script>)
    ensures AtStart(calls, scripts, 0) == []
  {
  }

  lemma NoAnswers(calls: seq<ToolCall>, scripts: seq<Script>)
    ensures Answers(calls, scripts, 0) == []
  {
  }
}
