/** A message that is rebuilt from the events of a proxy server. */
module Proxy {
  import opened Basics
  import opened Text

  datatype ProxyEvent =
    | Start
    | TextStart(index: nat)
    | TextDelta(index: nat, delta: string)
    | TextEnd(index: nat, signature: Option<string>)
    | ThinkingStart(index: nat)
    | ThinkingDelta(index: nat, delta: string)
    | ThinkingEnd(index: nat, signature: Option<string>)
    | ToolCallStart(index: nat, id: string, name: string)
    | ToolCallDelta(index: nat, delta: string)
    | ToolCallEnd(index: nat)
    | Done(reason: string)
    | ErrorEvent(reason: string, errorMessage: Option<string>)
    | Unknown

  /** `argumentsText` is the text whose parse the arguments are. */
  datatype Block =
    | TextBlock(text: string, signature: Option<string>)
    | ThinkingBlock(thinking: string, signature: Option<string>)
    | ToolCallBlock(id: string, name: string, argumentsText: string, partialJson: Option<string>)

  /** The content array, which may have holes. */
  type Content = map<nat, Block>

  /** The message being rebuilt. */
  datatype Partial = Partial(content: Content, stopReason: string, errorMessage: Option<string>)

  const FRESH := Partial(map[], "stop", None)

  /** An exception with its message, or the result. */
  datatype Outcome<+T> = Ok(value: T) | Throws(message: string)

  const NO_TEXT_DELTA := "Received text_delta for non-text content"
  const NO_TEXT_END := "Received text_end for non-text content"
  const NO_THINKING_DELTA := "Received thinking_delta for non-thinking content"
  const NO_THINKING_END := "Received thinking_end for non-thinking content"
  const NO_CALL_DELTA := "Received toolcall_delta for non-toolCall content"

  /** What an event does to the content. */
  function Apply(content: Content, e: ProxyEvent): Outcome<Content> {
    match e
    case TextStart(i) => Ok(content[i := TextBlock("", None)])
    case TextDelta(i, delta) =>
      if i in content && content[i].TextBlock? then Ok(content[i := TextBlock(content[i].text + delta, content[i].signature)])
      else Throws(NO_TEXT_DELTA)
    case TextEnd(i, signature) =>
      if i in content && content[i].TextBlock? then Ok(content[i := TextBlock(content[i].text, signature)])
      else Throws(NO_TEXT_END)
    case ThinkingStart(i) => Ok(content[i := ThinkingBlock("", None)])
    case ThinkingDelta(i, delta) =>
      if i in content && content[i].ThinkingBlock?
      then Ok(content[i := ThinkingBlock(content[i].thinking + delta, content[i].signature)])
      else Throws(NO_THINKING_DELTA)
    case ThinkingEnd(i, signature) =>
      if i in content && content[i].ThinkingBlock?
      then Ok(content[i := ThinkingBlock(content[i].thinking, signature)])
      else Throws(NO_THINKING_END)
    case ToolCallStart(i, id, name) => Ok(content[i := ToolCallBlock(id, name, "", Some(""))])
    case ToolCallDelta(i, delta) =>
      if i in content && content[i].ToolCallBlock? then
        var json := (if content[i].partialJson.Some? then content[i].partialJson.value else UNDEFINED) + delta;
        Ok(content[i := ToolCallBlock(content[i].id, content[i].name, json, Some(json))])
      else Throws(NO_CALL_DELTA)
    case ToolCallEnd(i) =>
      Ok(if i in content && content[i].ToolCallBlock?
         then content[i := ToolCallBlock(content[i].id, content[i].name, content[i].argumentsText, None)] else content)
    case _ => Ok(content)
  }

  /** What a deleted property becomes when text is appended to it. */
  const UNDEFINED := "undefined"

  /** What an event does to the message. */
  function ApplyTo(p: Partial, e: ProxyEvent): Outcome<Partial> {
    match Apply(p.content, e)
    case Throws(message) => Throws(message)
    case Ok(content) =>
      match e
      case Done(reason) => Ok(Partial(content, reason, p.errorMessage))
      case ErrorEvent(reason, message) => Ok(Partial(content, reason, message))
      case _ => Ok(Partial(content, p.stopReason, p.errorMessage))
  }

  /** The message after the events, unless one of them throws. */
  function Replay(events: seq<ProxyEvent>): Outcome<Partial> {
    if events == [] then Ok(FRESH)
    else
      var before := Replay(events[..|events| - 1]);
      if before.Throws? then before else ApplyTo(before.value, events[|events| - 1])
  }

  class AssistantMessage {
    var content: Content
    var stopReason: string
    var errorMessage: Option<string>

    ghost function View(): Partial
      reads this
    {
      Partial(content, stopReason, errorMessage)
    }

    constructor ()
      ensures View() == FRESH
    {
      content, stopReason, errorMessage := map[], "stop", None;
    }

    /** An exception leaves the message as it was. */
    method ProcessProxyEvent(e: ProxyEvent) returns (thrown: Option<string>)
      modifies this
      ensures ApplyTo(old(View()), e) == if thrown.Some? then Throws(thrown.value) else Ok(View())
      ensures thrown.Some? ==> View() == old(View())
    {
      thrown := None;
      match e {
        case Start =>
        case TextStart(i) => content := content[i := TextBlock("", None)];
        case TextDelta(i, delta) =>
          if i in content && content[i].TextBlock? {
            content := content[i := TextBlock(content[i].text + delta, content[i].signature)];
          } else {
            thrown := Some(NO_TEXT_DELTA);
          }
        case TextEnd(i, signature) =>
          if i in content && content[i].TextBlock? {
            content := content[i := TextBlock(content[i].text, signature)];
          } else {
            thrown := Some(NO_TEXT_END);
          }
        case ThinkingStart(i) => content := content[i := ThinkingBlock("", None)];
        case ThinkingDelta(i, delta) =>
          if i in content && content[i].ThinkingBlock? {
            content := content[i := ThinkingBlock(content[i].thinking + delta, content[i].signature)];
          } else {
            thrown := Some(NO_THINKING_DELTA);
          }
        case ThinkingEnd(i, signature) =>
          if i in content && content[i].ThinkingBlock? {
            content := content[i := ThinkingBlock(content[i].thinking, signature)];
          } else {
            thrown := Some(NO_THINKING_END);
          }
        case ToolCallStart(i, id, name) => content := content[i := ToolCallBlock(id, name, "", Some(""))];
        case ToolCallDelta(i, delta) =>
          if i in content && content[i].ToolCallBlock? {
            var json := (if content[i].partialJson.Some? then content[i].partialJson.value else UNDEFINED) + delta;
            content := content[i := ToolCallBlock(content[i].id, content[i].name, json, Some(json))];
          } else {
            thrown := Some(NO_CALL_DELTA);
          }
        case ToolCallEnd(i) =>
          if i in content && content[i].ToolCallBlock? {
            content := content[i := ToolCallBlock(content[i].id, content[i].name, content[i].argumentsText, None)];
          }
        case Done(reason) => stopReason := reason;
        case ErrorEvent(reason, message) => stopReason, errorMessage := reason, message;
        case Unknown =>
      }
    }
  }

  // ----- which streams are accepted, and what they build -----

  datatype Kind = TextKind | ThinkingKind | ToolCallKind

  function StartKind(e: ProxyEvent): Option<Kind> {
    match e
    case TextStart(_) => Some(TextKind)
    case ThinkingStart(_) => Some(ThinkingKind)
    case ToolCallStart(_, _, _) => Some(ToolCallKind)
    case _ => None
  }

  /** The kind of block without which the event is an error. */
  function NeededKind(e: ProxyEvent): Option<Kind> {
    match e
    case TextDelta(_, _) => Some(TextKind)
    case TextEnd(_, _) => Some(TextKind)
    case ThinkingDelta(_, _) => Some(ThinkingKind)
    case ThinkingEnd(_, _) => Some(ThinkingKind)
    case ToolCallDelta(_, _) => Some(ToolCallKind)
    case _ => None
  }

  function DeltaOf(e: ProxyEvent): Option<string> {
    if e.TextDelta? || e.ThinkingDelta? || e.ToolCallDelta? then Some(e.delta) else None
  }

  /** The kind of the last block that was started at the index. */
  function KindAt(events: seq<ProxyEvent>, i: nat): Option<Kind> {
    if events == [] then None
    else
      var last := events[|events| - 1];
      if StartKind(last).Some? && last.index == i then StartKind(last) else KindAt(events[..|events| - 1], i)
  }

  /** All deltas at the index since the last start there. */
  function DeltasAt(events: seq<ProxyEvent>, i: nat): string {
    if events == [] then ""
    else
      var last := events[|events| - 1];
      if StartKind(last).Some? && last.index == i then ""
      else DeltasAt(events[..|events| - 1], i) + if DeltaOf(last).Some? && last.index == i then last.delta else ""
  }

  /** Since the last start at the index: whether the tool call's last event was its end,
      what a delta after an end made it lose, and what was added since. */
  datatype CallState = CallState(ended: bool, lost: Option<string>, kept: string)

  /** `lost` are all deltas before the last end that a delta followed, if there is one. */
  function CallAt(events: seq<ProxyEvent>, i: nat): CallState {
    if events == [] then CallState(false, None, "")
    else
      var before, last := events[..|events| - 1], events[|events| - 1];
      var state := CallAt(before, i);
      if StartKind(last).Some? && last.index == i then CallState(false, None, "")
      else if last.ToolCallEnd? && last.index == i then state.(ended := true)
      else if last.ToolCallDelta? && last.index == i then
        if state.ended then CallState(false, Some(DeltasAt(before, i)), last.delta) else state.(kept := state.kept + last.delta)
      else state
  }

  /** Every delta and every end of a text or thought finds a block of its kind. */
  predicate WellAddressed(events: seq<ProxyEvent>) {
    events == [] ||
    var last := events[|events| - 1];
    WellAddressed(events[..|events| - 1]) &&
    (NeededKind(last).Some? ==> KindAt(events[..|events| - 1], last.index) == NeededKind(last))
  }

  function BlockKind(block: Block): Kind {
    match block
    case TextBlock(_, _) => TextKind
    case ThinkingBlock(_, _) => ThinkingKind
    case ToolCallBlock(_, _, _, _) => ToolCallKind
  }

  /** The text of a tool call: what was added since the last end that a delta followed,
      after the word "undefined" if there is such an end. */
  function CallText(call: CallState): string { (if call.lost.Some? then UNDEFINED else "") + call.kept }

  /** The block at the index is of the kind last started there; a text or thought holds
      its deltas, a tool call its text. */
  predicate Holds(content: Content, events: seq<ProxyEvent>, i: nat) {
    if i !in content then KindAt(events, i) == None
    else
      && KindAt(events, i) == Some(BlockKind(content[i]))
      && match content[i]
         case TextBlock(text, _) => text == DeltasAt(events, i)
         case ThinkingBlock(thinking, _) => thinking == DeltasAt(events, i)
         case ToolCallBlock(_, _, text, json) =>
           var call := CallAt(events, i);
           && text == CallText(call) && json == (if call.ended then None else Some(text))
           && DeltasAt(events, i) == (if call.lost.Some? then call.lost.value else "") + call.kept
  }

  /** The event is about the block at the index. */
  predicate Concerns(e: ProxyEvent, i: nat) {
    (StartKind(e).Some? || NeededKind(e).Some? || e.ToolCallEnd?) && e.index == i
  }

  lemma HoldsElsewhere(content: Content, events: seq<ProxyEvent>, e: ProxyEvent, i: nat)
    requires Holds(content, events, i) && Apply(content, e).Ok? && !Concerns(e, i)
    ensures Holds(Apply(content, e).value, events + [e], i)
  {
    assert (events + [e])[..|events|] == events;
    var after := Apply(content, e).value;
    assert (i in after <==> i in content) && (i in content ==> after[i] == content[i]);
    assert DeltasAt(events + [e], i) == DeltasAt(events, i) by { assert DeltasAt(events, i) + "" == DeltasAt(events, i); }
  }

  lemma HoldsAtStart(content: Content, events: seq<ProxyEvent>, e: ProxyEvent)
    requires StartKind(e).Some?
    ensures Apply(content, e).Ok? && Holds(Apply(content, e).value, events + [e], e.index)
  {
    assert (events + [e])[..|events|] == events;
  }

  lemma HoldsAtText(content: Content, events: seq<ProxyEvent>, e: ProxyEvent)
    requires NeededKind(e).Some? && !e.ToolCallDelta? && Holds(content, events, e.index) && Apply(content, e).Ok?
    ensures Holds(Apply(content, e).value, events + [e], e.index)
  {
    hide CallAt;
    assert (events + [e])[..|events|] == events;
  }

  lemma HoldsAtCall(content: Content, events: seq<ProxyEvent>, e: ProxyEvent)
    requires (e.ToolCallDelta? || e.ToolCallEnd?) && Holds(content, events, e.index) && Apply(content, e).Ok?
    ensures Holds(Apply(content, e).value, events + [e], e.index)
  {
    assert (events + [e])[..|events|] == events;
  }

  lemma ApplyHolds(content: Content, events: seq<ProxyEvent>, e: ProxyEvent, i: nat)
    requires Holds(content, events, i) && Apply(content, e).Ok?
    ensures Holds(Apply(content, e).value, events + [e], i)
  {
    hide Holds, Apply;
    if !Concerns(e, i) {
      HoldsElsewhere(content, events, e, i);
    } else if StartKind(e).Some? {
      HoldsAtStart(content, events, e);
    } else if e.ToolCallDelta? || e.ToolCallEnd? {
      HoldsAtCall(content, events, e);
    } else {
      HoldsAtText(content, events, e);
    }
  }

  /** Exactly the well addressed streams are processed without an exception, and then
      each block is what its own events make it. */
  lemma {:induction false} ReplayHolds(events: seq<ProxyEvent>)
    ensures Replay(events).Ok? <==> WellAddressed(events)
    ensures Replay(events).Ok? ==> forall i: nat :: Holds(Replay(events).value.content, events, i)
  {
    hide Holds, Apply;
    if events == [] {
      forall i: nat ensures Holds(map[], [], i) { NothingHolds(i); }
    } else {
      var before, last := events[..|events| - 1], events[|events| - 1];
      ReplayHolds(before);
      if Replay(before).Ok? {
        var content := Replay(before).value.content;
        ApplyAccepts(content, before, last);
        assert before + [last] == events;
        if Apply(content, last).Ok? {
          forall i: nat ensures Holds(Apply(content, last).value, events, i) { ApplyHolds(content, before, last, i); }
        }
      }
    }
  }

  lemma NothingHolds(i: nat)
    ensures Holds(map[], [], i)
  {
  }

  lemma ApplyAccepts(content: Content, events: seq<ProxyEvent>, e: ProxyEvent)
    requires forall i: nat :: Holds(content, events, i)
    ensures Apply(content, e).Ok? <==> (NeededKind(e).Some? ==> KindAt(events, e.index) == NeededKind(e))
  {
    hide DeltasAt, CallAt, KindAt;
    if NeededKind(e).Some? { assert Holds(content, events, e.index); }
  }

  /** A text or a thought is the concatenation of its deltas. */
  lemma TextIsDeltas(events: seq<ProxyEvent>, i: nat)
    requires WellAddressed(events) && KindAt(events, i).Some? && KindAt(events, i).value != ToolCallKind
    ensures Replay(events).Ok? &&
            var content := Replay(events).value.content;
            i in content && if content[i].TextBlock? then content[i].text == DeltasAt(events, i)
                            else content[i].ThinkingBlock? && content[i].thinking == DeltasAt(events, i)
  {
    hide KindAt, DeltasAt, CallAt, Replay, WellAddressed;
    ReplayHolds(events);
    assert Holds(Replay(events).value.content, events, i);
  }

  /** A tool call's arguments are read from the concatenation of its deltas if and only if
      no delta came after an end, or all that was lost spells "undefined". */
  lemma ArgumentsAreDeltasIff(events: seq<ProxyEvent>, i: nat)
    requires WellAddressed(events) && KindAt(events, i) == Some(ToolCallKind)
    ensures Replay(events).Ok? &&
            var content := Replay(events).value.content;
            && i in content && content[i].ToolCallBlock? && content[i].argumentsText == CallText(CallAt(events, i))
            && (content[i].argumentsText == DeltasAt(events, i) <==> CallAt(events, i).lost in {None, Some(UNDEFINED)})
  {
    hide KindAt, DeltasAt, CallAt, Replay, WellAddressed;
    ReplayHolds(events);
    assert Holds(Replay(events).value.content, events, i);
    var call := CallAt(events, i);
    if call.lost.Some? && call.lost.value + call.kept == UNDEFINED + call.kept {
      SamePrefix(call.lost.value, UNDEFINED, call.kept);
    }
  }

  lemma SamePrefix(a: string, b: string, rest: string)
    requires a + rest == b + rest
    ensures a == b
  {
    assert |a| == |b| && a == (a + rest)[..|a|] && b == (b + rest)[..|b|];
  }

  /** No end before a delta, nothing lost. */
  lemma {:induction false} NothingLost(events: seq<ProxyEvent>, i: nat)
    requires forall k, m :: 0 <= k < m < |events| ==>
               !(events[k].ToolCallEnd? && events[m].ToolCallDelta? && events[k].index == events[m].index == i)
    ensures CallAt(events, i).lost == None
    ensures CallAt(events, i).ended ==> exists k :: 0 <= k < |events| && events[k].ToolCallEnd? && events[k].index == i
  {
    if events != [] {
      NothingLost(events[..|events| - 1], i);
    }
  }

  /** A call whose text is lost: its deltas spell an object, its arguments are read from
      something else. */
  lemma DeltaAfterEnd()
    ensures var events := [ToolCallStart(0, "id", "name"), ToolCallDelta(0, "{"), ToolCallEnd(0), ToolCallDelta(0, "}")];
            && WellAddressed(events) && DeltasAt(events, 0) == "{}" && Replay(events).Ok?
            && (var content := Replay(events).value.content;
                0 in content && content[0].ToolCallBlock? && content[0].argumentsText == "undefined}")
  {
    var events := [ToolCallStart(0, "id", "name"), ToolCallDelta(0, "{"), ToolCallEnd(0), ToolCallDelta(0, "}")];
    var three, two, one := events[..3], events[..2], events[..1];
    assert three[..2] == two && two[..1] == one && one[..0] == [];
    assert KindAt(one, 0) == KindAt(two, 0) == KindAt(three, 0) == KindAt(events, 0) == Some(ToolCallKind);
    assert WellAddressed(one) && WellAddressed(two) && WellAddressed(three);
    assert DeltasAt(one, 0) == "" && DeltasAt(two, 0) == "{" && DeltasAt(three, 0) == "{";
    assert CallAt(one, 0) == CallState(false, None, "") && CallAt(two, 0) == CallState(false, None, "{");
    assert CallAt(three, 0) == CallState(true, None, "{") && CallAt(events, 0) == CallState(false, Some("{"), "}");
    ArgumentsAreDeltasIff(events, 0);
  }

  // ----- the lines of the body -----

  /** What has been processed, and whether an exception ended it. */
  datatype Progress = Progress(message: Partial, events: seq<ProxyEvent>, failed: bool)

  /** What the JSON parser makes of a text. */
  datatype Parse = Parsed(event: ProxyEvent) | Malformed(message: string)

  const PREFIX := "data: "

  /** The parsed event of a data line, if the line is one. */
  function MeaningOf(line: string, parse: string -> Parse): Option<Parse> {
    if PREFIX <= line && Strip(line[6..]) != "" then Some(parse(Strip(line[6..]))) else None
  }

  /** An exception ends the message with the reason "error". */
  function Failed(o: Progress, message: string): Progress {
    Progress(Partial(o.message.content, "error", Some(message)), o.events, true)
  }

  function RunEvent(o: Progress, e: ProxyEvent): Progress {
    match ApplyTo(o.message, e)
    case Ok(message) => Progress(message, o.events + [e], false)
    case Throws(message) => Failed(o, message)
  }

  function RunLine(o: Progress, line: string, parse: string -> Parse): Progress {
    var meaning := MeaningOf(line, parse);
    if o.failed || meaning.None? then o
    else if meaning.value.Malformed? then Failed(o, meaning.value.message)
    else RunEvent(o, meaning.value.event)
  }

  function RunLines(lines: seq<string>, parse: string -> Parse): Progress {
    if lines == [] then Progress(FRESH, [], false)
    else RunLine(RunLines(lines[..|lines| - 1], parse), lines[|lines| - 1], parse)
  }

  /** The lines that have ended; what follows the last line feed waits. */
  function EndedLines(body: string): seq<string> {
    var lines := Split(body, '\n'); lines[..|lines| - 1]
  }

  function Unended(body: string): string {
    var lines := Split(body, '\n'); lines[|lines| - 1]
  }

  /** The pieces of a text with one more character in front. */
  function Cons(c: char, pieces: seq<string>): seq<string>
    requires |pieces| >= 1
  {
    if c == '\n' then [[]] + pieces else [[c] + pieces[0]] + pieces[1..]
  }

  lemma SplitCons(c: char, rest: string)
    ensures Split([c] + rest, '\n') == Cons(c, Split(rest, '\n'))
  {
    assert ([c] + rest)[1..] == rest;
  }

  lemma {:induction false} SplitConcat(a: string, b: string)
    ensures Split(a + b, '\n') == EndedLines(a) + Split(Unended(a) + b, '\n')
  {
    hide Split;
    if a == "" {
      NoLines();
      assert a + b == b && Unended(a) + b == b;
    } else {
      var c, tail := a[0], a[1..];
      assert a == [c] + tail && a + b == [c] + (tail + b);
      SplitConcat(tail, b);
      SplitCons(c, tail);
      SplitCons(c, tail + b);
      ConsConcat(c, Split(tail, '\n'), Split(Unended(tail) + b, '\n'));
      if |Split(tail, '\n')| == 1 && c != '\n' {
        SplitCons(c, Unended(tail) + b);
        assert [c] + (Unended(tail) + b) == Unended(a) + b;
      }
    }
  }

  /** A character before a list of pieces joins the first of them. */
  lemma ConsConcat(c: char, pieces: seq<string>, rest: seq<string>)
    requires |pieces| >= 1 && |rest| >= 1
    ensures var more := pieces[..|pieces| - 1] + rest; var all := Cons(c, pieces);
            if |pieces| > 1 || c == '\n' then
              Cons(c, more) == all[..|all| - 1] + rest && all[|all| - 1] == pieces[|pieces| - 1]
            else
              more == rest && all[..|all| - 1] == []
  {
    if c == '\n' {
      ConsFeed(pieces, rest);
    } else if |pieces| > 1 {
      ConsChar(c, pieces, rest);
    }
  }

  lemma ConsFeed(pieces: seq<string>, rest: seq<string>)
    requires |pieces| >= 1
    ensures [[]] + (pieces[..|pieces| - 1] + rest) == ([[]] + pieces)[..|pieces|] + rest
  {
    assert ([[]] + pieces)[..|pieces|] == [[]] + pieces[..|pieces| - 1];
  }

  lemma ConsChar(c: char, pieces: seq<string>, rest: seq<string>)
    requires |pieces| > 1
    ensures var more := pieces[..|pieces| - 1] + rest; var all := [[c] + pieces[0]] + pieces[1..];
            [[c] + more[0]] + more[1..] == all[..|all| - 1] + rest && all[|all| - 1] == pieces[|pieces| - 1]
  {
    var front := pieces[..|pieces| - 1];
    var head := [c] + pieces[0];
    assert (front + rest)[1..] == front[1..] + rest;
    assert ([head] + pieces[1..])[..|pieces| - 1] == [head] + front[1..];
  }

  /** Splitting the unended part again with more text gives the same lines. */
  lemma SplitAppend(a: string, b: string)
    ensures EndedLines(a + b) == EndedLines(a) + EndedLines(Unended(a) + b)
    ensures Unended(a + b) == Unended(Unended(a) + b)
  {
    SplitConcat(a, b);
  }

  lemma RunLinesSnoc(lines: seq<string>, line: string, parse: string -> Parse)
    ensures RunLines(lines + [line], parse) == RunLine(RunLines(lines, parse), line, parse)
  {
    assert (lines + [line])[..|lines|] == lines;
  }

  /** After an exception nothing more is processed. */
  lemma {:induction false} FailureIsFinal(lines: seq<string>, more: seq<string>, parse: string -> Parse)
    requires RunLines(lines, parse).failed
    ensures RunLines(lines + more, parse) == RunLines(lines, parse)
  {
    if more == [] {
      assert lines + more == lines;
    } else {
      var n := |more| - 1;
      FailureIsFinal(lines, more[..n], parse);
      assert lines + more == lines + more[..n] + [more[n]];
      RunLinesSnoc(lines + more[..n], more[n], parse);
    }
  }

  lemma {:induction false} EndedLinesGrow(chunks: seq<string>, k: nat)
    requires k <= |chunks|
    ensures EndedLines(Join(chunks[..k])) <= EndedLines(Join(chunks))
    decreases |chunks| - k
  {
    hide EndedLines;
    if k == |chunks| {
      assert chunks[..k] == chunks;
    } else {
      EndedLinesGrow(chunks, k + 1);
      assert chunks[..k + 1][..k] == chunks[..k];
      SplitAppend(Join(chunks[..k]), chunks[k]);
    }
  }

  /** The reader. However the body is cut into chunks, the same events are processed, the
      message ends the same, and an exception comes at the same line; text after the last
      line feed is ignored. */
  method StreamProxy(chunks: seq<string>, parse: string -> Parse)
    returns (partial: AssistantMessage, events: seq<ProxyEvent>, failed: bool)
    ensures fresh(partial)
    ensures Progress(partial.View(), events, failed) == RunLines(EndedLines(Join(chunks)), parse)
  {
    hide ApplyTo, MeaningOf, Split, EndedLines, Unended;
    partial := new AssistantMessage();
    events, failed := [], false;
    var buffer := "";
    var k := 0;
    NoLines();
    while k < |chunks|
      invariant 0 <= k <= |chunks| && fresh(partial) && !failed
      invariant Progress(partial.View(), events, false) == RunLines(EndedLines(Join(chunks[..k])), parse)
      invariant buffer == Unended(Join(chunks[..k]))
    {
      ghost var done := Join(chunks[..k]);
      SplitAppend(done, chunks[k]);
      assert chunks[..k + 1][..k] == chunks[..k];
      assert Join(chunks[..k + 1]) == done + chunks[k];
      var lines, rest := SplitLines(buffer + chunks[k]);
      events, failed := ProcessLines(lines, parse, partial, EndedLines(done), events);
      buffer := rest;
      if failed {
        EndedLinesGrow(chunks, k + 1);
        ghost var seen := EndedLines(Join(chunks[..k + 1]));
        FailureIsFinal(seen, EndedLines(Join(chunks))[|seen|..], parse);
        assert seen + EndedLines(Join(chunks))[|seen|..] == EndedLines(Join(chunks));
        return;
      }
      k := k + 1;
    }
    assert chunks[..k] == chunks;
  }

  lemma NoLines()
    ensures EndedLines("") == [] && Unended("") == "" && Join([]) == ""
  {
  }

  method SplitLines(buffer: string) returns (lines: seq<string>, rest: string)
    ensures lines == EndedLines(buffer) && rest == Unended(buffer)
  {
    lines := Split(buffer, '\n');
    rest := lines[|lines| - 1];
    lines := lines[..|lines| - 1];
  }

  /** The lines of one chunk, up to the first exception. */
  method ProcessLines(lines: seq<string>, parse: string -> Parse, partial: AssistantMessage, ghost before: seq<string>,
                      processed: seq<ProxyEvent>)
    returns (events: seq<ProxyEvent>, failed: bool)
    requires Progress(partial.View(), processed, false) == RunLines(before, parse)
    modifies partial
    ensures Progress(partial.View(), events, failed) == RunLines(before + lines, parse)
  {
    hide ApplyTo, Strip, RunLines;
    events, failed := processed, false;
    var i := 0;
    assert before + lines[..0] == before;
    while i < |lines|
      invariant 0 <= i <= |lines|
      invariant Progress(partial.View(), events, false) == RunLines(before + lines[..i], parse)
    {
      var line := lines[i];
      assert before + lines[..i + 1] == before + lines[..i] + [line];
      RunLinesSnoc(before + lines[..i], line, parse);
      if PREFIX <= line {
        var data := Strip(line[6..]);
        if data != "" {
          var thrown;
          events, thrown := ProcessData(parse(data), partial, events);
          if thrown.Some? {
            failed := true;
            NothingAfter(before, lines, i + 1, parse);
            partial.stopReason, partial.errorMessage := "error", thrown;
            return;
          }
        }
      }
      i := i + 1;
    }
    assert lines[..i] == lines;
  }

  lemma NothingAfter(before: seq<string>, lines: seq<string>, n: nat, parse: string -> Parse)
    requires n <= |lines|
    ensures RunLines(before + lines[..n], parse).failed ==>
              RunLines(before + lines, parse) == RunLines(before + lines[..n], parse)
  {
    if RunLines(before + lines[..n], parse).failed {
      FailureIsFinal(before + lines[..n], lines[n..], parse);
      assert before + lines[..n] + lines[n..] == before + lines;
    }
  }

  /** One data line. */
  method ProcessData(parsed: Parse, partial: AssistantMessage, processed: seq<ProxyEvent>)
    returns (events: seq<ProxyEvent>, thrown: Option<string>)
    modifies partial
    ensures if parsed.Malformed? then thrown == Some(parsed.message)
            else ApplyTo(old(partial.View()), parsed.event) == if thrown.Some? then Throws(thrown.value) else Ok(partial.View())
    ensures thrown.Some? ==> partial.View() == old(partial.View()) && events == processed
    ensures thrown.None? ==> parsed.Parsed? && events == processed + [parsed.event]
  {
    hide ApplyTo;
    events := processed;
    if parsed.Malformed? {
      return events, Some(parsed.message);
    }
    thrown := partial.ProcessProxyEvent(parsed.event);
    if thrown.None? {
      events := events + [parsed.event];
    }
  }

  // ----- the whole body -----

  /** The events of the body, read without processing them. */
  function EventsIn(lines: seq<string>, parse: string -> Parse): seq<ProxyEvent> {
    if lines == [] then []
    else
      var meaning := MeaningOf(lines[|lines| - 1], parse);
      EventsIn(lines[..|lines| - 1], parse) + if meaning.Some? && meaning.value.Parsed? then [meaning.value.event] else []
  }

  predicate AllParse(lines: seq<string>, parse: string -> Parse) {
    forall k :: 0 <= k < |lines| ==> MeaningOf(lines[k], parse).None? || MeaningOf(lines[k], parse).value.Parsed?
  }

  lemma ReplaySnoc(events: seq<ProxyEvent>, e: ProxyEvent)
    ensures Replay(events + [e]) == if Replay(events).Throws? then Replay(events) else ApplyTo(Replay(events).value, e)
    ensures WellAddressed(events + [e]) <==>
              WellAddressed(events) && (NeededKind(e).Some? ==> KindAt(events, e.index) == NeededKind(e))
  {
    hide Apply, KindAt;
    assert (events + [e])[..|events|] == events;
  }

  /** The next event is processed exactly when it is well addressed. */
  lemma NextEvent(message: Partial, events: seq<ProxyEvent>, e: ProxyEvent)
    requires Replay(events) == Ok(message)
    ensures WellAddressed(events) && Replay(events + [e]) == ApplyTo(message, e)
    ensures ApplyTo(message, e).Ok? <==> WellAddressed(events + [e])
  {
    hide Apply, Replay, WellAddressed, Holds, KindAt;
    ReplayHolds(events);
    ReplaySnoc(events, e);
    ApplyAccepts(message.content, events, e);
  }

  /** No exception exactly when every line parses and the events are well addressed; then
      all events are processed, and the message is the one they make. */
  lemma {:induction false} RunLinesAccepts(lines: seq<string>, parse: string -> Parse)
    ensures !RunLines(lines, parse).failed <==> AllParse(lines, parse) && WellAddressed(EventsIn(lines, parse))
    ensures !RunLines(lines, parse).failed ==>
              RunLines(lines, parse).events == EventsIn(lines, parse)
              && Replay(EventsIn(lines, parse)) == Ok(RunLines(lines, parse).message)
  {
    hide MeaningOf, ApplyTo, Replay, WellAddressed, AllParse;
    if lines == [] {
      NothingReplayed(parse);
    } else {
      var n := |lines| - 1;
      var front, meaning := lines[..n], MeaningOf(lines[n], parse);
      RunLinesAccepts(front, parse);
      AllParseSnoc(lines, parse);
      var o := RunLines(front, parse);
      if meaning.Some? && meaning.value.Parsed? {
        if !o.failed { NextEvent(o.message, o.events, meaning.value.event); }
        ReplaySnoc(EventsIn(front, parse), meaning.value.event);
      } else {
        assert EventsIn(lines, parse) == EventsIn(front, parse);
      }
    }
  }

  lemma AllParseSnoc(lines: seq<string>, parse: string -> Parse)
    requires lines != []
    ensures var n := |lines| - 1;
            AllParse(lines, parse) <==>
              AllParse(lines[..n], parse) && (MeaningOf(lines[n], parse).None? || MeaningOf(lines[n], parse).value.Parsed?)
  {
    hide MeaningOf;
  }

  lemma NothingReplayed(parse: string -> Parse)
    ensures Replay([]) == Ok(FRESH) && WellAddressed([]) && AllParse([], parse)
  {
  }

  /** Where a line throws, everything before it counts and nothing after it: the message
      has the content of the events so far, the reason "error" and the exception's text. */
  lemma {:induction false} FailureKeepsContent(lines: seq<string>, parse: string -> Parse)
    ensures var o := RunLines(lines, parse);
            && Replay(o.events).Ok? && Replay(o.events).value.content == o.message.content
            && (o.failed ==> o.message.stopReason == "error" && o.message.errorMessage.Some?)
            && (!o.failed ==> Replay(o.events).value == o.message)
  {
    hide MeaningOf, ApplyTo, Replay;
    if lines == [] {
      NothingReplayed(parse);
    } else {
      var n := |lines| - 1;
      FailureKeepsContent(lines[..n], parse);
      var o, meaning := RunLines(lines[..n], parse), MeaningOf(lines[n], parse);
      if !o.failed && meaning.Some? && meaning.value.Parsed? { ReplaySnoc(o.events, meaning.value.event); }
    }
  }

  // ----- labels, reasons and lines -----

  /** The id and name of the call last started at the index. */
  function CallNamed(events: seq<ProxyEvent>, i: nat): Option<(string, string)> {
    if events == [] then None
    else
      var e := events[|events| - 1];
      if e.ToolCallStart? && e.index == i then Some((e.id, e.name)) else CallNamed(events[..|events| - 1], i)
  }

  /** The signature that the last end at the index brought, if none has started since. */
  function SignedAt(events: seq<ProxyEvent>, i: nat): Option<string> {
    if events == [] then None
    else
      var e := events[|events| - 1];
      if (e.TextEnd? || e.ThinkingEnd?) && e.index == i then e.signature
      else if (e.TextStart? || e.ThinkingStart?) && e.index == i then None
      else SignedAt(events[..|events| - 1], i)
  }

  predicate Labelled(content: Content, events: seq<ProxyEvent>, i: nat) {
    i in content ==>
      match content[i]
      case TextBlock(_, signature) => signature == SignedAt(events, i)
      case ThinkingBlock(_, signature) => signature == SignedAt(events, i)
      case ToolCallBlock(id, name, _, _) => CallNamed(events, i) == Some((id, name))
  }

  /** Every call has the id and name it was started with, every text and thought the
      signature of its last end. */
  lemma {:induction false} BlocksAreLabelled(events: seq<ProxyEvent>, i: nat)
    requires Replay(events).Ok?
    ensures Labelled(Replay(events).value.content, events, i)
  {
    if events != [] {
      var n := |events| - 1;
      BlocksAreLabelled(events[..n], i);
      LabelledNext(Replay(events[..n]).value.content, events[..n], events[n], i);
      assert events == events[..n] + [events[n]];
    }
  }

  lemma LabelledNext(content: Content, before: seq<ProxyEvent>, e: ProxyEvent, i: nat)
    requires Labelled(content, before, i) && Apply(content, e).Ok?
    ensures Labelled(Apply(content, e).value, before + [e], i)
  {
    assert (before + [e])[..|before|] == before;
  }

  /** The reason of the last `done` or `error` event, `stop` before there is one. */
  function LastReason(events: seq<ProxyEvent>): string {
    if events == [] then "stop"
    else
      var e := events[|events| - 1];
      if e.Done? || e.ErrorEvent? then e.reason else LastReason(events[..|events| - 1])
  }

  function LastErrorMessage(events: seq<ProxyEvent>): Option<string> {
    if events == [] then None
    else
      var e := events[|events| - 1];
      if e.ErrorEvent? then e.errorMessage else LastErrorMessage(events[..|events| - 1])
  }

  /** The stop reason is that of the last event that has one, the error message that of the
      last `error` event. */
  lemma {:induction false} ReasonIsLast(events: seq<ProxyEvent>)
    requires Replay(events).Ok?
    ensures var m := Replay(events).value;
            m.stopReason == LastReason(events) && m.errorMessage == LastErrorMessage(events)
  {
    hide Apply;
    if events != [] { ReasonIsLast(events[..|events| - 1]); }
  }

  /** A line that begins with `data: ` and has text behind it is parsed, without the white
      space around it; no other line means anything. */
  lemma DataLines(data: string, line: string, parse: string -> Parse)
    ensures Strip(data) != "" ==> MeaningOf("data: " + data, parse) == Some(parse(Strip(data)))
    ensures Strip(data) == "" ==> MeaningOf("data: " + data, parse) == None
    ensures !("data: " <= line) ==> MeaningOf(line, parse) == None
  {
    assert ("data: " + data)[6..] == data;
  }
}
