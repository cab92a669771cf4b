# Verification of the interactive agent stack

A Dafny model of the parts of this repository whose correctness is hard to see by
reading one function, and proofs about them. `dafny verify dfyconfig.toml` checks all of
it.

- **The differential terminal renderer** (`Terminal`, `RenderPlan`, `Renderer`,
  `RenderEffects`, `RenderProof`, `RenderTheorems`). `Terminal` is a terminal with absolute
  rows, a window at their bottom and a clamped cursor, after ECMA-48; `Renderer.TUI` is the
  renderer with its fields and loops; `RenderPlan` is the specification it refines. The
  proof is a simulation between the renderer's shadow and the terminal.
- **The agent loop and the agent object** (`AgentProtocol`, `AgentState`,
  `AgentTranscript`, `AgentAnswers`, `ToolBatch`, `AgentRun`, `ToolLoop`, `AgentLoop`,
  `AgentEntry`). The loop works on its own copy of the transcript; the agent rebuilds its copy
  from events. The language model, the tools, the hooks, the order in which parallel calls
  progress and the messages that users queue are scripts that range over all values.
  `AgentProtocol` is the grammar of event traces.
- **The styled text engine** (`Ansi`, `Wrap`, `WrapLayout`, `WordWrap`, `WrapText`, `Segments`,
  `Slices`, `Overlay`): the style tracker with its printer and parser, word wrapping, column
  slices and overlays. A line is a sequence of escape codes and glyphs with a width.
- **The stream splitters**: the input buffer (`Text`, `StdinSequences`, `StdinGrammar`,
  `StdinBuffer`, `StdinProof`), the think tags (`ThinkTags`), streamed JSON (`JsonSplitter`),
  and the proxy's event stream (`Proxy`). For each, cutting the input into chunks cannot be
  observed, or it is said exactly when it can.
- **The cache of requirement models** (`SessionStore`, `ModelCache`, `ModelCacheProof`,
  `StructuredModel`): requests of one store access per step, interleaved in every way. A model
  carries where its body and its status come from.
- **Fuzzy search** (`Fuzzy`).

Each class follows its source in fields and loops and is proved against a specification
function of the same module or its neighbour; the theorems are about these functions.

## Where code and intention part

- An empty frame that only deletes rows leaves row 0 on the screen (tui.ts:1017-1021),
  and a cursor marker is searched in the bottom rows of the new frame (tui.ts:870), which can
  lie above a window that stayed scrolled after content shrank. `RenderAgreement` has both as
  exact conditions.
- A stream that delivers `start` twice leaves a stale partial message in the loop's context
  (agent-loop.ts:332-389), so context and transcript differ from then on; `SecondStart` is
  such a stream, and `Prompt` has the exact condition.
- An assistant message with a tool call may be prompted or queued (agent.ts:370-378), and its
  call is never run: the turn's answer follows it. `AnsweredIffInputsAnswered` has the exact
  condition, `PromptedCallStaysOpen` the input.
- A paste marker that completes a sequence begun before it is cut differently in one chunk and
  in two (stdin-buffer.ts:264-364). `ChunkInvariantIffClean` has the exact condition,
  `EscapeThenPaste` the input.
- A tool call delta after its `toolcall_end` is appended to the word "undefined"
  (proxy.ts:320-348). `ArgumentsAreDeltasIff` says exactly when the arguments are those
  of the deltas all the same.
- A slice that starts right of column 0 puts codes found at its first column before the codes
  it kept back from the left (utils.ts:989-1010), so its styles can be those of the line's
  left part; `SliceStylesIff` has the exact condition. `extractSegments` does not do this.
- A word of visible width 0 can make a wrapped line too wide: blanks put behind it are kept by
  the underline reset that follows them (utils.ts:656-671). `WrapTextWithAnsi` and
  `WrapSingleLine` have the exact condition.
- After content shrinks the window can stay scrolled past what a redraw would show
  (tui.ts:1017-1059); `SameAsRedraw` has the exact condition.
- A change of template empties the cache, and a request that began before it can then save an
  older model (session_store.py:450-465, 489-535); `StampsKeptIff` has the exact condition and
  `TemplateChangeAllowsOlder` a run. Nothing in the repository calls
  `update_session_applied_template` yet, so the program cannot make this run today; a deletion
  it can, but no request can save to a deleted session.

## Model

| member | source | states |
|---|---|---|
| `RenderTheorems.RenderAgreement` | pi-mono-0.73.0/packages/tui/src/tui.ts:888-1242 | One render of any frame by any of the five paths, from a renderer in step with its terminal: afterwards every terminal row, scrollback included, shows exactly the remembered frame, the cursor is on the remembered row and the terminal has scrolled `previousViewportTop` times, if and only if `Keeps` held before (lines that are printed fit, a cursor marker is not above the window, an empty frame does not merely delete rows unless the terminal has one row); and then, for a frame with lines, no cursor move was cut short by a screen edge; and a cursor marker puts the cursor on its column, or on the last one, and in agreement on its row |
| `RenderTheorems.EveryRunAgrees` | pi-mono-0.73.0/packages/tui/src/tui.ts:888-1242 | Over every run of draws, forced redraws and visible resizes the agreement is kept, whatever mixture of first, full, unchanged, deletion and diff paths is taken; unless an empty frame is drawn, every relative cursor move is exact; after the last draw the cursor stands where its marker was |
| `RenderTheorems.CursorPlaced` | pi-mono-0.73.0/packages/tui/src/tui.ts:1211-1242 | Whatever path a render takes, it ends with the cursor on the marker's column, or on the last one, and the renderer remembers the marker's row |
| `RenderTheorems.ClearOnShrinkFits` | pi-mono-0.73.0/packages/tui/src/tui.ts:976-984 | With `clearOnShrink` and no overlays the window never stays scrolled: after every run that ends in a draw it ends where the frame ends, as after a redraw |
| `RenderTheorems.TrackedKept` | pi-mono-0.73.0/packages/tui/src/tui.ts:918-942 | `maxLinesRendered` is never less than the lines on the terminal, and the window is never scrolled past it |
| `RenderTheorems.RenderPrints` | pi-mono-0.73.0/packages/tui/src/tui.ts:1100-1135 | A diff prints exactly the lines from the first to the last changed one, a full render the frame, the other paths nothing |
| `RenderTheorems.StopBelowContent` | pi-mono-0.73.0/packages/tui/src/tui.ts:450-470 | Stopping leaves the frame on the terminal and the cursor at the start of a row below it |
| `RenderTheorems.SameAsRedraw` | pi-mono-0.73.0/packages/tui/src/tui.ts:918-942 | The cheap render shows in the window what clearing and reprinting would show if and only if, before it, the plan is a full redraw or the window is scrolled no further than the new frame needs |
| `RenderTheorems.TopAfterRender` | pi-mono-0.73.0/packages/tui/src/tui.ts:1020-1059 | Exactly then the viewport top it leaves is `max(0, lines - height)` |
| `RenderTheorems.ShrunkFrameStaysScrolled` | pi-mono-0.73.0/packages/tui/src/tui.ts:1017-1059 | With a concrete run: after three lines on two rows, a frame of the first two shows only the second, where a redraw would show both |
| `RenderTheorems.GuardsNeverTaken` | pi-mono-0.73.0/packages/tui/src/tui.ts:1017-1095 | In agreement the diff never has to scroll ahead of its first changed row, and the deletion path never has more rows to clear than the window has |
| `RenderTheorems.EmptyFrameLeavesRow` | pi-mono-0.73.0/packages/tui/src/tui.ts:1017-1021 | Where agreement is lost, with a concrete run: an empty frame after one line leaves that line on a screen of two rows or more |
| `RenderTheorems.MarkerAboveWindow` | pi-mono-0.73.0/packages/tui/src/tui.ts:868-886 | Where agreement is lost, with a concrete run: a marker that lies above the scrolled window makes the renderer lose the cursor row |
| `RenderTheorems.WindowRow` | pi-mono-0.73.0/packages/tui/src/tui.ts:1196 | In agreement, row k of the window shows line `top + k` of the remembered frame, blank past its end, and the cursor row in the window is the remembered row less `top` |
| `RenderPlan.Extract` | pi-mono-0.73.0/packages/tui/src/tui.ts:868-886 | The marker is the first one of the bottommost marked line among the last `height`; exactly it is stripped, and without one the frame stays as it is |
| `RenderPlan.MarkedRow` | pi-mono-0.73.0/packages/tui/src/tui.ts:868-886 | The bottommost marked row of a range; none exactly if no row is marked |
| `Renderer.TUI.ExtractCursorPosition` | pi-mono-0.73.0/packages/tui/src/tui.ts:868-886 | The search from the bottom finds that row and strips one marker of it |
| `RenderPlan.FirstDiffering` | pi-mono-0.73.0/packages/tui/src/tui.ts:985-1006 | The first changed index is the least index at which the two frames differ |
| `RenderPlan.LastDiffering` | pi-mono-0.73.0/packages/tui/src/tui.ts:985-1006 | The last changed index is the greatest |
| `Terminal.Run` | pi-mono-0.73.0/packages/tui/src/tui.ts:888-1204 | No sequence of controls takes the cursor out of the window or changes the terminal's size |
| `RenderEffects.MoveEffect` | pi-mono-0.73.0/packages/tui/src/tui.ts:1211-1242 | A relative move ends on its target row, clamped to the window, and counts as exact just when nothing was clamped |
| `RenderEffects.RepaintEffect` | pi-mono-0.73.0/packages/tui/src/tui.ts:1100-1135 | Erasing and reprinting a range of lines that fit paints exactly those rows, scrolls only past the bottom and ends on the last |
| `RenderEffects.WipeEffect` | pi-mono-0.73.0/packages/tui/src/tui.ts:1040-1056 | The deletion loop blanks the rows below the cursor one by one; where it would leave the screen it stays on the last row, and only then is a move cut short |
| `RenderProof.FullEffect` | pi-mono-0.73.0/packages/tui/src/tui.ts:918-942 | A full render leaves exactly the frame in the rows if and only if every line fits |
| `RenderProof.DeletionEffect` | pi-mono-0.73.0/packages/tui/src/tui.ts:1017-1059 | The deletion path blanks exactly the rows that fell off the end and brings the cursor back |
| `RenderProof.DiffEffect` | pi-mono-0.73.0/packages/tui/src/tui.ts:1063-1204 | The diff path's bytes turn the image of the old frame into the image of the new one |
| `RenderProof.DiffRefuses` | pi-mono-0.73.0/packages/tui/src/tui.ts:1105-1130 | The diff gives up, and writes nothing, exactly when a line in the changed range is wider than the terminal |
| `RenderProof.UnchangedSync` | pi-mono-0.73.0/packages/tui/src/tui.ts:1006-1015 | A frame without a change moves at most the cursor |
| `Renderer.TUI.FindChanged` | pi-mono-0.73.0/packages/tui/src/tui.ts:985-1006 | The scan loop finds exactly the first and last differing index, appended lines included |
| `Renderer.TUI.ChoosePath` | pi-mono-0.73.0/packages/tui/src/tui.ts:960-1035 | The guards select the path that the specification chooses, in the code's order |
| `Renderer.TUI.DiffBuffer` | pi-mono-0.73.0/packages/tui/src/tui.ts:1063-1196 | The loops that fill the diff buffer emit exactly the specified commands, or report the first line that is too wide |
| `Renderer.TUI.FullRender` | pi-mono-0.73.0/packages/tui/src/tui.ts:918-942 | Fields and terminal after a full render are those of the specification |
| `Renderer.TUI.DeletionPath` | pi-mono-0.73.0/packages/tui/src/tui.ts:1017-1059 | The same for the deletion path |
| `Renderer.TUI.PositionHardwareCursor` | pi-mono-0.73.0/packages/tui/src/tui.ts:1211-1242 | The cursor ends on the marker's column, or on the last one, after a move by the difference of rows, and the marker's row is remembered; without a marker it stays |
| `Renderer.TUI.DoRender` | pi-mono-0.73.0/packages/tui/src/tui.ts:888-1204 | The imperative renderer refines the specification `Render` field by field and byte by byte; a stopped renderer does nothing; a crash happens only for a diff with a line that is too wide |
| `Renderer.TUI.Stop` | pi-mono-0.73.0/packages/tui/src/tui.ts:450-470 | Stopping moves the cursor below the content, keeps what is remembered, and no render follows |
| `AgentEntry.Prompt` | pi-mono-0.73.0/packages/agent/src/agent.ts:370-378 | Refused exactly while a run is active, and then nothing changes; otherwise the run ends with `Ran`: transcript = old transcript + new messages, loop context = transcript and trace in the grammar if and only if no answer stream delivered two `start` events, nothing queued lost, a remote agent that replays the trace ends in the same state; and `RunAnswers`: the new messages are the turns, each its inputs, its answer and its results, every input was prompted or queued by somebody, and every assistant message that did not stop on an error or abort is immediately followed by exactly its own tool results if and only if that holds within the inputs of each turn; so it does if no assistant message was prompted or queued; `EndsRightly`: a turn follows another exactly as long as it should; the error shown is that of the last turn that had one, and a finished agent streams nothing and has no pending call; the first turn begins with more than the prompts if and only if something was there to steer with |
| `AgentEntry.Continue` | pi-mono-0.73.0/packages/agent/src/agent.ts:381-408 | The same for `continue`, refused exactly if a run is active, there is nothing to continue, or the last message is an answer and both queues are empty; draining a queue for it loses nothing |
| `AgentEntry.RunWithLifecycle` | pi-mono-0.73.0/packages/agent/src/agent.ts:498-553 | A finished run leaves the agent idle in the state its event trace reduces to |
| `AgentLoop.RunAgentLoop` | pi-mono-0.73.0/packages/agent/src/agent-loop.ts:104-127 | For every script of answers, tools, hooks and queue calls: at each turn end and at the end the transcript that the agent rebuilt from events is the loop's own context exactly while no stream started twice, `newMessages` are the messages whose ends were emitted, and they are the turns so far: each turn's inputs, its answer, its results, the prompts first |
| `AgentLoop.RunLoop` | pi-mono-0.73.0/packages/agent/src/agent-loop.ts:200-291 | Both nested loops keep that agreement, deliver every polled message exactly once, take no input from elsewhere and end with one `agent_end`; a finished run ended with a turn that stopped it, or with one without results to go back, nothing to steer with and no follow-ups; every earlier turn stopped nothing, and had results to go back or was followed by input, by follow-ups only without such results |
| `AgentLoop.RunTurns` | pi-mono-0.73.0/packages/agent/src/agent-loop.ts:217-276 | The inner loop: turns follow one another while there are tool calls or pending messages; each is recorded with its inputs, and it is left early only by a stop, an error or a missing answer; when it is left otherwise, the last turn has no results to go back and the steering queue is empty |
| `AgentLoop.RunTurn` | pi-mono-0.73.0/packages/agent/src/agent-loop.ts:210-263 | One turn: the new messages are the pending ones, then the answer, then its results, in this order, and nothing is left in transit; without an answer just the pending ones; there are more tool calls if and only if the answer has calls and not all of their results ask to terminate |
| `AgentLoop.StreamAssistantResponse` | pi-mono-0.73.0/packages/agent/src/agent-loop.ts:297-390 | Streaming adds exactly the final answer to the agent; the loop's context gets the same unless the stream starts a second time, which leaves an extra partial message in it; the events are the partial messages as they come, and the answer |
| `AgentLoop.SecondStart` | pi-mono-0.73.0/packages/agent/src/agent-loop.ts:332-389 | Such a stream: `start`, `start`, `done` |
| `AgentLoop.AnswerTurn` | pi-mono-0.73.0/packages/agent/src/agent-loop.ts:225-263 | The new messages of a turn are the answer and, unless it stopped on an error, one result per tool call in call order; more tool calls follow unless all results ask to terminate |
| `AgentLoop.InjectPending` | pi-mono-0.73.0/packages/agent/src/agent-loop.ts:219-227 | Injected messages reach context, transcript and trace in order |
| `AgentLoop.PollSteering` | pi-mono-0.73.0/packages/agent/src/agent.ts:465-496 | Polled messages leave the queue, are accounted for as in transit, and none is lost; a skipped poll takes none; otherwise all or one, as the mode says, and none only if the queue is empty |
| `AgentLoop.UseQueues` | pi-mono-0.73.0/packages/agent/src/agent.ts:258-270 | Whatever callers queue meanwhile is put behind what is queued, in order |
| `ToolLoop.ExecuteSequential` | pi-mono-0.73.0/packages/agent/src/agent-loop.ts:418-469 | Result messages and `terminate` are those of the batch's specification, one result per call in call order; each call is reported from its start over its partial results to its outcome, before the next one starts |
| `ToolLoop.ExecuteParallel` | pi-mono-0.73.0/packages/agent/src/agent-loop.ts:471-531 | The same messages and the same `terminate` for every interleaving of the running calls, so parallel and sequential batches agree |
| `ToolLoop.Interleave` | pi-mono-0.73.0/packages/agent/src/agent-loop.ts:500-520 | Whatever order running calls progress in, each ends exactly once and its outcome is stored at its own index |
| `ToolLoop.StepCall` | pi-mono-0.73.0/packages/agent/src/agent-loop.ts:753-850 | One event of one running call, its next partial result or its outcome, keeps all others as they are |
| `ToolLoop.FinishCall` | pi-mono-0.73.0/packages/agent/src/agent-loop.ts:753-850 | A call reports its partial results, if its tool runs, and then its outcome; a refused one reports the outcome at once |
| `ToolBatch.RefusedCall` | pi-mono-0.73.0/packages/agent/src/agent-loop.ts:577-643 | A call that is unknown, invalid or blocked is answered with an error that says why, without details or `terminate`, whatever its tool and the after hook would do, and reports nothing else |
| `ToolBatch.AcceptedCall` | pi-mono-0.73.0/packages/agent/src/agent-loop.ts:753-788 | An accepted call without an overriding hook is an error if and only if its tool threw; a returned result is passed on as it is |
| `ToolBatch.OverriddenCall` | pi-mono-0.73.0/packages/agent/src/agent-loop.ts:790-833 | An overriding hook replaces exactly the fields it gives |
| `ToolBatch.HookThrowsCall` | pi-mono-0.73.0/packages/agent/src/agent-loop.ts:790-833 | A throwing after hook makes the result an error with its text |
| `ToolBatch.OneKeepsGoing` | pi-mono-0.73.0/packages/agent/src/agent-loop.ts:559-561 | A batch without calls, with a refused one or with one whose tool threw does not terminate; a single call that asks for it does |
| `ToolBatch.Outcome` | pi-mono-0.73.0/packages/agent/src/agent-loop.ts:577-643 | However a call is refused, blocked, fails or is overridden by a hook, its outcome belongs to that call |
| `ToolBatch.Answers` | pi-mono-0.73.0/packages/agent/src/agent-loop.ts:842-867 | One result message per call, with the call's id and name, in call order |
| `ToolBatch.FinishOne` | pi-mono-0.73.0/packages/agent/src/agent-loop.ts:500-520 | When a running call ends, exactly its own id leaves the unfinished calls, even among duplicates |
| `AgentProtocol.PrefixAccepted` | pi-mono-0.73.0/packages/agent/src/agent-loop.ts:118-125 | A trace that obeys the grammar does so at every moment before |
| `AgentProtocol.MonitorCollectsEnded` | pi-mono-0.73.0/packages/agent/src/agent-loop.ts:112-125 | What the grammar collects are exactly the `message_end` payloads |
| `AgentTranscript.CallsAreBracketed` | pi-mono-0.73.0/packages/agent/src/agent-loop.ts:430-463 | Every `tool_execution_update` lies between the start and the end of its id, and at a turn end each id was ended as often as it was started |
| `AgentTranscript.StartsMinusEnds` | pi-mono-0.73.0/packages/agent/src/agent-loop.ts:482-525 | At every moment the calls of an id that run are its starts less its ends |
| `AgentTranscript.TurnEndsAnswered` | pi-mono-0.73.0/packages/agent/src/agent-loop.ts:225-263 | At each turn end the transcript ends with the turn's answer, immediately followed by exactly its own tool results in call order, or by none if it stopped on an error or abort |
| `AgentTranscript.EndedOnlyGrows` | pi-mono-0.73.0/packages/agent/src/agent-loop.ts:225-263 | Messages that have ended stay where they are, so this holds of every turn of a run |
| `AgentLoop.AnsweredIffInputsAnswered` | pi-mono-0.73.0/packages/agent/src/agent-loop.ts:210-263 | Whatever the language model and the tools do: in the messages a run adds, every assistant message that did not stop on an error or abort is immediately followed by exactly its own tool results, in call order, if and only if that holds within each turn's inputs; and so in the whole transcript, if it held before the run |
| `AgentLoop.AnsweredAtTurnEnds` | pi-mono-0.73.0/packages/agent/src/agent-loop.ts:210-263 | The same at every turn end, for the inputs of the turns so far |
| `AgentLoop.NoAssistantGiven` | pi-mono-0.73.0/packages/agent/src/agent.ts:370-378 | So it holds of every run to which no assistant message was given, as a prompt or through a queue |
| `AgentAnswers.AnsweredIffInputsAre` | pi-mono-0.73.0/packages/agent/src/agent-loop.ts:210-263 | The same for any list of turns with complete batches, which is where it comes from: an answer always ends the inputs before it |
| `AgentAnswers.PromptedCallStaysOpen` | pi-mono-0.73.0/packages/agent/src/agent.ts:370-378 | Where it does not hold: a prompted assistant message with a tool call is followed by the turn's answer, whatever that is |
| `AgentState.TranscriptIsEnded` | pi-mono-0.73.0/packages/agent/src/agent.ts:562-609 | The rebuilt transcript is the old one and the payloads of `message_end`, nothing else |
| `AgentState.NonePendingAtTurnEnd` | pi-mono-0.73.0/packages/agent/src/agent.ts:562-609 | `pendingToolCalls` is empty at every turn end, even with duplicate call ids |
| `AgentState.PendingIffRunning` | pi-mono-0.73.0/packages/agent/src/agent.ts:562-609 | While no two calls of an id run at once, the id is pending if and only if its call runs |
| `AgentState.PendingIffLastStarted` | pi-mono-0.73.0/packages/agent/src/agent.ts:562-609 | In every case an id is pending if and only if the last event about it was a start |
| `AgentState.ErrorIsLast` | pi-mono-0.73.0/packages/agent/src/agent.ts:562-609 | The error shown is that of the last turn that ended with one |
| `AgentState.StreamsWhileOpen` | pi-mono-0.73.0/packages/agent/src/agent.ts:562-609 | A message is shown as streaming exactly while it is open |
| `AgentState.ReplayEqualsLocal` | pi-mono-0.73.0/packages/agent/src/agent.ts:319-365 | Replaying a trace into an idle agent succeeds if and only if it contains `agent_end`, and gives exactly the state of the local run |
| `AgentRun.Agent.ProcessEvents` | pi-mono-0.73.0/packages/agent/src/agent.ts:562-609 | Each event changes the fields exactly as the reduction says |
| `AgentRun.Agent.BeginRemoteRun` | pi-mono-0.73.0/packages/agent/src/agent.ts:319-365 | Throws exactly when a run is active and then changes nothing; otherwise it enters a run as a local one is entered |
| `AgentRun.Agent.ApplyRemoteEvent` | pi-mono-0.73.0/packages/agent/src/agent.ts:319-365 | Throws exactly when no remote run is active and then changes nothing |
| `AgentRun.Agent.EndRemoteRun` | pi-mono-0.73.0/packages/agent/src/agent.ts:319-365 | Throws exactly when no remote run is active or `agent_end` was not applied |
| `AgentRun.PendingMessageQueue.Drain` | pi-mono-0.73.0/packages/agent/src/agent.ts:114-145 | Takes a prefix, all or one message as the mode says; everything ever enqueued was drained or is queued, in order |
| `AgentRun.PendingMessageQueue.Enqueue` | pi-mono-0.73.0/packages/agent/src/agent.ts:114-145 | Adds at the end |
| `AgentRun.Agent.constructor` | pi-mono-0.73.0/packages/agent/src/agent.ts:195-214 | A new agent owes no message |
| `WrapText.WrapTextWithAnsi` | pi-mono-0.73.0/packages/tui/src/utils.ts:612-632 | For every text: the lines, each printed from the plain style, show exactly the non-blank glyphs of the text, in order and each in the style it has in the unwrapped text, across line feeds as well; and all lines are at most `width` wide if and only if no glyph is wider and no input line overflows; item by item, blanks included, the output is one group of lines per input line, an input line that fits being left as it is |
| `WrapText.WordsThatShowFit` | pi-mono-0.73.0/packages/tui/src/utils.ts:612-711 | So all lines fit if no glyph is wider than `width` and every word takes at least one column |
| `WrapText.SixBlanksOverflow` | pi-mono-0.73.0/packages/tui/src/utils.ts:656-671 | Where they do not fit, at five columns: underline, a zero-width space, six blanks, a word of eight letters |
| `WrapText.ZeroWidthOverflows` | pi-mono-0.73.0/packages/tui/src/utils.ts:656-671 | The same for every width, with more blanks than it and a longer word |
| `WrapText.WideGlyphNeverFits` | pi-mono-0.73.0/packages/tui/src/utils.ts:612-632 | Lines that show a text with a visible glyph wider than `width` do not all fit |
| `WordWrap.WrapSingleLine` | pi-mono-0.73.0/packages/tui/src/utils.ts:634-711 | One line, whatever its glyphs: it shows what the line shows; a line that fits is returned as it is; no line but the last leaves underline or a hyperlink open; every word that fits a line stands unbroken in one; if no glyph is wider than `width`, all lines fit if and only if the line does not overflow: no run of plain blanks wider than `width` comes on a line of visible width 0 with underline or a link on before a word that must be cut; a line that does not fit is cut into pieces: with codes only at the breaks, and the dropped blanks put back, the lines are the input line item by item; no line ends in a blank, and every break comes before a word or a glyph that would not fit, or behind blanks that did not |
| `WrapLayout.LayoutEnds` | pi-mono-0.73.0/packages/tui/src/utils.ts:673-699 | Ending a line before a token that does not fit drops nothing but the blanks at its end, and the token if it is blank |
| `WrapLayout.LayoutCuts` | pi-mono-0.73.0/packages/tui/src/utils.ts:656-671 | The lines of a cut word continue where the line before ended, item by item |
| `WrapLayout.CutEnds` | pi-mono-0.73.0/packages/tui/src/utils.ts:729-796 | In a cut word a line ends only before a glyph that does not fit |
| `WrapLayout.LayoutFinishes` | pi-mono-0.73.0/packages/tui/src/utils.ts:703-710 | Trimming the lines moves blanks from their ends to the gaps and nothing else |
| `WordWrap.EndedBeforeCut` | pi-mono-0.73.0/packages/tui/src/utils.ts:656-671 | The line ended before a cut word fits, once trimmed, if and only if it is not such an overflow |
| `WordWrap.FinishedFits` | pi-mono-0.73.0/packages/tui/src/utils.ts:703-710 | After the last token the trimmed lines fit if and only if no overflow happened on the way |
| `WordWrap.BreakLongWord` | pi-mono-0.73.0/packages/tui/src/utils.ts:729-796 | A long word is cut greedily: no line could take the first glyph of the next; glyphs, styles and the tracker's state are kept; its lines fit if none of its glyphs is wider than `width` |
| `WordWrap.CutWord` | pi-mono-0.73.0/packages/tui/src/utils.ts:656-671 | Ending a line for a long word keeps what is owed; the lines before keep their words |
| `WordWrap.PlaceToken` | pi-mono-0.73.0/packages/tui/src/utils.ts:673-701 | The two ways to place a token keep glyphs, styles and words, and the line is ended exactly if it is not empty and the token does not fit |
| `WordWrap.ContentEnds` | pi-mono-0.73.0/packages/tui/src/utils.ts:677-694 | A trimmed line with its end codes closes underline and links, and the next line starts in the same style |
| `WordWrap.TrimAllShows` | pi-mono-0.73.0/packages/tui/src/utils.ts:705-710 | Trimming line ends loses no visible glyph |
| `Wrap.SplitIntoTokensWithAnsi` | pi-mono-0.73.0/packages/tui/src/utils.ts:553-599 | For every line: tokens concatenate to it with codes where they were, and, if it has a glyph, words and runs of blanks take turns |
| `Wrap.UpdateTracker` | pi-mono-0.73.0/packages/tui/src/utils.ts:537-548 | A tracker that reads a text ends in the style of the text |
| `Wrap.ActiveCodesRestore` | pi-mono-0.73.0/packages/tui/src/utils.ts:483-501 | A line that begins with the active codes of a reachable style begins in this style |
| `Wrap.LineEndCloses` | pi-mono-0.73.0/packages/tui/src/utils.ts:525-534 | The line-end codes leave underline and hyperlink off and show nothing |
| `Ansi.PrinterParserRoundTrip` | pi-mono-0.73.0/packages/tui/src/utils.ts:332-501 | For every sequence of codes, `getActiveCodes()` of the tracker fed to a cleared tracker reproduces its state exactly, extended colours and hyperlinks included |
| `Ansi.StyleRoundTrip` | pi-mono-0.73.0/packages/tui/src/utils.ts:332-501 | The same for every style that satisfies the invariant of reachable ones |
| `Ansi.ProcessAllReachable` | pi-mono-0.73.0/packages/tui/src/utils.ts:332-470 | Every code keeps that invariant: colours are whole, a hyperlink is never empty |
| `Ansi.WholeConcat` | pi-mono-0.73.0/packages/tui/src/utils.ts:354-385 | Parameters that end where a colour ends are applied as if they stood alone, so 38 and 48 consume exactly their own parameters |
| `Ansi.NeverReset` | pi-mono-0.73.0/packages/tui/src/utils.ts:340-352 | Printed parameters are never read as one of the two spellings of a full reset |
| `Ansi.OnCodesSwitchOn` | pi-mono-0.73.0/packages/tui/src/utils.ts:391-416 | Codes 1 to 9 each switch on their own attribute and nothing else |
| `Ansi.OffCodesSwitchOff` | pi-mono-0.73.0/packages/tui/src/utils.ts:417-452 | Codes 21 to 29 each undo their own attribute (22 two), 39 and 49 the colours, 0 all but a hyperlink |
| `Ansi.BasicColors` | pi-mono-0.73.0/packages/tui/src/utils.ts:448-456 | Basic and bright colours set the foreground or the background and nothing else |
| `Ansi.ExtendedColors` | pi-mono-0.73.0/packages/tui/src/utils.ts:360-387 | Extended colours are kept with all their parameters, and what follows them is read on its own |
| `Ansi.LineEndResetCloses` | pi-mono-0.73.0/packages/tui/src/utils.ts:505-535 | The codes for a line's end switch off the underline and the hyperlink and nothing else |
| `Ansi.AnsiCodeTracker.ProcessCode` | pi-mono-0.73.0/packages/tui/src/utils.ts:332-470 | The parameter loop computes the specified style for every code |
| `Ansi.AnsiCodeTracker.GetActiveCodes` | pi-mono-0.73.0/packages/tui/src/utils.ts:483-501 | The printer emits the specified codes |
| `Ansi.AnsiCodeTracker.GetLineEndReset` | pi-mono-0.73.0/packages/tui/src/utils.ts:525-534 | So does the line-end reset |
| `Segments.ExtractSegments` | pi-mono-0.73.0/packages/tui/src/utils.ts:1030-1101 | One pass gives both parts: each shows exactly the glyphs whose column lies in its range, in their columns and styles, the second part with the style inherited from under the overlay; where the ranges overlap the first part has the glyph |
| `Slices.SliceWithWidth` | pi-mono-0.73.0/packages/tui/src/utils.ts:975-1020 | A column slice shows exactly the glyphs whose column lies in its range; it shows them in the line's styles if and only if nothing is picked or the codes at its edge and those from its left give the same style in either order |
| `Slices.SliceStylesIff` | pi-mono-0.73.0/packages/tui/src/utils.ts:989-1016 | The same of the specified text, for every line and range |
| `Slices.OneSidedSlice` | pi-mono-0.73.0/packages/tui/src/utils.ts:989-1016 | So styles are kept whenever there is no code to the left of the slice, or none at its edge; always from column 0 on |
| `Slices.SliceMixesStyles` | pi-mono-0.73.0/packages/tui/src/utils.ts:989-1016 | Where they are not: red, a glyph, green, a glyph; the slice of the second column shows its glyph red |
| `Slices.OnePassIsSlices` | pi-mono-0.73.0/packages/tui/src/utils.ts:975-1101 | One line cut both ways: the single pass gives the glyphs and the widths of two column slices, on the left with each glyph in the same style |
| `Slices.PartIsSlice` | pi-mono-0.73.0/packages/tui/src/utils.ts:975-1101 | Any text that shows what a column range picks has the glyphs and the width of the slice of that range |
| `Segments.PickedDone` | pi-mono-0.73.0/packages/tui/src/utils.ts:1090-1096 | The early exit misses no glyph |
| `Segments.AfterStarts` | pi-mono-0.73.0/packages/tui/src/utils.ts:1080-1088 | The first glyph after the overlay gets the style that is on there |
| `Overlay.CompositeLineAt` | pi-mono-0.73.0/packages/tui/src/tui.ts:810-858 | The result is never wider than the terminal; and if no glyph of the base line lies across an edge of the overlay it is exactly as wide and shows `Composite`, glyph for glyph: every uncovered base glyph in its own column and style, the overlay's glyphs in theirs, and in between only blanks of one column, in the style of the last base glyph before the overlay, of the overlay's end, and of the base line's end |
| `Overlay.PickedStarts` | pi-mono-0.73.0/packages/tui/src/tui.ts:810-858 | Without a glyph across its left edge a column range starts exactly there or is empty |
| `StdinProof.ChunkInvariantIffClean` | pi-mono-0.73.0/packages/tui/src/stdin-buffer.ts:264-375 | The emitted data and paste events are the same for every way of cutting the input into chunks if and only if every paste start marker stands at a sequence boundary |
| `StdinProof.CleanIsInvariant` | pi-mono-0.73.0/packages/tui/src/stdin-buffer.ts:264-364 | For such input every chunking gives the events of one chunk, from any state of the buffer |
| `StdinProof.ComposeChunks` | pi-mono-0.73.0/packages/tui/src/stdin-buffer.ts:264-364 | Processing two chunks is processing their concatenation |
| `StdinProof.Distinguish` | pi-mono-0.73.0/packages/tui/src/stdin-buffer.ts:264-364 | For any other input it names two chunks that give different events |
| `StdinProof.EscapeThenPaste` | pi-mono-0.73.0/packages/tui/src/stdin-buffer.ts:264-300 | Such an input: Escape and then a paste, whatever follows; cut before the last character of the marker it gives five key presses instead of a paste |
| `StdinProof.BetweenSequencesIsBoundary` | pi-mono-0.73.0/packages/tui/src/stdin-buffer.ts:264-300 | A marker right after complete sequences is at a boundary |
| `StdinSequences.ExtractConserves` | pi-mono-0.73.0/packages/tui/src/stdin-buffer.ts:192-232 | Sequences and remainder concatenate to the input: nothing is lost or reordered |
| `StdinSequences.ExtractAppend` | pi-mono-0.73.0/packages/tui/src/stdin-buffer.ts:192-232 | extract(a + b) = extract(a).sequences followed by extract(extract(a).remainder + b) |
| `StdinSequences.RemainderIsUnfinished` | pi-mono-0.73.0/packages/tui/src/stdin-buffer.ts:192-232 | What remains yields no sequence by itself |
| `StdinSequences.SequenceEndExtends` | pi-mono-0.73.0/packages/tui/src/stdin-buffer.ts:29-179 | More input never changes where a finished sequence ends |
| `StdinGrammar.EndsAsWellFormed` | pi-mono-0.73.0/packages/tui/src/stdin-buffer.ts:29-179 | A sequence ends exactly where the grammar says: ESC and a character, SS3, control sequences with one final byte, both kinds of mouse report, strings up to their terminator |
| `StdinGrammar.ExtractsWellFormed` | pi-mono-0.73.0/packages/tui/src/stdin-buffer.ts:192-232 | A well-formed sequence in front of anything is cut off as one |
| `StdinGrammar.PartYieldsNothing` | pi-mono-0.73.0/packages/tui/src/stdin-buffer.ts:192-232 | No proper prefix of an escape sequence yields anything |
| `StdinGrammar.SequencesAreWellFormed` | pi-mono-0.73.0/packages/tui/src/stdin-buffer.ts:192-232 | Nothing but well-formed sequences is cut off |
| `StdinGrammar.CutIntoSequences` | pi-mono-0.73.0/packages/tui/src/stdin-buffer.ts:192-232 | So a series of well-formed sequences is cut into exactly these |
| `StdinSequences.ExtractCompleteSequences` | pi-mono-0.73.0/packages/tui/src/stdin-buffer.ts:192-232 | The two nested index loops compute the specified extraction |
| `StdinBuffer.StdinBuffer.ProcessChunk` | pi-mono-0.73.0/packages/tui/src/stdin-buffer.ts:264-364 | The class emits the events, and reaches the state, of the specification, pastes and recursion included |
| `StdinBuffer.EmitsAllButEchoes` | pi-mono-0.73.0/packages/tui/src/stdin-buffer.ts:366-375 | Listeners receive every sequence, in order, except exactly a plain character right after the Kitty report that announced it; a second one is passed on |
| `StdinBuffer.KittyIff` | pi-mono-0.73.0/packages/tui/src/stdin-buffer.ts:184-190 | A printable key is recognised if and only if the sequence is a report of a code point of at least 32, with up to two alternates |
| `StdinBuffer.KeyA` | pi-mono-0.73.0/packages/tui/src/stdin-buffer.ts:184-190 | For example the key a with and without alternates, and not with a modifier |
| `StdinProof.PasteIsDelivered` | pi-mono-0.73.0/packages/tui/src/stdin-buffer.ts:264-364 | A bracketed paste is delivered as one, with exactly the text between its markers |
| `StdinBuffer.StdinBuffer.Flush` | pi-mono-0.73.0/packages/tui/src/stdin-buffer.ts:377-391 | Flushing returns the buffered text as one sequence and empties the buffer |
| `ThinkTags.StreamChat` | pm/app/services/llm_client.py:483-525 | The typed characters that are streamed, the final flush included, are those of one pass over the whole text, for every chunking |
| `ThinkTags.TagState.ExtractStreamParts` | pm/app/services/llm_client.py:483-525 | The loop with its 7 retained characters computes the specified parts and state |
| `ThinkTags.ExtractSound` | pm/app/services/llm_client.py:483-525 | Whatever text follows, emitting early and keeping the tail types every character as a one-shot parse does |
| `ThinkTags.PendingHasNoTag` | pm/app/services/llm_client.py:483-525 | The retained text never holds a whole tag |
| `ThinkTags.FlushSound` | pm/app/services/llm_client.py:153-157 | The final flush types the retained text right |
| `ThinkTags.OneThought` | pm/app/services/llm_client.py:483-525 | What stands between `<think>` and `</think>` is thinking, the rest is content, and the tags are neither |
| `ThinkTags.TypedUntilTag` | pm/app/services/llm_client.py:483-525 | In general: everything up to the next tag is of one type, what follows it of the other |
| `JsonSplitter.IterStreamObjects` | pm/app/services/llm_client.py:385-403 | The objects yielded and the leftover are those of one scan over the whole body, for every chunking and every parser |
| `JsonSplitter.ExtractJsonObjects` | pm/app/services/llm_client.py:405-458 | The scanner's loop computes the specified objects and rest, with strings, escapes and a balanced snippet that does not parse |
| `JsonSplitter.ScanAppend` | pm/app/services/llm_client.py:405-458 | Scanning a longer body is scanning the front, then what it left together with the rest |
| `JsonSplitter.ObjectLengthExtends` | pm/app/services/llm_client.py:405-458 | More input never changes where a finished object ends |
| `JsonSplitter.RestIsStuck` | pm/app/services/llm_client.py:385-403 | The final scan of the leftover yields nothing new |
| `JsonSplitter.ObjectIsCut` | pm/app/services/llm_client.py:405-458 | An object, by a grammar of braces, strings and escapes, is handed to the parser whole and by itself, whatever follows it |
| `JsonSplitter.SeriesIsRead` | pm/app/services/llm_client.py:385-458 | A list of dictionaries, with anything but an opening brace between them, comes out as these, in order, with nothing left over |
| `Proxy.StreamProxy` | pi-mono-0.73.0/packages/agent/src/proxy.ts:183-225 | For every chunking of the body the events processed, the whole message (content, stop reason, error message) and the line at which an exception ends it are those of the body's complete lines |
| `Proxy.RunLinesAccepts` | pi-mono-0.73.0/packages/agent/src/proxy.ts:183-207 | No exception if and only if every data line parses and its events are well addressed; then all events are processed, and the message is the one they make |
| `Proxy.FailureKeepsContent` | pi-mono-0.73.0/packages/agent/src/proxy.ts:214-225 | Where a line throws, the content is that of the events before it, the stop reason is `error`, and the exception's message is kept |
| `Proxy.ReplayHolds` | pi-mono-0.73.0/packages/agent/src/proxy.ts:238-348 | A stream is processed without an exception if and only if every delta and end finds a block of its kind; every block is then of the kind last started there and holds what its own events make it |
| `Proxy.TextIsDeltas` | pi-mono-0.73.0/packages/agent/src/proxy.ts:247-318 | Every text and every thought is the concatenation of its deltas since its start |
| `Proxy.BlocksAreLabelled` | pi-mono-0.73.0/packages/agent/src/proxy.ts:238-348 | Every call has the id and name it was started with, every text and thought the signature of its last end |
| `Proxy.ReasonIsLast` | pi-mono-0.73.0/packages/agent/src/proxy.ts:352-366 | Stop reason and error message are those of the last events that bring one |
| `Proxy.DataLines` | pi-mono-0.73.0/packages/agent/src/proxy.ts:195-207 | A line means something exactly if it begins with `data: ` and has text behind it |
| `Proxy.ArgumentsAreDeltasIff` | pi-mono-0.73.0/packages/agent/src/proxy.ts:320-348 | The text from which a tool call's arguments are read is the concatenation of its deltas if and only if no delta came after an end, or the deltas before the last end that a delta followed spell "undefined" |
| `Proxy.NothingLost` | pi-mono-0.73.0/packages/agent/src/proxy.ts:320-348 | If no delta at the index comes after an end there, nothing is lost |
| `Proxy.DeltaAfterEnd` | pi-mono-0.73.0/packages/agent/src/proxy.ts:320-348 | Where it is not: start, `{`, end, `}` gives `undefined}` |
| `Proxy.SplitAppend` | pi-mono-0.73.0/packages/agent/src/proxy.ts:191-193 | Splitting the unended part again with more text gives the same lines |
| `Proxy.FailureIsFinal` | pi-mono-0.73.0/packages/agent/src/proxy.ts:214-225 | After an exception nothing more is processed |
| `Proxy.AssistantMessage.ProcessProxyEvent` | pi-mono-0.73.0/packages/agent/src/proxy.ts:238-366 | Each event updates one block as specified, or throws and leaves the content alone |
| `ModelCacheProof.EntriesReflectTheirStamp` | pm/app/services/requirement_collector.py:2031-2072 | For every interleaving of appends, builds, reads, reports, template changes and deletion: an entry stamped n was built, body and status, from exactly the first n chat messages, or is the template's and n is 1 |
| `ModelCacheProof.ReadyReflectsChat` | pm/app/services/requirement_collector.py:1507-1554 | For every interleaving: a report is ready exactly if it shows the model of the whole chat its request saw, or there is no chat; a stale one shows the model of another part of the chat; every model that is served is that of the whole chat |
| `ModelCacheProof.StampsNeverDecrease` | pm/app/services/session_store.py:489-535 | Over every interleaving in which no change of template and no deletion meets an entry, no stamp decreases and no entry disappears |
| `ModelCacheProof.StampsKeptIff` | pm/app/services/session_store.py:489-535 | For every interleaving: each step keeps all entries and stamps if and only if no change of template and no deletion meets a cache with an entry |
| `ModelCacheProof.TemplateChangeAllowsOlder` | pm/app/services/session_store.py:450-465 | Where it does not, by a run from a new session: a request begins after one message, another builds the model of two, another template is applied, the first request ends, and its stamp 1 stands where stamp 2 stood; without the change its model is refused |
| `ModelCacheProof.UpToDateUntilNextChat` | pm/app/services/requirement_collector.py:2066-2072 | Saving the model of the present chat makes its language up to date, and it stays so until the next chat message, another template or deletion, whatever else happens |
| `ModelCacheProof.FreshIsServed` | pm/app/services/requirement_collector.py:2031-2072 | A request that finds its model up to date is served it, with the canonical status, without asking the language model and without writing |
| `ModelCacheProof.DocumentsAreInvisible` | pm/app/services/requirement_collector.py:2207-2208 | Every run with generated documents gives the same cache and the same answers as the run without them |
| `ModelCacheProof.RunSound` | pm/app/services/requirement_collector.py:2031-2174 | The invariant behind these holds after every run from a sound state |
| `ModelCacheProof.NextSound` | pm/app/services/requirement_collector.py:2103-2174 | One step of any request keeps the invariant, the candidate search and the canonical entry that reads create included; so does one appended message |
| `ModelCache.BestCachedStructuredRequirementModel` | pm/app/services/requirement_collector.py:2154-2174 | Undisturbed, the search returns the first candidate of the stamp that none beats, and nothing only if there is none |
| `ModelCache.BetterIsOrder` | pm/app/services/requirement_collector.py:2154-2174 | Better means more collected, then more confirmed, then fewer conflicts, and is a strict order |
| `ModelCache.FallbackIsAll` | pm/app/services/requirement_collector.py:2154-2174 | Every language is a candidate once, the preferred one first |
| `SessionStore.SQLiteSessionStore.SaveStructuredRequirementCacheEntry` | pm/app/services/session_store.py:489-535 | A newer entry is not overwritten; stamps of all entries never decrease |
| `SessionStore.SQLiteSessionStore.AppendMessage` | pm/app/services/session_store.py:334-380 | Appends one message; only chat messages extend the chat |
| `StructuredModel.NormalizeAgain` | pm/app/services/structured_requirement_model.py:207-273 | Normalising is idempotent for every JSON value: what the cache gives back is what was put in |
| `StructuredModel.OverlaidIsNormal` | pm/app/services/requirement_collector.py:2197-2205 | A model with the canonical status is normal, and all but its status is its own |
| `StructuredModel.FeatureFields` | pm/app/services/structured_requirement_model.py:276-296 | A feature with normal fields is read back field by field, whatever they hold |
| `StructuredModel.PageFields` | pm/app/services/structured_requirement_model.py:299-316 | So is a page |
| `StructuredModel.PlainSectionFields` | pm/app/services/structured_requirement_model.py:207-240 | So are the sections of two strings or two lists |
| `StructuredModel.OtherSectionFields` | pm/app/services/structured_requirement_model.py:240-273 | So are the sections of features and pages, and a status |
| `StructuredModel.SectionsAreKept` | pm/app/services/structured_requirement_model.py:207-273 | Each section of a model is made from the section of the same name |
| `StructuredModel.StatusItemAgain` | pm/app/services/structured_requirement_model.py:351-363 | Every status normalises to one of the five values, anything else to `missing`, and stays |
| `StructuredModel.EntriesAgain` | pm/app/services/structured_requirement_model.py:276-316 | Normalising a list of features or pages again changes nothing |
| `StructuredModel.EntriesAreKept` | pm/app/services/structured_requirement_model.py:276-316 | The list is the normal forms of the kept entries, in order |
| `StructuredModel.KeptAreObjectsWithContent` | pm/app/services/structured_requirement_model.py:276-316 | An entry is kept if and only if it is an object whose normal form has content |
| `StructuredModel.FeatureDetailsOf` | pm/app/services/structured_requirement_model.py:276-296 | The loop collects the specified features |
| `StructuredModel.PagesOf` | pm/app/services/structured_requirement_model.py:299-316 | The loop collects the specified pages |
| `Fuzzy.Match` | pi-mono-0.73.0/packages/tui/src/fuzzy.ts:12-93 | Matches if and only if the lower-cased query, or its swap of letters and digits where it has one, is a subsequence of the lower-cased text |
| `Fuzzy.GreedyIsComplete` | pi-mono-0.73.0/packages/tui/src/fuzzy.ts:16-60 | The greedy scan succeeds if and only if any increasing positions spell the query |
| `Fuzzy.MatchQuery` | pi-mono-0.73.0/packages/tui/src/fuzzy.ts:16-68 | The scan's score is the one defined on the leftmost positions: streaks, gaps, word starts, lateness, exact match |
| `Fuzzy.ExactIsBest` | pi-mono-0.73.0/packages/tui/src/fuzzy.ts:16-68 | The text that is the query scores better than any other text it matches |
| `Fuzzy.StreakBeatsGap` | pi-mono-0.73.0/packages/tui/src/fuzzy.ts:33-50 | Going on a streak scores better than a later match, word starts aside |
| `Fuzzy.NearerIsBetter` | pi-mono-0.73.0/packages/tui/src/fuzzy.ts:33-50 | A nearer match scores better than a later one, word starts aside |
| `Fuzzy.LeftmostIsLeast` | pi-mono-0.73.0/packages/tui/src/fuzzy.ts:16-60 | The scan's positions are the least ones that spell the query |
| `Fuzzy.SwapIsWorse` | pi-mono-0.73.0/packages/tui/src/fuzzy.ts:82-93 | A match by the swap alone scores five worse than the swapped query |
| `Fuzzy.OneCut` | pi-mono-0.73.0/packages/tui/src/fuzzy.ts:75-81 | A query has at most one cut into letters and digits, so the swap is well defined |
| `Fuzzy.Filter` | pi-mono-0.73.0/packages/tui/src/fuzzy.ts:99-137 | A blank query keeps all items; otherwise the result is exactly the items that every word hits, in non-decreasing total score, equal scores in their order |
| `Fuzzy.InsertIsStable` | pi-mono-0.73.0/packages/tui/src/fuzzy.ts:135-136 | Ranking loses nothing and keeps the order of equal scores |
| `Fuzzy.Words` | pi-mono-0.73.0/packages/tui/src/fuzzy.ts:104-107 | Words are non-empty and hold no white space, and there is none exactly for a blank query |

## Left out

- Terminal output itself, showing and hiding the cursor, timers and render scheduling, debug and crash logs, the height toggle of Termux, synchronised-output markers, and image lines, which take several rows.
- RenderTheorems.RenderAgreement: a full redraw with a line that is too wide is outside the agreement, because the model does not say how a terminal wraps it; the first render takes the screen to be blank with the cursor at home.
- RenderTheorems.EveryRunAgrees: a resize that is undone before the next render cannot be seen by the renderer and is not an allowed event.
- Real grapheme segmentation, width tables, tabs and white space other than the blank: a line is already cut into glyphs with widths, and escape codes are already recognised.
- Strings are sequences of characters, where the source cuts UTF-16 units (stdin-buffer.ts:224); a hyperlink is its URL, so its other parameters (`id=`), which the tracker drops when it reopens a link (utils.ts:334), are not in the model.
- WrapText.WrapTextWithAnsi: the equivalence for widths leaves out blanks wider than a line, that is a width of 0. The number of lines is not proved to be least.
- WordWrap.WrapSingleLine: words stay unbroken within one input line; the statement is about the tokens the code itself forms.
- Segments.ExtractSegments: columns are natural numbers.
- Truncation with an ellipsis and padding with a background: they add only easier members.
- Hooks, listeners or event sinks that throw, and the failure paths they lead to; repair of tool arguments by another model call; time stamps; a tool that reports progress after it has settled; clearing queues and resetting an agent during a run.
- AgentEntry.Prompt: the scripts may end while a run waits for an answer; then nothing is claimed of its end.
- StdinProof.ChunkInvariantIffClean: no timeout fires between chunks; the conversion of single high bytes is left out.
- ThinkTags.StreamChat: characters are typed one by one; how they are grouped into items depends on the chunks.
- JsonSplitter.IterStreamObjects: decoding bytes to text is left out; the JSON parser is any function.
- Proxy.StreamProxy: the request, abort signals and the parser of partial JSON arguments are left out; `argumentsText` is the text that is parsed.
- Proxy.ReplayHolds: array indices are natural numbers.
- ModelCacheProof.EntriesReflectTheirStamp: a new session is seeded before it can be reached; an empty chat's model counts as an answer of the language model. Requests are step functions, not methods, because their steps interleave.
- StructuredModel.NormalizeAgain: white space is the ASCII blank, tab and line ends, lower-casing is ASCII; `str` of lists and objects is any function.
- Fuzzy.Match: lower-casing is any function on strings; scores are real numbers, without rounding.
- Network clients, prompts, routes, SQLite, the web user interface, key tables and the small helper modules, whose properties are finite or easy.
