/** When the way input is cut into chunks cannot be observed. */
module StdinProof {
  import opened Basics
  import opened Text
  import opened StdinSequences
  import opened StdinBuffer

  /** A paste marker after `before` does not complete a sequence begun there: no
      sequence ends inside the marker's first five characters. */
  predicate Boundary(before: string) {
    Extract(before + PASTE_START[..5]).sequences == Extract(before).sequences
  }

  /** Every paste marker of `text` that opens a paste stands at such a boundary. */
  predicate Clean(inPaste: bool, text: string)
    decreases |text|
  {
    var marker := if inPaste then PASTE_END else PASTE_START;
    var i := IndexOf(text, marker);
    i == -1 || ((inPaste || Boundary(text[..i])) && Clean(!inPaste, text[i + 6..]))
  }

  /** A marker right after complete sequences is at a boundary. */
  lemma BetweenSequencesIsBoundary(before: string)
    requires Extract(before).remainder == ""
    ensures Boundary(before)
  {
    ExtractAppend(before, PASTE_START[..5]);
    assert "" + PASTE_START[..5] == PASTE_START[..5];
    MarkerUnfinished();
  }

  /** A control sequence that has only digits so far is unfinished. */
  lemma DigitsAreUnfinished(data: string)
    requires 1 <= |data| && data[0] == ESC && (|data| >= 2 ==> data[1] == '[')
    requires forall i :: 2 <= i < |data| ==> '0' <= data[i] <= '9'
    ensures IsCompleteSequence(data) == Incomplete
  {
    hide Split;
    assert data[..1] == [ESC];
    if |data| >= 3 {
      assert data[2..][0] == data[2] && data[2..][|data| - 3] == data[|data| - 1];
      assert data[2..][..1][0] != "M"[0];
    }
  }

  /** The first five characters of a paste marker are an unfinished sequence. */
  lemma MarkerUnfinished()
    ensures Extract(PASTE_START[..5]) == Extraction([], PASTE_START[..5])
  {
    hide IsCompleteSequence;
    var m := PASTE_START[..5];
    assert m == [ESC, '[', '2', '0', '0'];
    forall n | 1 <= n <= 5 ensures IsCompleteSequence(m[..n]) == Incomplete { DigitsAreUnfinished(m[..n]); }
    assert SequenceEnd(m, 1) == -1;
    ExtractFirst(m);
  }

  // ----- one chunk after another -----

  /** Where a marker lies relative to what cutting the text before it has consumed. */
  lemma MarkerCut(text: string, more: string, j: nat)
    requires IndexOf(text, PASTE_START) == -1 && IndexOf(text + more, PASTE_START) == j && Boundary((text + more)[..j])
    ensures var cut := Extract(text);
            var f := |Concat(cut.sequences)|;
            var rest := cut.remainder + more;
            && f <= j && IndexOf(rest, PASTE_START) == j - f
            && Extract((text + more)[..j]).sequences == cut.sequences + Extract(rest[..j - f]).sequences
            && rest[j - f + 6..] == (text + more)[j + 6..]
  {
    hide Extract, IndexOf, IndexFrom, Concat;
    var all := text + more;
    var cut := Extract(text);
    var f := |Concat(cut.sequences)|;
    var rest := cut.remainder + more;
    ExtractConserves(text);
    assert all[f..] == rest;
    assert all[..|text|] == text;
    FoundInPrefix(all, PASTE_START, |text|);
    var x, y := all[..j], all[..j + 5];
    MarkerFront(all, j);
    // what was cut from the text is a prefix of what is cut before the marker
    assert y == text + y[|text|..];
    ExtractAppend(text, y[|text|..]);
    var back := Extract(cut.remainder + y[|text|..]).sequences;
    assert Extract(x).sequences == cut.sequences + back;
    ConcatAppend(cut.sequences, back);
    ExtractConserves(x);
    FoundInSuffix(all, PASTE_START, f);
    if |text| <= j {
      CutBehindText(text, more, j, cut, f);
    } else {
      CutInsideText(text, more, j, cut, f);
    }
  }

  lemma CutBehindText(text: string, more: string, j: nat, cut: Extraction, f: nat)
    requires cut == Extract(text) && f + |cut.remainder| == |text|
    requires |text| <= j <= |text + more|
    ensures Extract((text + more)[..j]).sequences == cut.sequences + Extract((cut.remainder + more)[..j - f]).sequences
  {
    hide Extract;
    var x := (text + more)[..j];
    assert x == text + x[|text|..];
    ExtractAppend(text, x[|text|..]);
    assert cut.remainder + x[|text|..] == (cut.remainder + more)[..j - f];
  }

  /** The cut of the text comes no earlier than that of its front. */
  lemma CutInsideText(text: string, more: string, j: nat, cut: Extraction, f: nat)
    requires cut == Extract(text) && f + |cut.remainder| == |text|
    requires f <= j < |text| && |cut.sequences| <= |Extract((text + more)[..j]).sequences|
    ensures Extract((text + more)[..j]).sequences == cut.sequences + Extract((cut.remainder + more)[..j - f]).sequences
  {
    hide Extract;
    var x := (text + more)[..j];
    assert text == x + text[j..];
    ExtractAppend(x, text[j..]);
    NothingInFront(text, j - f);
    assert (cut.remainder + more)[..j - f] == cut.remainder[..j - f];
  }

  lemma MarkerFront(all: string, j: nat)
    requires OccursAt(all, PASTE_START, j)
    ensures all[..j + 5] == all[..j] + PASTE_START[..5]
  {
    var marker := all[j..j + 6];
    assert marker == PASTE_START;
    forall i | 0 <= i < 5 ensures all[j + i] == marker[i] {
    }
  }

  /** The front of what remains yields nothing either. */
  lemma NothingInFront(text: string, n: nat)
    requires n <= |Extract(text).remainder|
    ensures Extract(Extract(text).remainder[..n]).sequences == []
  {
    hide Extract;
    var r := Extract(text).remainder;
    RemainderIsUnfinished(text);
    assert r == r[..n] + r[n..];
    ExtractAppend(r[..n], r[n..]);
  }

  lemma {:induction false} ConcatAppend(a: seq<string>, b: seq<string>)
    ensures Concat(a + b) == Concat(a) + Concat(b)
  {
    if a == [] {
      assert a + b == b;
    } else {
      assert (a + b)[1..] == a[1..] + b;
      ConcatAppend(a[1..], b);
    }
  }

  /** What follows a paste is processed afresh. */
  function AfterPaste(remaining: string): Step {
    if remaining == "" then Step(EMPTY, []) else OutsidePaste(remaining, None)
  }

  lemma InPasteStep(text: string, pending: Option<nat>)
    ensures var e := IndexOf(text, PASTE_END);
            InPaste(text, pending) ==
              if e == -1 then Step(State("", true, text, pending), [])
              else Prepend([Paste(text[..e])], AfterPaste(text[e + 6..]))
  {
  }

  lemma PasteGoesOn(text: string, pending: Option<nat>, more: string)
    requires more != ""
    ensures Process(State("", true, text, pending), more) == InPaste(text + more, pending)
  {
    assert text + ("" + more) == text + more;
  }

  lemma AfterPasteMore(remaining: string, more: string)
    requires more != ""
    requires remaining != "" ==>
      var first := OutsidePaste(remaining, None);
      OutsidePaste(remaining + more, None) == Prepend(first.events, Process(first.state, more))
    ensures var first := AfterPaste(remaining);
            AfterPaste(remaining + more) == Prepend(first.events, Process(first.state, more))
  {
    hide OutsidePaste, InPaste;
    if remaining == "" {
      assert remaining + more == more == "" + more;
    }
  }

  /** Two chunks, or both at once: inside a paste. */
  lemma {:induction false} ComposeInPaste(text: string, pending: Option<nat>, more: string)
    requires more != "" && Clean(true, text + more)
    ensures var first := InPaste(text, pending);
            InPaste(text + more, pending) == Prepend(first.events, Process(first.state, more))
    decreases |text|, 0
  {
    hide IndexOf, IndexFrom, OutsidePaste, Boundary, InPaste, Process, AfterPaste;
    var e := IndexOf(text, PASTE_END);
    assert (text + more)[..|text|] == text;
    FoundInPrefix(text + more, PASTE_END, |text|);
    InPasteStep(text, pending);
    InPasteStep(text + more, pending);
    if e == -1 {
      PasteGoesOn(text, pending, more);
    } else {
      var remaining := text[e + 6..];
      assert (text + more)[e + 6..] == remaining + more;
      assert (text + more)[..e] == text[..e];
      if remaining != "" {
        ComposeOutsidePaste(remaining, None, more);
      }
      AfterPasteMore(remaining, more);
    }
  }

  /** The same outside a paste. */
  lemma {:induction false} ComposeOutsidePaste(text: string, pending: Option<nat>, more: string)
    requires more != "" && Clean(false, text + more)
    ensures var first := OutsidePaste(text, pending);
            OutsidePaste(text + more, pending) == Prepend(first.events, Process(first.state, more))
    decreases |text|, 1
  {
    hide IndexOf, IndexFrom, InPaste, Boundary, Extract, EmitAll, Concat;
    var i := IndexOf(text, PASTE_START);
    assert (text + more)[..|text|] == text;
    FoundInPrefix(text + more, PASTE_START, |text|);
    if i != -1 {
      var rest := text[i + 6..];
      assert (text + more)[i + 6..] == rest + more && (text + more)[..i] == text[..i];
      ComposeInPaste(rest, None, more);
    } else if IndexOf(text + more, PASTE_START) == -1 {
      ComposeUnmarked(text, pending, more);
    } else {
      ComposeMarkedLater(text, pending, more);
    }
  }

  lemma OutsidePasteStep(text: string, pending: Option<nat>, more: string)
    requires more != "" && IndexOf(text, PASTE_START) == -1
    ensures var cut := Extract(text); var e := EmitAll(pending, cut.sequences); var first := OutsidePaste(text, pending);
            first.events == e.events && Process(first.state, more) == OutsidePaste(cut.remainder + more, e.pending)
  {
    hide IndexOf, Extract, EmitAll;
  }

  lemma ComposeUnmarked(text: string, pending: Option<nat>, more: string)
    requires more != "" && IndexOf(text, PASTE_START) == -1 && IndexOf(text + more, PASTE_START) == -1
    ensures var first := OutsidePaste(text, pending);
            OutsidePaste(text + more, pending) == Prepend(first.events, Process(first.state, more))
  {
    hide IndexOf, IndexFrom, InPaste, Process, Extract, EmitAll, Concat;
    var cut := Extract(text);
    OutsidePasteStep(text, pending, more);
    ExtractAppend(text, more);
    ExtractConserves(text);
    var f := |Concat(cut.sequences)|;
    assert (text + more)[f..] == cut.remainder + more;
    FoundInSuffix(text + more, PASTE_START, f);
    EmitAllConcat(pending, cut.sequences, Extract(cut.remainder + more).sequences);
  }

  lemma ComposeMarkedLater(text: string, pending: Option<nat>, more: string)
    requires more != "" && IndexOf(text, PASTE_START) == -1 && IndexOf(text + more, PASTE_START) != -1
    requires Boundary((text + more)[..IndexOf(text + more, PASTE_START)])
    ensures var first := OutsidePaste(text, pending);
            OutsidePaste(text + more, pending) == Prepend(first.events, Process(first.state, more))
  {
    hide IndexOf, IndexFrom, InPaste, Process, Boundary, Extract, EmitAll, Concat;
    var cut := Extract(text);
    var j := IndexOf(text + more, PASTE_START);
    OutsidePasteStep(text, pending, more);
    MarkerCut(text, more, j);
    var rest := cut.remainder + more;
    var f := |Concat(cut.sequences)|;
    EmitAllConcat(pending, cut.sequences, Extract(rest[..j - f]).sequences);
  }

  /** The text a state is in the middle of. */
  function Held(st: State): string {
    if st.pasteMode then st.pasteBuffer else st.buffer
  }

  lemma ComposeChunks(st: State, a: string, b: string)
    requires Tidy(st) && a != "" && b != "" && Clean(st.pasteMode, Held(st) + (a + b))
    ensures Process(st, a + b) == Prepend(Process(st, a).events, Process(Process(st, a).state, b))
  {
    hide Clean, InPaste, OutsidePaste;
    if st.pasteMode {
      assert st.pasteBuffer + (st.buffer + (a + b)) == (st.pasteBuffer + (st.buffer + a)) + b;
      assert Held(st) + (a + b) == (st.pasteBuffer + (st.buffer + a)) + b;
      ComposeInPaste(st.pasteBuffer + (st.buffer + a), st.pendingKitty, b);
    } else {
      assert st.buffer + (a + b) == (st.buffer + a) + b;
      ComposeOutsidePaste(st.buffer + a, st.pendingKitty, b);
    }
  }

  lemma {:induction false} CleanPrefix(inPaste: bool, text: string, n: nat)
    requires n <= |text| && Clean(inPaste, text)
    ensures Clean(inPaste, text[..n])
    decreases |text|
  {
    hide IndexOf, IndexFrom, Boundary;
    var marker := if inPaste then PASTE_END else PASTE_START;
    FoundInPrefix(text, marker, n);
    var i := IndexOf(text[..n], marker);
    if i != -1 {
      assert text[..n][..i] == text[..i];
      assert text[..n][i + 6..] == text[i + 6..][..n - i - 6];
      CleanPrefix(!inPaste, text[i + 6..], n - i - 6);
    }
  }

  // ----- any number of chunks -----

  function Feed(st: State, chunks: seq<string>): Step
    requires Tidy(st)
    decreases |chunks|
  {
    if chunks == [] then Step(st, [])
    else
      var first := Process(st, chunks[0]);
      Prepend(first.events, Feed(first.state, chunks[1..]))
  }

  predicate Chunks(chunks: seq<string>, text: string) {
    chunks != [] && Concat(chunks) == text && forall k :: 0 <= k < |chunks| ==> chunks[k] != ""
  }

  /** However clean input is cut, the events and the final state are those of one chunk. */
  lemma {:induction false} CleanIsInvariant(st: State, chunks: seq<string>, text: string)
    requires Tidy(st) && Chunks(chunks, text) && Clean(st.pasteMode, Held(st) + text)
    ensures Feed(st, chunks) == Process(st, text)
    decreases |chunks|
  {
    hide Process, Clean;
    var a := chunks[0];
    if |chunks| == 1 {
      assert chunks[1..] == [];
      assert Concat(chunks) == a + "" == a;
      assert Process(st, a).events + [] == Process(st, a).events;
    } else {
      var b, rest := chunks[1], chunks[2..];
      assert chunks[1..][1..] == rest && chunks[1..][0] == b;
      var merged := [a + b] + rest;
      assert merged[1..] == rest;
      assert Concat(chunks[1..]) == b + Concat(rest);
      assert text == (a + b) + Concat(rest);
      assert Concat(merged) == (a + b) + Concat(rest);
      assert (Held(st) + text)[..|Held(st) + (a + b)|] == Held(st) + (a + b);
      CleanPrefix(st.pasteMode, Held(st) + text, |Held(st) + (a + b)|);
      ComposeChunks(st, a, b);
      CleanIsInvariant(st, merged, text);
      MergeFeed(st, a, b, rest);
    }
  }

  lemma MergeFeed(st: State, a: string, b: string, rest: seq<string>)
    requires Tidy(st) && Process(st, a + b) == Prepend(Process(st, a).events, Process(Process(st, a).state, b))
    ensures Feed(st, [a, b] + rest) == Feed(st, [a + b] + rest)
  {
    hide Process;
    assert ([a, b] + rest)[1..] == [b] + rest && ([b] + rest)[1..] == rest && ([a + b] + rest)[1..] == rest;
  }

  // ----- where cutting can be observed -----

  /** A marker that completes a sequence is one that cuts inside an unfinished escape,
      and what it completes is longer than one character. */
  lemma CompletedByMarker(before: string)
    requires !Boundary(before)
    ensures var back := Extract(Extract(before).remainder + PASTE_START[..5]).sequences;
            && Extract(before + PASTE_START[..5]).sequences == Extract(before).sequences + back
            && back != [] && |back[0]| >= 2
  {
    hide Extract, IsCompleteSequence, FirstLength;
    var r := Extract(before).remainder;
    var m := PASTE_START[..5];
    ExtractAppend(before, m);
    RemainderIsUnfinished(before);
    if r == "" {
      assert r + m == m;
      MarkerUnfinished();
    } else {
      ExtractFirst(r + m);
      EscapeIsLong(r + m);
    }
  }

  lemma EscapeIsLong(text: string)
    requires text != [] && text[0] == ESC
    ensures FirstLength(text) == -1 || FirstLength(text) >= 2
  {
    assert text[..1] == [ESC];
    assert IsCompleteSequence([ESC]) == Incomplete;
  }

  lemma AfterPasteFresh(rest: string)
    requires rest != ""
    ensures AfterPaste(rest) == Process(EMPTY, rest)
  {
    assert "" + rest == rest;
  }

  /** A bracketed paste is delivered as one, with exactly the text between its markers, and
      the buffer is as new behind it. */
  lemma PasteIsDelivered(content: string, pending: Option<nat>)
    requires ESC !in content
    ensures Process(State("", false, "", pending), [ESC] + "[200~" + content + ([ESC] + "[201~"))
            == Step(EMPTY, [Paste(content)])
  {
    hide Extract, EmitAll, IndexOf, IndexFrom, InPaste, OutsidePaste;
    var text := [ESC] + "[200~" + content + ([ESC] + "[201~");
    var body := content + PASTE_END;
    assert text == PASTE_START + body && "" + text == text;
    PasteOpens(body, pending);
    NoEscapeNoEnd(content);
    FirstIs(body, PASTE_END, |content|);
    assert body[..|content|] == content && body[|content| + 6..] == "";
    InPasteStep(body, None);
    assert [Paste(content)] + [] == [Paste(content)];
  }

  lemma PasteOpens(body: string, pending: Option<nat>)
    ensures OutsidePaste(PASTE_START + body, pending) == InPaste(body, None)
  {
    hide Extract, EmitAll, IndexOf, IndexFrom, InPaste;
    var text := PASTE_START + body;
    assert text[0..6] == PASTE_START;
    assert OccursAt(text, PASTE_START, 0);
    FirstIs(text, PASTE_START, 0);
    assert text[6..] == body && text[..0] == "";
    ExtractNothing();
    EmitAllNone(pending);
  }

  lemma NoEscapeNoEnd(content: string)
    requires ESC !in content
    ensures var body := content + PASTE_END;
            OccursAt(body, PASTE_END, |content|) && forall k: nat :: k < |content| ==> !OccursAt(body, PASTE_END, k)
  {
    var body := content + PASTE_END;
    assert body[|content|..|content| + 6] == PASTE_END;
    forall k: nat | k < |content| ensures !OccursAt(body, PASTE_END, k) {
      assert body[k] == content[k] != ESC;
      assert k + 6 <= |body| ==> body[k..k + 6][0] == body[k];
    }
  }

  /** A text whose first paste opens and closes inside its first `n` characters. */
  lemma HeadStep(text: string, pending: Option<nat>, n: nat)
    requires n <= |text|
    requires var i := IndexOf(text, PASTE_START);
             i != -1 && var e := IndexOf(text[i + 6..], PASTE_END); e != -1 && i + 6 + e + 6 < n
    ensures var i := IndexOf(text, PASTE_START);
            var e := IndexOf(text[i + 6..], PASTE_END);
            var head := i + 6 + e + 6;
            OutsidePaste(text[..n], pending)
            == Prepend(EmitAll(pending, Extract(text[..i]).sequences).events + [Paste(text[i + 6..][..e])],
                       Process(EMPTY, text[head..n]))
  {
    hide IndexOf, IndexFrom, Extract, EmitAll, InPaste, Process, AfterPaste;
    var i := IndexOf(text, PASTE_START);
    var body := text[i + 6..];
    var e := IndexOf(body, PASTE_END);
    FoundInPrefix(text, PASTE_START, n);
    FoundInPrefix(body, PASTE_END, n - i - 6);
    assert text[..n][i + 6..] == body[..n - i - 6];
    assert text[..n][..i] == text[..i];
    assert body[..n - i - 6][..e] == body[..e];
    assert body[..n - i - 6][e + 6..] == text[i + 6 + e + 6..n];
    AfterPasteFresh(text[i + 6 + e + 6..n]);
    InPasteStep(body[..n - i - 6], None);
  }

  lemma PasteFirst(text: string)
    ensures InPaste(text, None).events == [] || InPaste(text, None).events[0].Paste?
  {
  }

  /** Two chunks, one after the other. */
  function Twice(st: State, a: string, b: string): Step
    requires Tidy(st)
  {
    var first := Process(st, a);
    Prepend(first.events, Process(first.state, b))
  }

  /** The cut inside the first marker that completes a sequence. */
  lemma CutInMarker(text: string, pending: Option<nat>)
    requires var i := IndexOf(text, PASTE_START); i != -1 && !Boundary(text[..i])
    ensures var i := IndexOf(text, PASTE_START);
            var st := State("", false, "", pending);
            && i + 5 < |text|
            && Twice(st, text[..i + 5], text[i + 5..]).events != Process(st, text).events
  {
    hide IndexOf, IndexFrom, Extract, EmitAll, InPaste, KittyPrintable, Boundary;
    var i := IndexOf(text, PASTE_START);
    var st := State("", false, "", pending);
    var before, a := text[..i], text[..i + 5];
    assert text[i..i + 6] == PASTE_START && text[i..i + 6][..5] == PASTE_START[..5];
    assert a == before + PASTE_START[..5];
    FoundInPrefix(text, PASTE_START, i + 5);
    assert "" + text == text && "" + a == a;
    CompletedByMarker(before);
    var q := Extract(before).sequences;
    var back := Extract(Extract(before).remainder + PASTE_START[..5]).sequences;
    EmitAllConcat(pending, q, back);
    var shown := EmitAll(pending, q);
    EmitAllNonEmpty(shown.pending, back);
    PasteFirst(text[i + 6..]);
    var once := Process(st, text).events;
    var first := Process(st, a).events;
    assert once == shown.events + InPaste(text[i + 6..], None).events;
    assert first == shown.events + EmitAll(shown.pending, back).events;
    var d := |shown.events|;
    assert first[d].Data?;
    assert |once| == d || once[d].Paste?;
  }

  /** The Escape key and a paste in one chunk: whatever follows, a cut before the last
      character of the marker turns the paste into key presses. */
  lemma EscapeThenPaste(rest: string, pending: Option<nat>)
    ensures var text := [ESC] + PASTE_START + rest;
            var st := State("", false, "", pending);
            && !Clean(false, text)
            && Extract(text[..6]) == Extraction([[ESC, ESC], "[", "2", "0", "0"], "")
            && Twice(st, text[..6], text[6..]).events != Process(st, text).events
  {
    hide Twice, Process, Extract, Boundary, IndexFrom;
    var text := [ESC] + PASTE_START + rest;
    assert text[1..7] == PASTE_START;
    assert OccursAt(text, PASTE_START, 1);
    assert text[0..6][1] != PASTE_START[1];
    assert !OccursAt(text, PASTE_START, 0);
    FirstIs(text, PASTE_START, 1);
    assert text[..1] == [ESC];
    assert text[..6] == [ESC] + PASTE_START[..5] == [ESC, ESC, '[', '2', '0', '0'];
    EscapeIsCompleted();
    CutInMarker(text, pending);
  }

  /** A marker completes a waiting Escape. */
  lemma EscapeIsCompleted()
    ensures Extract([ESC] + PASTE_START[..5]) == Extraction([[ESC, ESC], "[", "2", "0", "0"], "")
    ensures !Boundary([ESC])
  {
    hide Extract, SequenceEnd;
    var text := [ESC] + PASTE_START[..5];
    assert text == [ESC, ESC, '[', '2', '0', '0'];
    EscapeAlone();
    EscapeTwice(text);
    ExtractFirst(text);
    assert text[2..] == "[200";
    PlainKeys();
  }

  lemma EscapeAlone()
    ensures Extract([ESC]) == Extraction([], [ESC])
  {
    assert [ESC][..1] == [ESC];
  }

  lemma EscapeTwice(text: string)
    requires |text| >= 2 && text[0] == text[1] == ESC
    ensures SequenceEnd(text, 1) == 2 && text[..2] == [ESC, ESC]
  {
    assert text[..1] == [ESC];
    assert text[..2][..1] == [ESC];
  }

  lemma PlainKeys()
    ensures Extract("[200") == Extraction(["[", "2", "0", "0"], "")
  {
    hide Extract;
    ExtractNothing();
    ExtractFirst("0");
    assert "0"[1..] == "" && "0"[..1] == "0";
    ExtractFirst("00");
    assert "00"[1..] == "0" && "00"[..1] == "0";
    ExtractFirst("200");
    assert "200"[1..] == "00" && "200"[..1] == "2";
    ExtractFirst("[200");
    assert "[200"[1..] == "200" && "[200"[..1] == "[";
  }

  lemma EmitAllNonEmpty(pending: Option<nat>, sequences: seq<string>)
    requires sequences != [] && |sequences[0]| >= 2
    ensures var e := EmitAll(pending, sequences).events; e != [] && e[0].Data?
  {
  }

  /** If both ways begin with the same events, they differ when what follows does. */
  lemma TwiceHead(st: State, a: string, b: string, text: string, head: seq<Event>, a': string, tail: string)
    requires Tidy(st)
    requires Process(st, a) == Prepend(head, Process(EMPTY, a'))
             && Process(st, text) == Prepend(head, Process(EMPTY, tail))
    requires Twice(EMPTY, a', b).events != Process(EMPTY, tail).events
    ensures Twice(st, a, b).events != Process(st, text).events
  {
    hide Process;
    var one, two := Process(EMPTY, tail).events, Twice(EMPTY, a', b).events;
    assert Twice(st, a, b).events == head + two && Process(st, text).events == head + one;
    assert (head + two)[|head|..] == two && (head + one)[|head|..] == one;
  }

  /** The first paste of an unclean text that opens properly also closes, and the rest
      is unclean. */
  lemma UncleanTail(text: string)
    requires !Clean(false, text) && Boundary(text[..IndexOf(text, PASTE_START)])
    ensures var i := IndexOf(text, PASTE_START);
            i != -1 && var e := IndexOf(text[i + 6..], PASTE_END);
            e != -1 && i + 6 + e + 6 < |text| && !Clean(false, text[i + 6 + e + 6..])
  {
    hide IndexOf, IndexFrom, Boundary;
    NothingIsClean();
    var body := text[IndexOf(text, PASTE_START) + 6..];
    var e := IndexOf(body, PASTE_END);
    assert !Clean(true, body);
    assert body[e + 6..] == text[IndexOf(text, PASTE_START) + 6 + e + 6..];
  }

  /** Input that is not clean can be cut in two so that listeners notice. */
  lemma {:induction false} Distinguish(text: string, pending: Option<nat>) returns (a: string, b: string)
    requires !Clean(false, text)
    ensures a != "" && b != "" && a + b == text
    ensures var st := State("", false, "", pending); Twice(st, a, b).events != Process(st, text).events
    decreases |text|
  {
    hide IndexOf, IndexFrom, Extract, EmitAll, InPaste, OutsidePaste, Boundary, KittyPrintable, Twice, EmitOne;
    var i := IndexOf(text, PASTE_START);
    if !Boundary(text[..i]) {
      CutInMarker(text, pending);
      a, b := text[..i + 5], text[i + 5..];
    } else {
      hide Clean;
      UncleanTail(text);
      var head := i + 6 + IndexOf(text[i + 6..], PASTE_END) + 6;
      var a', b' := Distinguish(text[head..], None);
      a, b := text[..head + |a'|], b';
      CutAfterPaste(text, pending, a', b');
      assert a + b == text by {
        assert text[head..] == a' + b';
        assert a == text[..head] + a';
      }
    }
  }

  /** A cut that shows after the first paste shows from the start. */
  lemma CutAfterPaste(text: string, pending: Option<nat>, a': string, b: string)
    requires var i := IndexOf(text, PASTE_START);
             i != -1 && var e := IndexOf(text[i + 6..], PASTE_END);
             e != -1 && i + 6 + e + 6 < |text| && text[i + 6 + e + 6..] == a' + b
    requires a' != "" && Twice(EMPTY, a', b).events != Process(EMPTY, a' + b).events
    ensures var i := IndexOf(text, PASTE_START);
            var head := i + 6 + IndexOf(text[i + 6..], PASTE_END) + 6;
            var st := State("", false, "", pending);
            Twice(st, text[..head + |a'|], b).events != Process(st, text).events
  {
    hide IndexOf, IndexFrom, Extract, EmitAll, InPaste, OutsidePaste, KittyPrintable, Twice, EmitOne;
    var i := IndexOf(text, PASTE_START);
    var body := text[i + 6..];
    var e := IndexOf(body, PASTE_END);
    var head := i + 6 + e + 6;
    var n := head + |a'|;
    var a := text[..n];
    assert text[head..n] == text[head..][..|a'|] == a';
    assert text[..|text|] == text && text[head..|text|] == a' + b;
    HeadStep(text, pending, n);
    HeadStep(text, pending, |text|);
    assert "" + text == text && "" + a == a;
    var shown := EmitAll(pending, Extract(text[..i]).sequences).events + [Paste(body[..e])];
    TwiceHead(State("", false, "", pending), a, b, text, shown, a', a' + b);
  }

  lemma NothingIsClean()
    ensures Clean(false, "")
  {
    assert !OccursAt("", PASTE_START, 0);
  }

  /** Cutting cannot be observed. */
  ghost predicate ChunkInvariant(st: State, text: string)
    requires Tidy(st)
  {
    forall chunks :: Chunks(chunks, text) ==> Feed(st, chunks).events == Process(st, text).events
  }

  lemma FeedCons(st: State, a: string, rest: seq<string>)
    requires Tidy(st)
    ensures Feed(st, [a] + rest) == Prepend(Process(st, a).events, Feed(Process(st, a).state, rest))
  {
    hide Process;
    assert ([a] + rest)[1..] == rest;
  }

  lemma FeedTwo(st: State, a: string, b: string)
    requires Tidy(st)
    ensures Feed(st, [a, b]) == Twice(st, a, b)
  {
    hide Process;
    FeedCons(st, a, [b]);
    assert [a] + [b] == [a, b];
    var middle := Process(st, a).state;
    FeedCons(middle, b, []);
    assert [b] + [] == [b];
    assert Process(middle, b).events + [] == Process(middle, b).events;
  }

  /** For input that arrives outside a paste with nothing buffered: the events do not
      depend on how it is cut into chunks if and only if it is clean. */
  lemma ChunkInvariantIffClean(text: string, pending: Option<nat>)
    ensures ChunkInvariant(State("", false, "", pending), text) <==> Clean(false, text)
  {
    hide Process, Clean;
    var st := State("", false, "", pending);
    assert Held(st) + text == text;
    if Clean(false, text) {
      forall chunks | Chunks(chunks, text) ensures Feed(st, chunks).events == Process(st, text).events {
        CleanIsInvariant(st, chunks, text);
      }
    } else {
      var a, b := Distinguish(text, pending);
      FeedTwo(st, a, b);
      assert [a, b][1..] == [b] && [b][1..] == [] && Concat([b]) == b + "";
      assert Chunks([a, b], text);
    }
  }
}
