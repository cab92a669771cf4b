/** The input buffer: it cuts a stream of chunks into sequences and bracketed pastes. */
module StdinBuffer {
  import opened Basics
  import opened Text
  import opened StdinSequences

  datatype Event = Data(sequence: string) | Paste(content: string)

  /** The buffer's fields. */
  datatype State = State(buffer: string, pasteMode: bool, pasteBuffer: string, pendingKitty: Option<nat>)

  /** Outside a paste no paste text is held; inside one nothing else is. */
  predicate Tidy(st: State) {
    if st.pasteMode then st.buffer == "" else st.pasteBuffer == ""
  }

  const EMPTY := State("", false, "", None)

  function Number(digits: string): nat
    requires forall i :: 0 <= i < |digits| ==> '0' <= digits[i] <= '9'
  {
    if digits == [] then 0 else 10 * Number(digits[..|digits| - 1]) + (digits[|digits| - 1] - '0') as nat
  }

  /** The code point of an unmodified Kitty key report: ESC [ number (: number?)?
      (: number)? u, with the number at least 32. */
  function KittyPrintable(sequence: string): Option<nat> {
    if |sequence| < 4 || sequence[..2] != [ESC, '['] || sequence[|sequence| - 1] != 'u' then None
    else
      var fields := Split(sequence[2..|sequence| - 1], ':');
      if |fields| <= 3 && Digits(fields[0])
         && (|fields| > 1 ==> fields[1] == "" || Digits(fields[1]))
         && (|fields| > 2 ==> Digits(fields[2]))
         && Number(fields[0]) >= 32
      then Some(Number(fields[0])) else None
  }

  /** A report by its grammar: the code point, then for each of up to two alternates a
      colon and a number, of which the first may be missing. */
  predicate KittyReport(sequence: string, digits: string, alternates: seq<string>) {
    && Digits(digits) && |alternates| <= 2
    && (|alternates| >= 1 ==> alternates[0] == "" || Digits(alternates[0]))
    && (|alternates| == 2 ==> Digits(alternates[1]))
    && sequence == [ESC, '['] + Alternates(digits, alternates) + ['u']
  }

  function Alternates(digits: string, alternates: seq<string>): string
    decreases |alternates|
  {
    if alternates == [] then digits else digits + [':'] + Alternates(alternates[0], alternates[1..])
  }

  /** What is recognised as a printable key are exactly the reports of a code point of at
      least 32. */
  lemma KittyIff(sequence: string, n: nat)
    ensures KittyPrintable(sequence) == Some(n) <==>
              exists digits, alternates :: KittyReport(sequence, digits, alternates) && Number(digits) == n >= 32
  {
    hide Split, Number, Alternates;
    if KittyPrintable(sequence) == Some(n) {
      var inner := sequence[2..|sequence| - 1];
      var fields := Split(inner, ':');
      FieldsJoin(inner);
      assert sequence == [ESC, '['] + inner + ['u'];
      assert KittyReport(sequence, fields[0], fields[1..]);
    }
    if exists digits, alternates :: KittyReport(sequence, digits, alternates) && Number(digits) == n >= 32 {
      var digits, alternates :| KittyReport(sequence, digits, alternates) && Number(digits) == n >= 32;
      var inner := Alternates(digits, alternates);
      assert sequence[2..|sequence| - 1] == inner && sequence[..2] == [ESC, '['];
      FieldsSplit(digits, alternates);
      AlternatesLong(digits, alternates);
    }
  }

  lemma AlternatesLong(digits: string, alternates: seq<string>)
    ensures |Alternates(digits, alternates)| >= |digits|
  {
  }

  lemma {:induction false} FieldsJoin(text: string)
    ensures var fields := Split(text, ':'); text == Alternates(fields[0], fields[1..])
    decreases |text|
  {
    var fields := Split(text, ':');
    SplitFirst(text, ':');
    if |fields| > 1 { FieldsJoin(text[|fields[0]| + 1..]); }
  }

  lemma {:induction false} FieldsSplit(first: string, rest: seq<string>)
    requires ':' !in first && forall i :: 0 <= i < |rest| ==> ':' !in rest[i]
    ensures Split(Alternates(first, rest), ':') == [first] + rest
    decreases |rest|
  {
    if rest == [] {
      SplitOnce(first, "", ':');
    } else {
      FieldsSplit(rest[0], rest[1..]);
      SplitOnce(first, Alternates(rest[0], rest[1..]), ':');
    }
  }

  /** The key a is reported as 97, with its alternates or without; with a modifier it is
      no printable key. */
  lemma KeyA()
    ensures KittyPrintable([ESC] + "[97u") == Some(97) && KittyPrintable([ESC] + "[97:65:97u") == Some(97)
    ensures KittyPrintable([ESC] + "[97;5u") == None
  {
    hide KittyPrintable, Split, Number;
    NumberOfTwo("97");
    var plain, alternate := [ESC] + "[97u", [ESC] + "[97:65:97u";
    assert plain == [ESC, '['] + Alternates("97", []) + ['u'];
    assert KittyReport(plain, "97", []);
    KittyIff(plain, 97);
    TwoAlternates("97", "65", "97");
    assert alternate == [ESC, '['] + ("97" + [':'] + ("65" + [':'] + "97")) + ['u'];
    assert KittyReport(alternate, "97", ["65", "97"]);
    KittyIff(alternate, 97);
    ModifiedKey();
  }

  lemma TwoAlternates(a: string, b: string, c: string)
    ensures Alternates(a, [b, c]) == a + [':'] + (b + [':'] + c)
  {
    assert [b, c][1..] == [c] && [c][1..] == [];
    assert Alternates(b, [c]) == b + [':'] + c;
  }

  lemma ModifiedKey()
    ensures KittyPrintable([ESC] + "[97;5u") == None
  {
    hide Split, Number;
    var sequence := [ESC] + "[97;5u";
    assert sequence[2..|sequence| - 1] == "97;5";
    SplitOnce("97;5", "", ':');
    assert "97;5"[2] == ';';
  }

  lemma NumberOfTwo(digits: string)
    requires |digits| == 2 && '0' <= digits[0] <= '9' && '0' <= digits[1] <= '9'
    ensures Number(digits) == 10 * (digits[0] - '0') as nat + (digits[1] - '0') as nat
  {
    assert digits[..1][..0] == [] && Number([]) == 0;
    assert Number(digits[..1]) == (digits[0] - '0') as nat;
  }

  // ----- emission -----

  datatype Emission = Emission(pending: Option<nat>, events: seq<Event>)

  /** A plain character that repeats the key just reported is swallowed. */
  function EmitOne(pending: Option<nat>, sequence: string): Emission {
    if |sequence| == 1 && pending == Some(sequence[0] as nat) then Emission(None, [])
    else Emission(KittyPrintable(sequence), [Data(sequence)])
  }

  function EmitAll(pending: Option<nat>, sequences: seq<string>): Emission
    decreases |sequences|
  {
    if sequences == [] then Emission(pending, [])
    else
      var first := EmitOne(pending, sequences[0]);
      var rest := EmitAll(first.pending, sequences[1..]);
      Emission(rest.pending, first.events + rest.events)
  }

  /** The sequence is the character that was announced. */
  predicate Echoes(announced: Option<nat>, sequence: string) {
    |sequence| == 1 && announced == Some(sequence[0] as nat)
  }

  /** What was announced before sequence `k`: only the sequence right before it counts. */
  function Announced(pending: Option<nat>, sequences: seq<string>, k: nat): Option<nat>
    requires k <= |sequences|
  {
    if k == 0 then pending else KittyPrintable(sequences[k - 1])
  }

  /** All sequences but those that echo the one before them. */
  function WithoutEchoes(pending: Option<nat>, sequences: seq<string>, n: nat): seq<Event>
    requires n <= |sequences|
  {
    if n == 0 then []
    else
      WithoutEchoes(pending, sequences, n - 1)
      + if Echoes(Announced(pending, sequences, n - 1), sequences[n - 1]) then [] else [Data(sequences[n - 1])]
  }

  /** Listeners receive every sequence, in order, except a plain character right after
      the key report that announced it. */
  lemma {:induction false} EmitsAllButEchoes(pending: Option<nat>, sequences: seq<string>, n: nat)
    requires n <= |sequences|
    ensures EmitAll(pending, sequences[..n]) == Emission(Announced(pending, sequences, n),
                                                         WithoutEchoes(pending, sequences, n))
  {
    hide KittyPrintable, EmitAll;
    if n == 0 {
      EmitAllNone(pending);
      assert sequences[..0] == [];
    } else {
      EmitsAllButEchoes(pending, sequences, n - 1);
      EmitAllConcat(pending, sequences[..n - 1], [sequences[n - 1]]);
      assert sequences[..n] == sequences[..n - 1] + [sequences[n - 1]];
      EmitAllOne(Announced(pending, sequences, n - 1), sequences[n - 1]);
      OneCharacterIsNoReport(sequences[n - 1]);
    }
  }

  lemma OneCharacterIsNoReport(sequence: string)
    ensures |sequence| == 1 ==> KittyPrintable(sequence) == None
  {
  }

  lemma {:induction false} EmitAllConcat(pending: Option<nat>, a: seq<string>, b: seq<string>)
    ensures var front := EmitAll(pending, a);
            var back := EmitAll(front.pending, b);
            EmitAll(pending, a + b) == Emission(back.pending, front.events + back.events)
    decreases |a|
  {
    hide EmitOne;
    if a == [] {
      assert a + b == b;
    } else {
      assert (a + b)[1..] == a[1..] + b;
      EmitAllConcat(EmitOne(pending, a[0]).pending, a[1..], b);
    }
  }

  // ----- processing a chunk -----

  datatype Step = Step(state: State, events: seq<Event>)

  function Prepend(events: seq<Event>, s: Step): Step { Step(s.state, events + s.events) }

  /** Inside a paste whose text so far is `text`. */
  function InPaste(text: string, pending: Option<nat>): (r: Step)
    ensures Tidy(r.state)
    decreases |text|, 0
  {
    var end := IndexOf(text, PASTE_END);
    if end == -1 then Step(State("", true, text, pending), [])
    else
      var remaining := text[end + |PASTE_END|..];
      Prepend([Paste(text[..end])], if remaining == "" then Step(EMPTY, []) else OutsidePaste(remaining, None))
  }

  /** Outside a paste with `text` buffered. */
  function OutsidePaste(text: string, pending: Option<nat>): (r: Step)
    ensures Tidy(r.state)
    decreases |text|, 1
  {
    var start := IndexOf(text, PASTE_START);
    if start == -1 then
      var cut := Extract(text);
      var emitted := EmitAll(pending, cut.sequences);
      Step(State(cut.remainder, false, "", emitted.pending), emitted.events)
    else
      Prepend(EmitAll(pending, Extract(text[..start]).sequences).events, InPaste(text[start + |PASTE_START|..], None))
  }

  /** One call of `process`. */
  function Process(st: State, data: string): (r: Step)
    requires Tidy(st)
    ensures Tidy(r.state)
  {
    if data == "" && st.buffer == "" then
      var emitted := EmitOne(st.pendingKitty, "");
      Step(st.(pendingKitty := emitted.pending), emitted.events)
    else if st.pasteMode then InPaste(st.pasteBuffer + (st.buffer + data), st.pendingKitty)
    else OutsidePaste(st.buffer + data, st.pendingKitty)
  }

  class StdinBuffer {
    var buffer: string
    var pasteMode: bool
    var pasteBuffer: string
    var pendingKittyPrintableCodepoint: Option<nat>
    var emitted: seq<Event>   // what listeners have received

    ghost function View(): State
      reads this
    {
      State(buffer, pasteMode, pasteBuffer, pendingKittyPrintableCodepoint)
    }

    constructor ()
      ensures View() == EMPTY && emitted == []
    {
      buffer, pasteMode, pasteBuffer := "", false, "";
      pendingKittyPrintableCodepoint, emitted := None, [];
    }

    /** A character that a key report has just announced is dropped; the next one like it
        is passed on, because no report is pending then. */
    method EmitDataSequence(sequence: string)
      modifies `pendingKittyPrintableCodepoint, `emitted
      ensures pendingKittyPrintableCodepoint == KittyPrintable(sequence)
      ensures emitted == old(emitted) + if Echoes(old(pendingKittyPrintableCodepoint), sequence) then [] else [Data(sequence)]
      ensures var e := EmitOne(old(pendingKittyPrintableCodepoint), sequence);
              pendingKittyPrintableCodepoint == e.pending && emitted == old(emitted) + e.events
    {
      if |sequence| == 1 && pendingKittyPrintableCodepoint == Some(sequence[0] as nat) {
        pendingKittyPrintableCodepoint := None;
        return;
      }
      pendingKittyPrintableCodepoint := KittyPrintable(sequence);
      emitted := emitted + [Data(sequence)];
    }

    method EmitSequences(sequences: seq<string>)
      modifies `pendingKittyPrintableCodepoint, `emitted
      ensures var e := EmitAll(old(pendingKittyPrintableCodepoint), sequences);
              pendingKittyPrintableCodepoint == e.pending && emitted == old(emitted) + e.events
    {
      hide EmitOne;
      var i := 0;
      while i < |sequences|
        invariant 0 <= i <= |sequences|
        invariant var e := EmitAll(old(pendingKittyPrintableCodepoint), sequences[..i]);
                  pendingKittyPrintableCodepoint == e.pending && emitted == old(emitted) + e.events
      {
        EmitAllConcat(old(pendingKittyPrintableCodepoint), sequences[..i], [sequences[i]]);
        assert sequences[..i + 1] == sequences[..i] + [sequences[i]];
        EmitAllOne(pendingKittyPrintableCodepoint, sequences[i]);
        EmitDataSequence(sequences[i]);
        i := i + 1;
      }
      assert sequences[..i] == sequences;
    }

    /** Takes the end of a paste, if it has arrived, and goes on with what follows. */
    method FinishPaste()
      requires pasteMode && buffer == ""
      modifies this
      ensures var step := InPaste(old(pasteBuffer), old(pendingKittyPrintableCodepoint));
              emitted == old(emitted) + step.events && View() == step.state
      decreases |pasteBuffer|, 0
    {
      hide IndexOf, Extract, EmitAll, EmitOne, OutsidePaste;
      var endIndex := IndexOf(pasteBuffer, PASTE_END);
      if endIndex != -1 {
        var pastedContent := pasteBuffer[..endIndex];
        var remaining := pasteBuffer[endIndex + |PASTE_END|..];
        pasteMode := false;
        pasteBuffer := "";
        pendingKittyPrintableCodepoint := None;
        emitted := emitted + [Paste(pastedContent)];
        if |remaining| > 0 {
          assert "" + remaining == remaining;
          ProcessChunk(remaining);
        }
      }
    }

    method ProcessChunk(data: string)
      requires Tidy(View())
      modifies this
      ensures View() == Process(old(View()), data).state
      ensures emitted == old(emitted) + Process(old(View()), data).events
      decreases |pasteBuffer| + |buffer| + |data|, 2
    {
      hide EmitOne, OutsidePaste, InPaste;
      if |data| == 0 && |buffer| == 0 {
        EmitDataSequence("");
        return;
      }
      buffer := buffer + data;
      if pasteMode {
        pasteBuffer := pasteBuffer + buffer;
        buffer := "";
        FinishPaste();
        return;
      }
      ProcessOutsidePaste();
    }

    /** The buffered text is outside a paste. */
    method ProcessOutsidePaste()
      requires !pasteMode && pasteBuffer == ""
      modifies this
      ensures var step := OutsidePaste(old(buffer), old(pendingKittyPrintableCodepoint));
              emitted == old(emitted) + step.events && View() == step.state
      decreases |buffer|, 1
    {
      hide EmitOne, EmitAll, Extract, InPaste, IndexOf;
      var startIndex := IndexOf(buffer, PASTE_START);
      if startIndex != -1 {
        EmitAllNone(pendingKittyPrintableCodepoint);
        ExtractNothing();
        assert startIndex == 0 ==> buffer[..startIndex] == "";
        if startIndex > 0 {
          var sequences, remainder := ExtractCompleteSequences(buffer[..startIndex]);
          EmitSequences(sequences);
        }
        pendingKittyPrintableCodepoint := None;
        buffer := buffer[startIndex + |PASTE_START|..];
        pasteMode := true;
        pasteBuffer := buffer;
        buffer := "";
        FinishPaste();
        return;
      }
      var sequences, remainder := ExtractCompleteSequences(buffer);
      buffer := remainder;
      EmitSequences(sequences);
    }

    /** What the timeout does: hands out an unfinished sequence as it is. */
    method Flush() returns (flushed: seq<string>)
      requires Tidy(View())
      modifies this
      ensures Tidy(View())
      ensures if old(buffer) == "" then flushed == [] && View() == old(View())
              else flushed == [old(buffer)] && View() == old(View()).(buffer := "", pendingKitty := None)
      ensures emitted == old(emitted)
    {
      if |buffer| == 0 { return []; }
      flushed := [buffer];
      buffer := "";
      pendingKittyPrintableCodepoint := None;
    }

    method Clear()
      modifies this
      ensures View() == EMPTY && emitted == old(emitted)
    {
      buffer, pasteMode, pasteBuffer, pendingKittyPrintableCodepoint := "", false, "", None;
    }
  }

  lemma EmitAllNone(pending: Option<nat>)
    ensures EmitAll(pending, []) == Emission(pending, [])
  {
  }

  lemma EmitAllOne(pending: Option<nat>, sequence: string)
    ensures EmitAll(pending, [sequence]) == EmitOne(pending, sequence)
  {
    assert [sequence][1..] == [];
  }
}
