/** Separating a model's thinking from its answer while the text streams in. */
module ThinkTags {
  import opened Basics
  import opened Text

  const OPEN_TAG := "<think>"
  const CLOSE_TAG := "</think>"
  const CARRY := 7   // one less than the longer tag

  /** One emitted item: thinking or content. */
  datatype Part = Part(thinking: bool, text: string)

  function Tag(inThink: bool): string { if inThink then CLOSE_TAG else OPEN_TAG }

  // ----- the reference: one pass over the whole text -----

  /** Every character of `text` that is not part of a tag, with its type. */
  function Typed(text: string, inThink: bool): seq<(bool, char)>
    decreases |text|
  {
    if text == "" then []
    else if OccursAt(text, Tag(inThink), 0) then Typed(text[|Tag(inThink)|..], !inThink)
    else [(inThink, text[0])] + Typed(text[1..], inThink)
  }

  function Mark(inThink: bool, text: string): seq<(bool, char)> {
    seq(|text|, i requires 0 <= i < |text| => (inThink, text[i]))
  }

  /** The typed characters of a list of items. */
  function Flatten(parts: seq<Part>): seq<(bool, char)> {
    if parts == [] then []
    else Flatten(parts[..|parts| - 1]) + Mark(parts[|parts| - 1].thinking, parts[|parts| - 1].text)
  }

  lemma FlattenSnoc(a: seq<Part>, last: Part)
    ensures Flatten(a + [last]) == Flatten(a) + Mark(last.thinking, last.text)
  {
    assert (a + [last])[..|a|] == a;
  }

  lemma FlattenNone()
    ensures Flatten([]) == []
  {
  }

  lemma {:induction false} FlattenConcat(a: seq<Part>, b: seq<Part>)
    ensures Flatten(a + b) == Flatten(a) + Flatten(b)
  {
    hide Flatten, Mark;
    FlattenNone();
    if b == [] {
      assert a + b == a;
    } else {
      var init, last := b[..|b| - 1], b[|b| - 1];
      FlattenConcat(a, init);
      FlattenSnoc(init, last);
      FlattenSnoc(a + init, last);
      assert b == init + [last] && a + b == (a + init) + [last];
    }
  }

  // ----- one chunk -----

  datatype Extraction = Extraction(parts: seq<Part>, inThink: bool, pending: string)

  /** What one chunk emits when `text` is everything not yet emitted. */
  function Extract(text: string, inThink: bool): Extraction
    decreases |text|
  {
    var i := IndexOf(text, Tag(inThink));
    if i == -1 then
      if |text| > CARRY then Extraction([Part(inThink, text[..|text| - CARRY])], inThink, text[|text| - CARRY..])
      else Extraction([], inThink, text)
    else
      var rest := Extract(text[i + |Tag(inThink)|..], !inThink);
      Extraction((if i > 0 then [Part(inThink, text[..i])] else []) + rest.parts, rest.inThink, rest.pending)
  }

  function Prepend(parts: seq<Part>, e: Extraction): Extraction {
    Extraction(parts + e.parts, e.inThink, e.pending)
  }

  lemma PrependTwice(a: seq<Part>, b: seq<Part>, e: Extraction)
    ensures Prepend(a, Prepend(b, e)) == Prepend(a + b, e)
    ensures Prepend([], e) == e
  {
  }

  /** An item, unless its text is empty. */
  function Emit(inThink: bool, text: string): seq<Part> {
    if text == "" then [] else [Part(inThink, text)]
  }

  lemma ExtractStep(text: string, inThink: bool)
    ensures var i := IndexOf(text, Tag(inThink));
            Extract(text, inThink) ==
              if i == -1 then
                if |text| > CARRY then Extraction(Emit(inThink, text[..|text| - CARRY]), inThink, text[|text| - CARRY..])
                else Extraction([], inThink, text)
              else Prepend(Emit(inThink, text[..i]), Extract(text[i + |Tag(inThink)|..], !inThink))
  {
  }

  class TagState {
    var inThink: bool
    var pending: string

    constructor ()
      ensures !inThink && pending == ""
    {
      inThink, pending := false, "";
    }

    method ExtractStreamParts(chunk: string) returns (out: seq<Part>)
      modifies this
      ensures Extraction(out, inThink, pending) == Extract(old(pending) + chunk, old(inThink))
    {
      hide IndexOf, IndexFrom, Extract, Prepend;
      out := [];
      var text := pending + chunk;
      ghost var whole := Extract(text, inThink);
      PrependTwice([], [], whole);
      while true
        invariant Prepend(out, Extract(text, inThink)) == whole
        decreases |text|
      {
        ExtractStep(text, inThink);
        ghost var before, was := out, text;
        if inThink {
          var end := IndexOf(text, CLOSE_TAG);
          if end == -1 {
            if |text| > CARRY {
              var emit := text[..|text| - CARRY];
              if emit != "" { out := out + [Part(true, emit)]; }
              text := text[|text| - CARRY..];
            }
            LastStep(before, whole, Extract(was, true), out, true, text);
            break;
          }
          var emit := text[..end];
          if emit != "" { out := out + [Part(true, emit)]; }
          text := text[end + |CLOSE_TAG|..];
          inThink := false;
          PrependTwice(before, Emit(true, emit), Extract(text, false));
          assert out == before + Emit(true, emit);
          continue;
        }
        var start := IndexOf(text, OPEN_TAG);
        if start == -1 {
          if |text| > CARRY {
            var emit := text[..|text| - CARRY];
            if emit != "" { out := out + [Part(false, emit)]; }
            text := text[|text| - CARRY..];
          }
          LastStep(before, whole, Extract(was, false), out, false, text);
          break;
        }
        var emit := text[..start];
        if emit != "" { out := out + [Part(false, emit)]; }
        text := text[start + |OPEN_TAG|..];
        inThink := true;
        PrependTwice(before, Emit(false, emit), Extract(text, true));
        assert out == before + Emit(false, emit);
      }
      pending := text;
    }

    /** When no further tag is found the emitted items are complete. */
    static lemma LastStep(before: seq<Part>, whole: Extraction, last: Extraction, out: seq<Part>, inThink: bool,
                          text: string)
      requires whole == Prepend(before, last) && last.inThink == inThink && last.pending == text
      requires out == before + last.parts
      ensures whole == Extraction(out, inThink, text)
    {
    }
  }

  // ----- why keeping back seven characters is enough -----

  lemma TypedStep(text: string, inThink: bool)
    requires text != ""
    ensures Typed(text, inThink) ==
              if OccursAt(text, Tag(inThink), 0) then Typed(text[|Tag(inThink)|..], !inThink)
              else [(inThink, text[0])] + Typed(text[1..], inThink)
  {
  }

  lemma NothingMarked(inThink: bool, text: string)
    ensures forall typed :: Mark(inThink, text[..0]) + typed == typed
  {
    assert Mark(inThink, text[..0]) == [];
  }

  lemma MarkCons(inThink: bool, text: string, i: nat)
    requires 0 < i <= |text|
    ensures Mark(inThink, text[..i]) == [(inThink, text[0])] + Mark(inThink, text[1..][..i - 1])
  {
  }

  /** Text without the tag before position `n` is emitted as it is. */
  lemma {:induction false} TypedSkip(text: string, inThink: bool, n: nat)
    requires n <= |text| && forall k: nat :: k < n ==> !OccursAt(text, Tag(inThink), k)
    ensures Typed(text, inThink) == Mark(inThink, text[..n]) + Typed(text[n..], inThink)
    decreases n
  {
    hide OccursAt, Typed, Mark;
    NothingMarked(inThink, text);
    if n == 0 {
      assert text[0..] == text;
    } else {
      forall k: nat | k < n - 1 ensures !OccursAt(text[1..], Tag(inThink), k) {
        OccursInSuffix(text, Tag(inThink), 1, k);
      }
      TypedSkip(text[1..], inThink, n - 1);
      TypedStep(text, inThink);
      MarkCons(inThink, text, n);
      assert text[1..][n - 1..] == text[n..];
    }
  }

  /** A tag that is not in `text` cannot begin early enough in a longer text to end
      inside it. */
  lemma NoEarlyTag(text: string, future: string, inThink: bool, n: nat)
    requires n <= |text|
    requires var i := IndexOf(text, Tag(inThink)); if i == -1 then n + CARRY <= |text| else n <= i
    ensures forall k: nat :: k < n ==> !OccursAt(text + future, Tag(inThink), k)
  {
    hide IndexOf, IndexFrom;
    forall k: nat | k < n ensures !OccursAt(text + future, Tag(inThink), k) {
      assert (text + future)[..|text|] == text;
      OccursInPrefix(text + future, Tag(inThink), |text|, k);
      assert !OccursAt(text, Tag(inThink), k);
    }
  }

  /** Whatever arrives later, what a chunk emits and keeps accounts for its text. */
  lemma {:induction false} ExtractSound(text: string, inThink: bool, future: string)
    ensures var e := Extract(text, inThink);
            Typed(text + future, inThink) == Flatten(e.parts) + Typed(e.pending + future, e.inThink)
    decreases |text|
  {
    hide IndexOf, IndexFrom, Typed, Flatten, Mark, Extract;
    var tag := Tag(inThink);
    var i := IndexOf(text, tag);
    ExtractStep(text, inThink);
    FlattenNone();
    if i == -1 {
      if |text| > CARRY {
        var n := |text| - CARRY;
        NoEarlyTag(text, future, inThink, n);
        TypedSkip(text + future, inThink, n);
        assert (text + future)[..n] == text[..n] && (text + future)[n..] == text[n..] + future;
        FlattenOne(Part(inThink, text[..n]));
      }
    } else {
      NoEarlyTag(text, future, inThink, i);
      TypedSkip(text + future, inThink, i);
      assert (text + future)[..i] == text[..i];
      var rest := text[i + |tag|..];
      assert (text + future)[i..] == text[i..] + future;
      TypedTag(text[i..] + future, inThink);
      assert (text[i..] + future)[|tag|..] == rest + future;
      ExtractSound(rest, !inThink, future);
      var first := Emit(inThink, text[..i]);
      FlattenOne(Part(inThink, text[..i]));
      MarkNone(inThink);
      FlattenConcat(first, Extract(rest, !inThink).parts);
    }
  }

  lemma MarkNone(inThink: bool)
    ensures Mark(inThink, "") == []
  {
  }

  lemma TypedTag(text: string, inThink: bool)
    requires |Tag(inThink)| <= |text| && text[..|Tag(inThink)|] == Tag(inThink)
    ensures Typed(text, inThink) == Typed(text[|Tag(inThink)|..], !inThink)
  {
    assert text[0..|Tag(inThink)|] == text[..|Tag(inThink)|];
  }

  lemma FlattenOne(part: Part)
    ensures Flatten([part]) == Mark(part.thinking, part.text)
  {
    FlattenSnoc([], part);
    assert [] + [part] == [part];
  }

  /** What is kept back never contains a whole tag. */
  lemma {:induction false} PendingHasNoTag(text: string, inThink: bool)
    ensures var e := Extract(text, inThink); IndexOf(e.pending, Tag(e.inThink)) == -1 && |e.pending| <= CARRY
    decreases |text|
  {
    hide IndexOf, IndexFrom;
    var i := IndexOf(text, Tag(inThink));
    if i == -1 {
      if |text| > CARRY { FoundInSuffix(text, Tag(inThink), |text| - CARRY); }
    } else {
      PendingHasNoTag(text[i + |Tag(inThink)|..], !inThink);
    }
  }

  /** At the end of the stream what was kept back is emitted as it is. */
  lemma FlushSound(pending: string, inThink: bool)
    requires IndexOf(pending, Tag(inThink)) == -1
    ensures Typed(pending, inThink) == Mark(inThink, pending)
  {
    TypedSkip(pending, inThink, |pending|);
    assert pending[..|pending|] == pending;
  }

  // ----- the whole stream -----

  /** Whatever follows `seen`, the items emitted so far and the text kept back account
      for it. */
  ghost predicate Accounts(seen: string, items: seq<Part>, pending: string, inThink: bool) {
    && IndexOf(pending, Tag(inThink)) == -1
    && forall future :: Typed(seen + future, false) == Flatten(items) + Typed(pending + future, inThink)
  }

  lemma AccountsAtStart()
    ensures Accounts("", [], "", false)
  {
    hide Typed;
    assert !OccursAt("", OPEN_TAG, 0);
    FlattenNone();
    forall future ensures Typed("" + future, false) == Flatten([]) + Typed("" + future, false) {
    }
  }

  lemma AccountsStep(seen: string, items: seq<Part>, pending: string, inThink: bool, chunk: string)
    requires Accounts(seen, items, pending, inThink)
    ensures var e := Extract(pending + chunk, inThink);
            Accounts(seen + chunk, items + e.parts, e.pending, e.inThink)
  {
    hide Typed, Flatten, Extract, IndexOf, IndexFrom;
    var e := Extract(pending + chunk, inThink);
    PendingHasNoTag(pending + chunk, inThink);
    forall future
      ensures Typed(seen + chunk + future, false) == Flatten(items + e.parts) + Typed(e.pending + future, e.inThink)
    {
      AccountsFor(seen, items, pending, inThink, chunk, future);
    }
  }

  lemma AccountsFor(seen: string, items: seq<Part>, pending: string, inThink: bool, chunk: string, future: string)
    requires Accounts(seen, items, pending, inThink)
    ensures var e := Extract(pending + chunk, inThink);
            Typed(seen + chunk + future, false) == Flatten(items + e.parts) + Typed(e.pending + future, e.inThink)
  {
    hide Typed, Flatten, Extract, IndexOf, IndexFrom;
    var e := Extract(pending + chunk, inThink);
    FlattenConcat(items, e.parts);
    ExtractSound(pending + chunk, inThink, future);
    assert seen + chunk + future == seen + (chunk + future);
    assert pending + (chunk + future) == pending + chunk + future;
  }

  lemma AccountsAtEnd(seen: string, items: seq<Part>, pending: string, inThink: bool)
    requires Accounts(seen, items, pending, inThink)
    ensures Flatten(items + Emit(inThink, pending)) == Typed(seen, false)
  {
    hide Typed, Flatten, Mark, IndexOf, IndexFrom;
    assert seen + "" == seen && pending + "" == pending;
    FlushSound(pending, inThink);
    MarkNone(inThink);
    FlattenNone();
    FlattenOne(Part(inThink, pending));
    FlattenConcat(items, Emit(inThink, pending));
  }

  /** The items a streamed answer yields, the final flush included: the same typed
      characters as one pass over the whole text, however it was cut. */
  method StreamChat(chunks: seq<string>) returns (items: seq<Part>)
    ensures Flatten(items) == Typed(Join(chunks), false)
  {
    hide Extract, Typed, Flatten, Accounts;
    var tagState := new TagState();
    items := [];
    AccountsAtStart();
    var i := 0;
    while i < |chunks|
      invariant 0 <= i <= |chunks|
      invariant Accounts(Join(chunks[..i]), items, tagState.pending, tagState.inThink)
    {
      AccountsStep(Join(chunks[..i]), items, tagState.pending, tagState.inThink, chunks[i]);
      assert chunks[..i + 1][..i] == chunks[..i];
      var parts := tagState.ExtractStreamParts(chunks[i]);
      items := items + parts;
      i := i + 1;
    }
    assert chunks[..i] == chunks;
    AccountsAtEnd(Join(chunks), items, tagState.pending, tagState.inThink);
    assert items + [] == items;
    if tagState.pending != "" {
      items := items + [Part(tagState.inThink, tagState.pending)];
      tagState.pending := "";
    }
  }

  // ----- what is a thought -----

  /** Up to the next tag everything is of one type, behind it of the other. */
  lemma TypedUntilTag(text: string, inThink: bool, i: nat)
    requires OccursAt(text, Tag(inThink), i) && forall k: nat :: k < i ==> !OccursAt(text, Tag(inThink), k)
    ensures Typed(text, inThink) == Mark(inThink, text[..i]) + Typed(text[i + |Tag(inThink)|..], !inThink)
  {
    hide Typed, Mark;
    var tag := Tag(inThink);
    TypedSkip(text, inThink, i);
    OccursInSuffix(text, tag, i, 0);
    TypedStep(text[i..], inThink);
    assert text[i..][|tag|..] == text[i + |tag|..];
  }

  lemma TypedWithoutTag(text: string, inThink: bool)
    requires forall k: nat :: !OccursAt(text, Tag(inThink), k)
    ensures Typed(text, inThink) == Mark(inThink, text)
  {
    hide Mark, OccursAt;
    TypedSkip(text, inThink, |text|);
    assert text[..|text|] == text && text[|text|..] == "";
  }

  /** An answer with one thought: what stands between `<think>` and `</think>` is thinking,
      the rest is content, and the tags are neither. */
  lemma OneThought(before: string, thought: string, after: string)
    requires '<' !in before && '<' !in thought && '<' !in after
    ensures Typed(before + "<think>" + thought + "</think>" + after, false)
            == Mark(false, before) + Mark(true, thought) + Mark(false, after)
  {
    hide Typed, Mark;
    var tail := thought + "</think>" + after;
    assert before + "<think>" + thought + "</think>" + after == before + "<think>" + tail;
    ContentThenThought(before, tail);
    ThoughtThenContent(thought, after);
    Regroup(Mark(false, before), Mark(true, thought), Mark(false, after));
  }

  lemma Regroup(a: seq<(bool, char)>, b: seq<(bool, char)>, c: seq<(bool, char)>)
    ensures a + (b + c) == a + b + c
  {
  }

  lemma ContentThenThought(before: string, tail: string)
    requires '<' !in before
    ensures Typed(before + "<think>" + tail, false) == Mark(false, before) + Typed(tail, true)
  {
    hide Typed, Mark;
    var text := before + "<think>" + tail;
    FirstTag(before, "<think>", tail);
    TypedUntilTag(text, false, |before|);
    assert text[..|before|] == before && text[|before| + 7..] == tail;
  }

  lemma ThoughtThenContent(thought: string, after: string)
    requires '<' !in thought && '<' !in after
    ensures Typed(thought + "</think>" + after, true) == Mark(true, thought) + Mark(false, after)
  {
    hide Typed, Mark;
    var tail := thought + "</think>" + after;
    FirstTag(thought, "</think>", after);
    TypedUntilTag(tail, true, |thought|);
    assert tail[..|thought|] == thought && tail[|thought| + 8..] == after;
    NoTag(after, "<think>");
    TypedWithoutTag(after, false);
  }

  lemma StartsWithTag(text: string, tag: string, k: nat)
    requires tag != ""
    ensures OccursAt(text, tag, k) ==> text[k] == tag[0]
  {
    if OccursAt(text, tag, k) { assert text[k..k + |tag|][0] == text[k]; }
  }

  lemma FirstTag(before: string, tag: string, after: string)
    requires '<' !in before && tag != "" && tag[0] == '<'
    ensures var text := before + tag + after;
            OccursAt(text, tag, |before|) && forall k: nat :: k < |before| ==> !OccursAt(text, tag, k)
  {
    var text := before + tag + after;
    assert text[|before|..|before| + |tag|] == tag;
    forall k: nat | k < |before| ensures !OccursAt(text, tag, k) {
      assert text[k] == before[k];
      StartsWithTag(text, tag, k);
    }
  }

  lemma NoTag(text: string, tag: string)
    requires '<' !in text && tag != "" && tag[0] == '<'
    ensures forall k: nat :: !OccursAt(text, tag, k)
  {
    forall k: nat ensures !OccursAt(text, tag, k) {
      StartsWithTag(text, tag, k);
    }
  }
}
