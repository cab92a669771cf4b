/** Which strings are complete terminal input sequences, and cutting a buffer into
    them. Control sequences end as ECMA-48 section 5.4 has it: a CSI with a final byte
    from 0x40 to 0x7E; OSC, DCS and APC strings with ST. */
module StdinSequences {
  import opened Text

  const ESC: char := '\U{1b}'
  const BEL: char := '\U{7}'
  const PASTE_START: string := [ESC] + "[200~"
  const PASTE_END: string := [ESC] + "[201~"

  datatype Status = Complete | Incomplete | NotEscape

  predicate StartsWith(text: string, prefix: string) {
    |prefix| <= |text| && text[..|prefix|] == prefix
  }

  predicate EndsWith(text: string, suffix: string) {
    |suffix| <= |text| && text[|text| - |suffix|..] == suffix
  }

  function IsCompleteSequence(data: string): Status {
    if !StartsWith(data, [ESC]) then NotEscape
    else if |data| == 1 then Incomplete
    else
      match data[1]
      case '[' =>
        if StartsWith(data[2..], "M") then (if |data| >= 6 then Complete else Incomplete)
        else IsCompleteCsi(data)
      case ']' => if EndsWith(data, [ESC, '\\']) || EndsWith(data, [BEL]) then Complete else Incomplete
      case 'P' => if EndsWith(data, [ESC, '\\']) then Complete else Incomplete
      case '_' => if EndsWith(data, [ESC, '\\']) then Complete else Incomplete
      case 'O' => if |data| >= 3 then Complete else Incomplete
      case _ => Complete
  }

  function IsCompleteCsi(data: string): Status
    requires |data| >= 2
  {
    if |data| < 3 then Incomplete
    else
      var payload := data[2..];
      var last := payload[|payload| - 1];
      if last < '@' || last > '~' then Incomplete
      else if payload[0] == '<' then
        // SGR mouse report: three numbers, then M or m
        if (last == 'M' || last == 'm') && |payload| >= 2
           && (var parts := Split(payload[1..|payload| - 1], ';');
               |parts| == 3 && Digits(parts[0]) && Digits(parts[1]) && Digits(parts[2]))
        then Complete else Incomplete
      else Complete
  }

  /** The length of the shortest complete sequence `text[..n]` with `n >= from`, or -1. */
  function SequenceEnd(text: string, from: nat): (r: int)
    ensures r == -1 || (from <= r <= |text| && IsCompleteSequence(text[..r]) == Complete)
    ensures forall n :: from <= n <= |text| && (r == -1 || n < r) ==> IsCompleteSequence(text[..n]) != Complete
    decreases |text| - from
  {
    if from > |text| then -1
    else if IsCompleteSequence(text[..from]) == Complete then from
    else SequenceEnd(text, from + 1)
  }

  datatype Extraction = Extraction(sequences: seq<string>, remainder: string)

  /** The complete sequences at the front of `text`, and what is left. */
  function Extract(text: string): Extraction
    decreases |text|
  {
    if text == [] then Extraction([], [])
    else if text[0] == ESC then
      var end := SequenceEnd(text, 1);
      if end == -1 then Extraction([], text)
      else
        var rest := Extract(text[end..]);
        Extraction([text[..end]] + rest.sequences, rest.remainder)
    else
      var rest := Extract(text[1..]);
      Extraction([text[..1]] + rest.sequences, rest.remainder)
  }

  function Concat(parts: seq<string>): string {
    if parts == [] then [] else parts[0] + Concat(parts[1..])
  }

  /** How much of a non-empty text its first sequence takes, or -1. */
  function FirstLength(text: string): (n: int)
    requires text != []
    ensures n == -1 || 1 <= n <= |text|
  {
    if text[0] == ESC then SequenceEnd(text, 1) else 1
  }

  lemma ExtractFirst(text: string)
    requires text != []
    ensures FirstLength(text) == -1 ==> text[0] == ESC && Extract(text) == Extraction([], text)
    ensures FirstLength(text) != -1 ==>
      var n := FirstLength(text);
      Extract(text) == Extraction([text[..n]] + Extract(text[n..]).sequences, Extract(text[n..]).remainder)
  {
  }

  method ExtractCompleteSequences(buffer: string) returns (sequences: seq<string>, remainder: string)
    ensures Extraction(sequences, remainder) == Extract(buffer)
  {
    hide Extract, IsCompleteSequence;
    ExtractNothing();
    sequences := [];
    assert buffer[0..] == buffer;
    var pos := 0;
    while pos < |buffer|
      invariant 0 <= pos <= |buffer|
      invariant Extract(buffer) == Extraction(sequences + Extract(buffer[pos..]).sequences,
                                              Extract(buffer[pos..]).remainder)
    {
      var remaining := buffer[pos..];
      ExtractFirst(remaining);
      if remaining[0] == ESC {
        var seqEnd := 1;
        while seqEnd <= |remaining| && IsCompleteSequence(remaining[..seqEnd]) == Incomplete
          invariant 1 <= seqEnd <= |remaining| + 1
          invariant SequenceEnd(remaining, 1) == SequenceEnd(remaining, seqEnd)
        {
          seqEnd := seqEnd + 1;
        }
        if seqEnd > |remaining| {
          assert sequences + [] == sequences;
          return sequences, remaining;
        }
        NeverNotEscape(remaining, seqEnd);
        sequences := sequences + [remaining[..seqEnd]];
        pos := pos + seqEnd;
        assert remaining[seqEnd..] == buffer[pos..];
      } else {
        sequences := sequences + [remaining[..1]];
        pos := pos + 1;
        assert remaining[1..] == buffer[pos..];
      }
    }
    assert buffer[pos..] == [] && sequences + [] == sequences;
    remainder := [];
  }

  /** A non-empty prefix of a text that starts with ESC is never reported as no escape. */
  lemma NeverNotEscape(text: string, n: nat)
    requires text != [] && text[0] == ESC && 1 <= n <= |text|
    ensures IsCompleteSequence(text[..n]) != NotEscape
  {
    assert text[..n][..1] == [ESC];
  }

  /** Nothing is lost or reordered. */
  lemma {:induction false} ExtractConserves(text: string)
    ensures Concat(Extract(text).sequences) + Extract(text).remainder == text
    decreases |text|
  {
    hide Extract, FirstLength;
    if text == [] {
      ExtractNothing();
    } else {
      ExtractFirst(text);
      var n := FirstLength(text);
      if n != -1 {
        var rest := Extract(text[n..]);
        ExtractConserves(text[n..]);
        assert ([text[..n]] + rest.sequences)[1..] == rest.sequences;
        assert text == text[..n] + (Concat(rest.sequences) + rest.remainder);
      }
    }
  }

  lemma ExtractNothing()
    ensures Extract([]) == Extraction([], [])
  {
  }

  /** What is left is an unfinished escape, which yields nothing by itself. */
  lemma {:induction false} RemainderIsUnfinished(text: string)
    ensures var r := Extract(text).remainder; Extract(r) == Extraction([], r) && (r != [] ==> r[0] == ESC)
    decreases |text|
  {
    hide Extract, FirstLength;
    if text == [] {
      ExtractNothing();
    } else {
      ExtractFirst(text);
      if FirstLength(text) != -1 { RemainderIsUnfinished(text[FirstLength(text)..]); }
    }
  }

  /** Looking for the end of a sequence gives the same answer once more input arrives. */
  lemma {:induction false} SequenceEndExtends(a: string, b: string, from: nat)
    requires SequenceEnd(a, from) != -1
    ensures SequenceEnd(a + b, from) == SequenceEnd(a, from)
    decreases |a| - from
  {
    assert (a + b)[..from] == a[..from];
    if IsCompleteSequence(a[..from]) != Complete {
      SequenceEndExtends(a, b, from + 1);
    }
  }

  /** Cutting a longer buffer: cut the front, then cut what it left together with the
      rest. */
  lemma {:induction false} ExtractAppend(a: string, b: string)
    ensures var front := Extract(a);
            var back := Extract(front.remainder + b);
            Extract(a + b) == Extraction(front.sequences + back.sequences, back.remainder)
    decreases |a|
  {
    hide Extract;
    ExtractNothing();
    if a == [] {
      assert a + b == b && Extract(a).remainder + b == b;
      assert [] + Extract(b).sequences == Extract(b).sequences;
    } else {
      ExtractFirst(a);
      var n := FirstLength(a);
      if n == -1 {
        assert [] + Extract(a + b).sequences == Extract(a + b).sequences;
      } else {
        if a[0] == ESC { SequenceEndExtends(a, b, 1); }
        ExtractFirst(a + b);
        ExtractAppend(a[n..], b);
        assert (a + b)[..n] == a[..n] && (a + b)[n..] == a[n..] + b;
      }
    }
  }
}
