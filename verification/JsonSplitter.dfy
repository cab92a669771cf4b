/** Cutting a streamed body into top-level JSON objects (strings and escapes as in
    section 7 of RFC 8259). The parser itself is a parameter. */
module JsonSplitter {
  import opened Basics

  /** What the parser makes of a snippet: invalid, a dictionary, or something else. */
  datatype Parsed<+V> = Invalid | Dictionary(value: V) | Other

  /** How many characters of `text` complete an object that is `depth` braces deep, or -1. */
  function ObjectLength(text: string, depth: nat, inString: bool, escaped: bool): (n: int)
    requires depth > 0
    ensures n == -1 || 1 <= n <= |text|
    decreases |text|
  {
    if text == "" then -1
    else
      var c, rest := text[0], text[1..];
      if c == '}' && depth == 1 && !inString then 1
      else
        var n :=
          if inString then
            ObjectLength(rest, depth, escaped || c != '"', !escaped && c == '\\')
          else if c == '"' then ObjectLength(rest, depth, true, false)
          else ObjectLength(rest, if c == '{' then depth + 1 else if c == '}' then depth - 1 else depth, false, false);
        if n == -1 then -1 else n + 1
  }

  datatype Scanned<+V> = Scanned(objects: seq<V>, rest: string)

  function Prepend<V>(objects: seq<V>, s: Scanned<V>): Scanned<V> { Scanned(objects + s.objects, s.rest) }

  /** The objects of `text` up to the first that is unfinished or does not parse, and the
      text from there on; anything between objects is skipped. */
  function Scan<V>(text: string, parse: string -> Parsed<V>): Scanned<V>
    decreases |text|
  {
    if text == "" then Scanned([], "")
    else if text[0] != '{' then Scan(text[1..], parse)
    else
      var n := ObjectLength(text[1..], 1, false, false);
      if n == -1 then Scanned([], text)
      else AfterSnippet(text, n + 1, parse)
  }

  /** `text` begins with a balanced snippet of `n` characters. */
  function AfterSnippet<V>(text: string, n: nat, parse: string -> Parsed<V>): Scanned<V>
    requires 0 < n <= |text|
    decreases |text|, 0
  {
    match parse(text[..n])
    case Invalid => Scanned([], text)
    case Dictionary(value) => Prepend([value], Scan(text[n..], parse))
    case Other => Scan(text[n..], parse)
  }

  function LStrip(text: string, chars: set<char>): string {
    if text != "" && text[0] in chars then LStrip(text[1..], chars) else text
  }

  const SEPARATORS: set<char> := {' ', '\r', '\n', '\t', '[', ']', ','}

  /** The state of the scan inside an object that began at `start`. */
  function Resume<V>(buffer: string, start: nat, index: nat, depth: nat, inString: bool, escaped: bool,
                     parse: string -> Parsed<V>): Scanned<V>
    requires start < index <= |buffer| && depth > 0
  {
    var n := ObjectLength(buffer[index..], depth, inString, escaped);
    if n == -1 then Scanned([], buffer[start..])
    else AfterSnippet(buffer[start..], index + n - start, parse)
  }

  /** One step of the scan inside an object. */
  lemma ResumeStep<V>(buffer: string, start: nat, index: nat, depth: nat, inString: bool, escaped: bool,
                      parse: string -> Parsed<V>)
    requires start < index < |buffer| && depth > 0
    ensures var c := buffer[index];
            Resume(buffer, start, index, depth, inString, escaped, parse) ==
              if inString then
                Resume(buffer, start, index + 1, depth, escaped || c != '"', !escaped && c == '\\', parse)
              else if c == '"' then Resume(buffer, start, index + 1, depth, true, false, parse)
              else if c == '{' then Resume(buffer, start, index + 1, depth + 1, false, false, parse)
              else if c == '}' then
                if depth == 1 then AfterSnippet(buffer[start..], index + 1 - start, parse)
                else Resume(buffer, start, index + 1, depth - 1, false, false, parse)
              else Resume(buffer, start, index + 1, depth, false, false, parse)
  {
    hide AfterSnippet;
    assert buffer[index..][1..] == buffer[index + 1..];
  }

  /** The scan between objects. */
  lemma ScanStep<V>(buffer: string, index: nat, parse: string -> Parsed<V>)
    requires index < |buffer|
    ensures Scan(buffer[index..], parse) ==
              if buffer[index] != '{' then Scan(buffer[index + 1..], parse)
              else Resume(buffer, index, index + 1, 1, false, false, parse)
  {
    hide AfterSnippet, ObjectLength;
    assert buffer[index..][1..] == buffer[index + 1..];
  }

  lemma PrependTwice<V>(a: seq<V>, b: seq<V>, s: Scanned<V>)
    ensures Prepend(a, Prepend(b, s)) == Prepend(a + b, s)
    ensures Prepend([], s) == s && Prepend(a, Scanned([], s.rest)) == Scanned(a, s.rest)
  {
  }

  method ExtractJsonObjects<V>(buffer: string, parse: string -> Parsed<V>) returns (objects: seq<V>, rest: string)
    ensures Scanned(objects, rest) == Scan(buffer, parse)
  {
    hide Scan, AfterSnippet, Resume, Prepend;
    objects := [];
    var startIndex := -1;   // -1 for none
    var depth, inString, escaped := 0, false, false;
    var lastConsumed := 0;
    var index := 0;
    assert buffer[0..] == buffer;
    PrependTwice([], [], Scan(buffer, parse));
    while index < |buffer|
      invariant 0 <= index <= |buffer| && -1 <= startIndex < index + 1
      invariant startIndex == -1 ==>
                  lastConsumed == index && Prepend(objects, Scan(buffer[index..], parse)) == Scan(buffer, parse)
      invariant startIndex != -1 ==>
                  startIndex < index && depth > 0
                  && Prepend(objects, Resume(buffer, startIndex, index, depth, inString, escaped, parse)) == Scan(buffer, parse)
      invariant !inString ==> !escaped
    {
      var c := buffer[index];
      if startIndex == -1 {
        ScanStep(buffer, index, parse);
        if c in SEPARATORS {
          lastConsumed := index + 1;
        } else if c != '{' {
          lastConsumed := index + 1;
        } else {
          startIndex, depth, inString, escaped := index, 1, false, false;
        }
        index := index + 1;
        continue;
      }
      ResumeStep(buffer, startIndex, index, depth, inString, escaped, parse);
      if inString {
        if escaped {
          escaped := false;
        } else if c == '\\' {
          escaped := true;
        } else if c == '"' {
          inString := false;
        }
        index := index + 1;
        continue;
      }
      if c == '"' {
        inString := true;
      } else if c == '{' {
        depth := depth + 1;
      } else if c == '}' {
        depth := depth - 1;
        if depth == 0 {
          var snippet := buffer[startIndex..index + 1];
          var parsed := parse(snippet);
          SnippetStep(buffer, startIndex, index + 1, parse);
          PrependTwice(objects, [], Scanned([], buffer[startIndex..]));
          if parsed.Invalid? {
            return objects, buffer[startIndex..];
          }
          if parsed.Dictionary? {
            PrependTwice(objects, [parsed.value], Scan(buffer[index + 1..], parse));
            objects := objects + [parsed.value];
          }
          lastConsumed := index + 1;
          startIndex := -1;
        }
      }
      index := index + 1;
    }
    assert buffer[index..] == "";
    AtEnd(buffer, startIndex, depth, inString, escaped, parse);
    PrependTwice(objects, [], Scanned([], buffer[if startIndex == -1 then index else startIndex..]));
    if startIndex != -1 {
      return objects, buffer[startIndex..];
    }
    rest := LStrip(buffer[lastConsumed..], SEPARATORS);
  }

  lemma AtEnd<V>(buffer: string, start: int, depth: int, inString: bool, escaped: bool, parse: string -> Parsed<V>)
    ensures Scan("", parse) == Scanned([], "")
    ensures 0 <= start < |buffer| && depth > 0 ==>
      Resume(buffer, start, |buffer|, depth, inString, escaped, parse) == Scanned([], buffer[start..])
  {
  }

  lemma SnippetStep<V>(buffer: string, start: nat, end: nat, parse: string -> Parsed<V>)
    requires start < end <= |buffer|
    ensures AfterSnippet(buffer[start..], end - start, parse) ==
              match parse(buffer[start..end])
              case Invalid => Scanned([], buffer[start..])
              case Dictionary(value) => Prepend([value], Scan(buffer[end..], parse))
              case Other => Scan(buffer[end..], parse)
  {
    hide Scan;
    assert buffer[start..][..end - start] == buffer[start..end];
    assert buffer[start..][end - start..] == buffer[end..];
  }

  // ----- chunks -----

  /** More input does not change where a finished object ends. */
  lemma {:induction false} ObjectLengthExtends(a: string, b: string, depth: nat, inString: bool, escaped: bool)
    requires depth > 0 && ObjectLength(a, depth, inString, escaped) != -1
    ensures ObjectLength(a + b, depth, inString, escaped) == ObjectLength(a, depth, inString, escaped)
    decreases |a|
  {
    var c, rest := a[0], a[1..];
    assert (a + b)[0] == c && (a + b)[1..] == rest + b;
    if c == '}' && depth == 1 && !inString {
    } else if inString {
      ObjectLengthExtends(rest, b, depth, escaped || c != '"', !escaped && c == '\\');
    } else if c == '"' {
      ObjectLengthExtends(rest, b, depth, true, false);
    } else {
      ObjectLengthExtends(rest, b, if c == '{' then depth + 1 else if c == '}' then depth - 1 else depth, false, false);
    }
  }

  /** Scanning a longer body: scan the front, then scan what it left with the rest. An
      object that does not parse stays in front and blocks the rest, either way. */
  lemma {:induction false} ScanAppend<V>(a: string, b: string, parse: string -> Parsed<V>)
    ensures Scan(a + b, parse) == Prepend(Scan(a, parse).objects, Scan(Scan(a, parse).rest + b, parse))
    decreases |a|
  {
    hide ObjectLength;
    if a == "" {
      assert a + b == b && Scan(a, parse).rest + b == b;
    } else if a[0] != '{' {
      ScanAppend(a[1..], b, parse);
      assert (a + b)[0] == a[0] && (a + b)[1..] == a[1..] + b;
    } else {
      var n := ObjectLength(a[1..], 1, false, false);
      if n != -1 {
        ObjectLengthExtends(a[1..], b, 1, false, false);
        assert (a + b)[1..] == a[1..] + b;
        ScanAppend(a[n + 1..], b, parse);
        AppendSnippet(a, b, n + 1, parse);
      }
    }
  }

  lemma AppendSnippet<V>(a: string, b: string, n: nat, parse: string -> Parsed<V>)
    requires 0 < n <= |a|
    requires Scan(a[n..] + b, parse) == Prepend(Scan(a[n..], parse).objects, Scan(Scan(a[n..], parse).rest + b, parse))
    requires Scan(a, parse) == AfterSnippet(a, n, parse) && Scan(a + b, parse) == AfterSnippet(a + b, n, parse)
    ensures Scan(a + b, parse) == Prepend(Scan(a, parse).objects, Scan(Scan(a, parse).rest + b, parse))
  {
    hide Scan;
    assert (a + b)[..n] == a[..n] && (a + b)[n..] == a[n..] + b;
  }

  /** What a scan leaves yields nothing more by itself. */
  lemma {:induction false} RestIsStuck<V>(text: string, parse: string -> Parsed<V>)
    ensures Scan(Scan(text, parse).rest, parse) == Scanned([], Scan(text, parse).rest)
    decreases |text|
  {
    if text != "" {
      if text[0] != '{' {
        RestIsStuck(text[1..], parse);
      } else {
        var n := ObjectLength(text[1..], 1, false, false);
        if n != -1 { RestIsStuck(text[n + 1..], parse); }
      }
    }
  }

  /** The streamed form: scans after every chunk, and once more at the end. It yields
      the objects, and keeps the leftover, of one scan of the whole body. */
  method IterStreamObjects<V>(chunks: seq<string>, parse: string -> Parsed<V>)
    returns (objects: seq<V>, leftover: string)
    ensures Scanned(objects, leftover) == Scan(Join(chunks), parse)
  {
    hide Scan;
    objects, leftover := [], "";
    AtEnd("", 0, 0, false, false, parse);
    var i := 0;
    while i < |chunks|
      invariant 0 <= i <= |chunks|
      invariant Scanned(objects, leftover) == Scan(Join(chunks[..i]), parse)
    {
      ScanAppend(Join(chunks[..i]), chunks[i], parse);
      assert chunks[..i + 1][..i] == chunks[..i];
      if chunks[i] != "" {
        var more;
        more, leftover := ExtractJsonObjects(leftover + chunks[i], parse);
        objects := objects + more;
      } else {
        assert Join(chunks[..i + 1]) == Join(chunks[..i]);
      }
      i := i + 1;
    }
    assert chunks[..i] == chunks;
    RestIsStuck(Join(chunks), parse);
    var more;
    more, leftover := ExtractJsonObjects(leftover, parse);
    objects := objects + more;
  }

  // ----- which snippets are objects -----

  /** The inside of an object, as far as braces go: characters, strings and objects. */
  datatype Piece = Plain(c: char) | Quoted(chars: seq<Inner>) | Nested(body: seq<Piece>)

  /** The inside of a string: a character, or a backslash and any character. */
  datatype Inner = Raw(c: char) | Escaped(c: char)

  predicate ValidPiece(piece: Piece) {
    match piece
    case Plain(c) => c != '"' && c != '{' && c != '}'
    case Quoted(chars) => ValidChars(chars)
    case Nested(inner) => forall k :: 0 <= k < |inner| ==> ValidPiece(inner[k])
  }

  predicate ValidChars(chars: seq<Inner>) {
    forall i :: 0 <= i < |chars| && chars[i].Raw? ==> chars[i].c != '"' && chars[i].c != '\\'
  }

  predicate ValidBody(body: seq<Piece>) { forall k :: 0 <= k < |body| ==> ValidPiece(body[k]) }

  function PrintChars(chars: seq<Inner>): string {
    if chars == [] then ""
    else (if chars[0].Raw? then [chars[0].c] else ['\\', chars[0].c]) + PrintChars(chars[1..])
  }

  function PrintPiece(piece: Piece): string {
    match piece
    case Plain(c) => [c]
    case Quoted(chars) => ['"'] + PrintChars(chars) + ['"']
    case Nested(inner) => ['{'] + PrintBody(inner) + ['}']
  }

  function PrintBody(body: seq<Piece>): string {
    if body == [] then "" else PrintPiece(body[0]) + PrintBody(body[1..])
  }

  function PrintObject(body: seq<Piece>): string { ['{'] + PrintBody(body) + ['}'] }

  /** The length of an object that is found `n` characters further on. */
  function Further(n: nat, length: int): int { if length == -1 then -1 else n + length }

  /** Braces within a string do not count, and an escaped quote does not end it. */
  lemma {:induction false} StringIsSkipped(chars: seq<Inner>, tail: string, depth: nat)
    requires depth > 0
    requires ValidChars(chars)
    ensures ObjectLength(PrintChars(chars) + (['"'] + tail), depth, true, false)
            == Further(|PrintChars(chars)| + 1, ObjectLength(tail, depth, false, false))
    decreases |chars|
  {
    var text := PrintChars(chars) + (['"'] + tail);
    if chars == [] {
      assert text == ['"'] + tail && text[1..] == tail;
    } else {
      var rest := PrintChars(chars[1..]) + (['"'] + tail);
      StringIsSkipped(chars[1..], tail, depth);
      if chars[0].Raw? {
        assert text == [chars[0].c] + rest && text[1..] == rest;
      } else {
        assert text == ['\\'] + ([chars[0].c] + rest) && text[1..] == [chars[0].c] + rest;
        assert ([chars[0].c] + rest)[1..] == rest;
      }
    }
  }

  /** The inside of an object is passed over as a whole. */
  lemma {:induction false} BodyIsSkipped(body: seq<Piece>, tail: string, depth: nat)
    requires depth > 0 && ValidBody(body)
    ensures ObjectLength(PrintBody(body) + tail, depth, false, false)
            == Further(|PrintBody(body)|, ObjectLength(tail, depth, false, false))
    decreases body
  {
    hide ObjectLength, PrintPiece, ValidPiece;
    if body == [] {
      assert PrintBody(body) + tail == tail;
    } else {
      var rest := PrintBody(body[1..]) + tail;
      BodyIsSkipped(body[1..], tail, depth);
      PieceIsSkipped(body[0], rest, depth);
      assert PrintBody(body) + tail == PrintPiece(body[0]) + rest;
    }
  }

  lemma {:induction false} PieceIsSkipped(piece: Piece, rest: string, depth: nat)
    requires depth > 0 && ValidPiece(piece)
    ensures ObjectLength(PrintPiece(piece) + rest, depth, false, false)
            == Further(|PrintPiece(piece)|, ObjectLength(rest, depth, false, false))
    decreases piece
  {
    hide ObjectLength, PrintBody, PrintChars, ValidChars;
    var text := PrintPiece(piece) + rest;
    match piece
    case Plain(c) => OneSkipped(c, rest, depth);
    case Quoted(chars) =>
      assert text == ['"'] + (PrintChars(chars) + (['"'] + rest));
      QuoteOpens(PrintChars(chars) + (['"'] + rest), depth);
      StringIsSkipped(chars, rest, depth);
    case Nested(inner) =>
      assert text == ['{'] + (PrintBody(inner) + (['}'] + rest));
      BraceOpens(PrintBody(inner) + (['}'] + rest), depth);
      BodyIsSkipped(inner, ['}'] + rest, depth + 1);
      BraceCloses(rest, depth + 1);
  }

  lemma OneSkipped(c: char, rest: string, depth: nat)
    requires depth > 0 && c != '"' && c != '{' && c != '}'
    ensures ObjectLength([c] + rest, depth, false, false) == Further(1, ObjectLength(rest, depth, false, false))
  {
    assert ([c] + rest)[1..] == rest;
  }

  lemma QuoteOpens(rest: string, depth: nat)
    requires depth > 0
    ensures ObjectLength(['"'] + rest, depth, false, false) == Further(1, ObjectLength(rest, depth, true, false))
  {
    assert (['"'] + rest)[1..] == rest;
  }

  lemma BraceOpens(rest: string, depth: nat)
    requires depth > 0
    ensures ObjectLength(['{'] + rest, depth, false, false) == Further(1, ObjectLength(rest, depth + 1, false, false))
  {
    assert (['{'] + rest)[1..] == rest;
  }

  lemma BraceCloses(rest: string, depth: nat)
    requires depth > 0
    ensures ObjectLength(['}'] + rest, depth, false, false)
            == if depth == 1 then 1 else Further(1, ObjectLength(rest, depth - 1, false, false))
  {
    assert (['}'] + rest)[1..] == rest;
  }

  /** So an object in front of anything is handed to the parser, whole and by itself. */
  lemma ObjectIsCut<V>(body: seq<Piece>, rest: string, parse: string -> Parsed<V>)
    requires ValidBody(body)
    ensures var snippet := PrintObject(body);
            Scan(snippet + rest, parse) ==
              match parse(snippet)
              case Invalid => Scanned([], snippet + rest)
              case Dictionary(value) => Prepend([value], Scan(rest, parse))
              case Other => Scan(rest, parse)
  {
    hide ObjectLength, PrintBody;
    var snippet := PrintObject(body);
    var text := snippet + rest;
    assert text == ['{'] + (PrintBody(body) + (['}'] + rest));
    assert text[1..] == PrintBody(body) + (['}'] + rest);
    BodyIsSkipped(body, ['}'] + rest, 1);
    BraceCloses(rest, 1);
    assert text[..|snippet|] == snippet && text[|snippet|..] == rest;
  }

  /** What stands between objects is passed over. */
  lemma {:induction false} BetweenIsSkipped<V>(between: string, rest: string, parse: string -> Parsed<V>)
    requires '{' !in between
    ensures Scan(between + rest, parse) == Scan(rest, parse)
  {
    hide AfterSnippet, ObjectLength;
    if between == "" {
      assert between + rest == rest;
    } else {
      BetweenIsSkipped(between[1..], rest, parse);
      assert (between + rest)[1..] == between[1..] + rest && (between + rest)[0] == between[0];
    }
  }

  /** Objects with anything but an opening brace before each of them. */
  function Series(between: seq<string>, bodies: seq<seq<Piece>>, end: string): string
    requires |between| == |bodies|
    decreases |bodies|
  {
    if bodies == [] then end else between[0] + (PrintObject(bodies[0]) + Series(between[1..], bodies[1..], end))
  }

  /** A list of dictionaries comes out as these, in order. */
  lemma {:induction false} SeriesIsRead<V>(between: seq<string>, bodies: seq<seq<Piece>>, end: string,
                                           parse: string -> Parsed<V>, values: seq<V>)
    requires |between| == |bodies| == |values| && '{' !in end
    requires forall k :: 0 <= k < |bodies| ==>
               '{' !in between[k] && ValidBody(bodies[k]) && parse(PrintObject(bodies[k])) == Dictionary(values[k])
    ensures Scan(Series(between, bodies, end), parse) == Scanned(values, "")
    decreases |bodies|
  {
    hide ValidBody, PrintObject, Scan;
    if bodies == [] {
      BetweenIsSkipped(end, "", parse);
      assert end + "" == end;
      NothingToScan(parse);
    } else {
      var rest := Series(between[1..], bodies[1..], end);
      SeriesIsRead(between[1..], bodies[1..], end, parse, values[1..]);
      BetweenIsSkipped(between[0], PrintObject(bodies[0]) + rest, parse);
      ObjectIsCut(bodies[0], rest, parse);
      assert [values[0]] + values[1..] == values;
    }
  }

  lemma NothingToScan<V>(parse: string -> Parsed<V>)
    ensures Scan("", parse) == Scanned([], "")
  {
  }
}
