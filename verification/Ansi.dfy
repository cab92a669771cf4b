/** Text with terminal style codes, and the tracker that knows which styles are on.
    Select Graphic Rendition is ECMA-48 section 8.3.117. */
module Ansi {
  import opened Basics

  /** One parameter of a control sequence, a possibly empty string of digits: its
      leading zeros and its value. */
  datatype Param = Blank | Digits(zeros: nat, value: nat)

  /** An escape code: SGR with its parameters, an OSC 8 hyperlink (`""` closes it), or
      one that the tracker ignores. */
  datatype Code = Sgr(params: seq<Param>) | Hyperlink(url: string) | OtherCode(text: string)

  datatype Attributes = Attributes(
    bold: bool, dim: bool, italic: bool, underline: bool, blink: bool, inverse: bool, hidden: bool, strikethrough: bool)

  datatype Style = Style(attributes: Attributes, foreground: Option<seq<Param>>, background: Option<seq<Param>>,
                         hyperlink: Option<string>)

  const ALL_OFF := Attributes(false, false, false, false, false, false, false, false)
  const PLAIN := Style(ALL_OFF, None, None, None)

  /** SGR 0 leaves hyperlinks alone. */
  function Reset(s: Style): Style { PLAIN.(hyperlink := s.hyperlink) }

  function Plain(n: nat): Param { Digits(0, n) }

  /** How many parameters the colour at the front takes: 38/48;5;N three and
      38/48;2;R;G;B five; otherwise it is no colour. */
  function ColorLength(params: seq<Param>): (n: nat)
    requires params != []
    ensures n <= |params|
  {
    var p := params[0];
    if !(p.Digits? && (p.value == 38 || p.value == 48)) then 0
    else if |params| > 2 && params[1] == Plain(5) then 3
    else if |params| > 4 && params[1] == Plain(2) then 5
    else 0
  }

  /** The codes that switch an attribute on. */
  function SwitchOn(a: Attributes, code: nat): Attributes {
    match code
    case 1 => a.(bold := true)
    case 2 => a.(dim := true)
    case 3 => a.(italic := true)
    case 4 => a.(underline := true)
    case 5 => a.(blink := true)
    case 7 => a.(inverse := true)
    case 8 => a.(hidden := true)
    case 9 => a.(strikethrough := true)
    case _ => a
  }

  /** The codes that switch attributes off; 22 switches off two. */
  function SwitchOff(a: Attributes, code: nat): Attributes {
    match code
    case 21 => a.(bold := false)
    case 22 => a.(bold := false, dim := false)
    case 23 => a.(italic := false)
    case 24 => a.(underline := false)
    case 25 => a.(blink := false)
    case 27 => a.(inverse := false)
    case 28 => a.(hidden := false)
    case 29 => a.(strikethrough := false)
    case _ => a
  }

  function Switch(a: Attributes, code: nat): Attributes {
    if code <= 9 then SwitchOn(a, code) else SwitchOff(a, code)
  }

  /** One standard code. */
  function ApplyCode(s: Style, code: nat): Style {
    if code == 0 then Reset(s)
    else if code == 39 then s.(foreground := None)
    else if code == 49 then s.(background := None)
    else if 30 <= code <= 37 || 90 <= code <= 97 then s.(foreground := Some([Plain(code)]))
    else if 40 <= code <= 47 || 100 <= code <= 107 then s.(background := Some([Plain(code)]))
    else s.(attributes := Switch(s.attributes, code))
  }

  function SetColor(s: Style, extended: nat, color: seq<Param>): Style {
    if extended == 38 then s.(foreground := Some(color)) else s.(background := Some(color))
  }

  /** All parameters of one SGR code. */
  function ApplyParams(s: Style, params: seq<Param>): Style
    decreases |params|
  {
    if params == [] then s
    else
      var n := ColorLength(params);
      if n > 0 then ApplyParams(SetColor(s, params[0].value, params[..n]), params[n..])
      else ApplyParams(if params[0].Digits? then ApplyCode(s, params[0].value) else s, params[1..])
  }

  function Process(s: Style, code: Code): Style {
    match code
    case Hyperlink(url) => s.(hyperlink := if url == "" then None else Some(url))
    case OtherCode(_) => s
    case Sgr(params) =>
      if params == [Blank] || params == [Plain(0)] then Reset(s) else ApplyParams(s, params)
  }

  function ProcessAll(s: Style, codes: seq<Code>): Style
    decreases |codes|
  {
    if codes == [] then s else ProcessAll(Process(s, codes[0]), codes[1..])
  }

  function WithCode(params: seq<Param>, on: bool, code: nat): seq<Param> {
    if on then params + [Plain(code)] else params
  }

  function FirstCodes(a: Attributes): seq<Param> {
    WithCode(WithCode(WithCode(WithCode([], a.bold, 1), a.dim, 2), a.italic, 3), a.underline, 4)
  }

  /** The attributes that are on, as parameters. */
  function OnCodes(a: Attributes): seq<Param> {
    WithCode(WithCode(WithCode(WithCode(FirstCodes(a), a.blink, 5), a.inverse, 7), a.hidden, 8), a.strikethrough, 9)
  }

  function ColorParams(color: Option<seq<Param>>): seq<Param> {
    if color.Some? then color.value else []
  }

  function ActiveParams(s: Style): seq<Param> {
    OnCodes(s.attributes) + ColorParams(s.foreground) + ColorParams(s.background)
  }

  /** Codes that turn on everything that is on. */
  function ActiveCodes(s: Style): seq<Code> {
    (if ActiveParams(s) == [] then [] else [Sgr(ActiveParams(s))])
    + (if s.hyperlink.Some? then [Hyperlink(s.hyperlink.value)] else [])
  }

  /** What must be closed at a line's end: the underline and the hyperlink. */
  function LineEndReset(s: Style): seq<Code> {
    (if s.attributes.underline then [Sgr([Plain(24)])] else []) + (if s.hyperlink.Some? then [Hyperlink("")] else [])
  }

  lemma ApplyNothing(s: Style)
    ensures ApplyParams(s, []) == s
  {
  }

  lemma ApplyStep(s: Style, params: seq<Param>, i: nat)
    requires i < |params|
    ensures var n := ColorLength(params[i..]);
            ApplyParams(s, params[i..]) ==
              if n > 0 then ApplyParams(SetColor(s, params[i].value, params[i..i + n]), params[i + n..])
              else ApplyParams(if params[i].Digits? then ApplyCode(s, params[i].value) else s, params[i + 1..])
  {
    var rest := params[i..];
    var n := ColorLength(rest);
    assert rest[1..] == params[i + 1..] && rest[n..] == params[i + n..] && rest[..n] == params[i..i + n];
  }

  /** After the line-end codes nothing is left that would show in a line's padding. */
  lemma LineEndResetCloses(s: Style)
    ensures var r := ProcessAll(s, LineEndReset(s)); !r.attributes.underline && r.hyperlink == None
    ensures ProcessAll(s, LineEndReset(s)) == s.(attributes := s.attributes.(underline := false), hyperlink := None)
  {
    hide Process, ProcessAll;
    var off, link := Sgr([Plain(24)]), Hyperlink("");
    UnderlineOff(s);
    LinkOff(s);
    LinkOff(Process(s, off));
    UpToTwo(s, off, link);
    if s.attributes.underline {
      assert LineEndReset(s) == if s.hyperlink.Some? then [off, link] else [off];
    } else {
      assert LineEndReset(s) == if s.hyperlink.Some? then [link] else [];
    }
  }

  lemma UpToTwo(s: Style, a: Code, b: Code)
    ensures ProcessAll(s, []) == s && ProcessAll(s, [a]) == Process(s, a) && ProcessAll(s, [b]) == Process(s, b)
    ensures ProcessAll(s, [a, b]) == Process(Process(s, a), b)
  {
    hide Process;
    assert [a][1..] == [] && [b][1..] == [] && [a, b][1..] == [b];
    assert ProcessAll(Process(s, a), [b]) == Process(Process(s, a), b);
  }

  lemma UnderlineOff(s: Style)
    ensures Process(s, Sgr([Plain(24)])) == s.(attributes := s.attributes.(underline := false))
  {
    assert [Plain(24)][1..] == [] && ColorLength([Plain(24)]) == 0;
  }

  lemma LinkOff(s: Style)
    ensures Process(s, Hyperlink("")) == s.(hyperlink := None)
  {
  }

  class AnsiCodeTracker {
    var bold: bool
    var dim: bool
    var italic: bool
    var underline: bool
    var blink: bool
    var inverse: bool
    var hidden: bool
    var strikethrough: bool
    var fgColor: Option<seq<Param>>
    var bgColor: Option<seq<Param>>
    var activeHyperlink: Option<string>

    ghost function View(): Style
      reads this
    {
      Style(Attributes(bold, dim, italic, underline, blink, inverse, hidden, strikethrough), fgColor, bgColor, activeHyperlink)
    }

    constructor ()
      ensures View() == PLAIN
    {
      bold, dim, italic, underline, blink, inverse, hidden, strikethrough :=
        false, false, false, false, false, false, false, false;
      fgColor, bgColor, activeHyperlink := None, None, None;
    }

    method ResetStyle()
      modifies this
      ensures View() == Reset(old(View()))
    {
      bold, dim, italic, underline, blink, inverse, hidden, strikethrough :=
        false, false, false, false, false, false, false, false;
      fgColor, bgColor := None, None;
    }

    method Clear()
      modifies this
      ensures View() == PLAIN
    {
      ResetStyle();
      activeHyperlink := None;
    }

    method SwitchAttributeOn(code: nat)
      modifies this
      ensures View() == old(View()).(attributes := SwitchOn(old(View().attributes), code))
    {
      match code {
        case 1 => bold := true;
        case 2 => dim := true;
        case 3 => italic := true;
        case 4 => underline := true;
        case 5 => blink := true;
        case 7 => inverse := true;
        case 8 => hidden := true;
        case 9 => strikethrough := true;
        case _ =>
      }
    }

    method SwitchAttributeOff(code: nat)
      modifies this
      ensures View() == old(View()).(attributes := SwitchOff(old(View().attributes), code))
    {
      if code == 21 {
        bold := false;
      } else if code == 22 {
        bold, dim := false, false;
      } else if code == 23 {
        italic := false;
      } else if code == 24 {
        underline := false;
      } else if code == 25 {
        blink := false;
      } else if code == 27 {
        inverse := false;
      } else if code == 28 {
        hidden := false;
      } else if code == 29 {
        strikethrough := false;
      }
    }

    method ProcessStandard(code: nat)
      modifies this
      ensures View() == ApplyCode(old(View()), code)
    {
      hide SwitchOn, SwitchOff;
      if code == 0 {
        ResetStyle();
      } else if code == 39 {
        fgColor := None;
      } else if code == 49 {
        bgColor := None;
      } else if 30 <= code <= 37 || 90 <= code <= 97 {
        fgColor := Some([Plain(code)]);
      } else if 40 <= code <= 47 || 100 <= code <= 107 {
        bgColor := Some([Plain(code)]);
      } else if code <= 9 {
        SwitchAttributeOn(code);
      } else {
        SwitchAttributeOff(code);
      }
    }

    method ProcessCode(code: Code)
      modifies this
      ensures View() == Process(old(View()), code)
    {
      hide ApplyCode, ApplyParams;
      assert code.Sgr? ==> code.params[0..] == code.params;
      if code.Hyperlink? {
        activeHyperlink := if code.url == "" then None else Some(code.url);
        return;
      }
      if !code.Sgr? { return; }
      var parts := code.params;
      if parts == [Blank] || parts == [Plain(0)] {
        ResetStyle();
        return;
      }
      var i := 0;
      while i < |parts|
        invariant 0 <= i <= |parts|
        invariant ApplyParams(View(), parts[i..]) == ApplyParams(old(View()), parts)
      {
        var part := parts[i];
        ApplyStep(View(), parts, i);
        if part.Digits? && (part.value == 38 || part.value == 48) {
          if i + 1 < |parts| && parts[i + 1] == Plain(5) && i + 2 < |parts| {
            if part.value == 38 { fgColor := Some(parts[i..i + 3]); } else { bgColor := Some(parts[i..i + 3]); }
            i := i + 3;
            continue;
          } else if i + 1 < |parts| && parts[i + 1] == Plain(2) && i + 4 < |parts| {
            if part.value == 38 { fgColor := Some(parts[i..i + 5]); } else { bgColor := Some(parts[i..i + 5]); }
            i := i + 5;
            continue;
          }
        }
        if part.Digits? {
          ProcessStandard(part.value);
        }
        i := i + 1;
      }
      assert parts[i..] == [];
      ApplyNothing(View());
    }

    /** The half of `GetActiveCodes` that collects the attributes. */
    method AttributeParams() returns (params: seq<Param>)
      ensures params == OnCodes(View().attributes)
    {
      params := [];
      if bold { params := params + [Plain(1)]; }
      if dim { params := params + [Plain(2)]; }
      if italic { params := params + [Plain(3)]; }
      if underline { params := params + [Plain(4)]; }
      assert params == FirstCodes(View().attributes);
      if blink { params := params + [Plain(5)]; }
      if inverse { params := params + [Plain(7)]; }
      if hidden { params := params + [Plain(8)]; }
      if strikethrough { params := params + [Plain(9)]; }
    }

    method GetActiveCodes() returns (codes: seq<Code>)
      ensures codes == ActiveCodes(View())
    {
      hide OnCodes;
      var params := AttributeParams();
      if fgColor.Some? { params := params + fgColor.value; }
      assert params == OnCodes(View().attributes) + ColorParams(fgColor);
      if bgColor.Some? { params := params + bgColor.value; }
      assert params == ActiveParams(View());
      codes := if params == [] then [] else [Sgr(params)];
      if activeHyperlink.Some? { codes := codes + [Hyperlink(activeHyperlink.value)]; }
    }

    /** What must be closed at a line's end: the underline and the hyperlink. */
    method GetLineEndReset() returns (codes: seq<Code>)
      ensures codes == LineEndReset(View())
    {
      codes := [];
      if underline { codes := codes + [Sgr([Plain(24)])]; }
      if activeHyperlink.Some? { codes := codes + [Hyperlink("")]; }
    }
  }

  // ----- printer and parser undo each other -----

  /** A colour the tracker can hold: one standard code, or a whole extended colour. */
  predicate IsColor(c: seq<Param>, extended: nat, low: nat, bright: nat) {
    || (|c| == 1 && c[0].Digits? && c[0].zeros == 0 && (low <= c[0].value <= low + 7 || bright <= c[0].value <= bright + 7))
    || ((|c| == 3 || |c| == 5) && c[0].Digits? && c[0].value == extended && c[1] == Plain(if |c| == 3 then 5 else 2))
  }

  /** What every style the tracker reaches satisfies. */
  predicate Reachable(s: Style) {
    && (s.foreground.Some? ==> IsColor(s.foreground.value, 38, 30, 90))
    && (s.background.Some? ==> IsColor(s.background.value, 48, 40, 100))
    && (s.hyperlink.Some? ==> s.hyperlink.value != "")
  }

  lemma {:induction false} ApplyParamsReachable(s: Style, params: seq<Param>)
    requires Reachable(s)
    ensures Reachable(ApplyParams(s, params))
    decreases |params|
  {
    hide Switch;
    if params != [] {
      var n := ColorLength(params);
      if n > 0 {
        ApplyParamsReachable(SetColor(s, params[0].value, params[..n]), params[n..]);
      } else {
        ApplyParamsReachable(if params[0].Digits? then ApplyCode(s, params[0].value) else s, params[1..]);
      }
    }
  }

  lemma ProcessReachable(s: Style, code: Code)
    requires Reachable(s)
    ensures Reachable(Process(s, code))
  {
    hide ApplyParams;
    if code.Sgr? { ApplyParamsReachable(s, code.params); }
  }

  lemma {:induction false} ProcessAllReachable(s: Style, codes: seq<Code>)
    requires Reachable(s)
    ensures Reachable(ProcessAll(s, codes))
    decreases |codes|
  {
    hide Process, Reachable;
    if codes != [] {
      ProcessReachable(s, codes[0]);
      ProcessAllReachable(Process(s, codes[0]), codes[1..]);
    }
  }

  /** Parameters that end where a code or colour ends. */
  predicate Whole(params: seq<Param>)
    decreases |params|
  {
    params == [] ||
    (params[0].Digits? &&
     var n := ColorLength(params);
     if n > 0 then Whole(params[n..]) else params[0].value != 38 && params[0].value != 48 && Whole(params[1..]))
  }

  /** Whole parameters are applied as if they stood alone. */
  lemma {:induction false} WholeConcat(s: Style, a: seq<Param>, b: seq<Param>)
    requires Whole(a)
    ensures ApplyParams(s, a + b) == ApplyParams(ApplyParams(s, a), b)
    ensures Whole(b) ==> Whole(a + b)
    decreases |a|
  {
    hide ApplyCode;
    if a == [] {
      assert a + b == b;
    } else {
      var n := ColorLength(a);
      var m := if n > 0 then n else 1;
      assert ColorLength(a + b) == n && (a + b)[..m] == a[..m] && (a + b)[m..] == a[m..] + b;
      if n > 0 {
        WholeConcat(SetColor(s, a[0].value, a[..n]), a[n..], b);
      } else {
        WholeConcat(ApplyCode(s, a[0].value), a[1..], b);
      }
    }
  }

  /** One attribute's parameter. */
  lemma OneAttribute(s: Style, code: nat)
    requires code in {1, 2, 3, 4, 5, 7, 8, 9}
    ensures Whole([Plain(code)])
    ensures ApplyParams(s, [Plain(code)]) == s.(attributes := Switch(s.attributes, code))
  {
    hide Switch;
    assert [Plain(code)][1..] == [];
  }

  /** One colour's parameters. */
  lemma OneColor(s: Style, c: seq<Param>, extended: nat, low: nat, bright: nat)
    requires (extended == 38 && low == 30 && bright == 90) || (extended == 48 && low == 40 && bright == 100)
    requires IsColor(c, extended, low, bright)
    ensures Whole(c) && ApplyParams(s, c) == SetColor(s, extended, c)
  {
    hide SwitchOn, SwitchOff;
    if |c| == 1 {
      assert ColorLength(c) == 0 && c == [Plain(c[0].value)] && c[1..] == [];
      assert ApplyCode(s, c[0].value) == SetColor(s, extended, c);
    } else {
      assert ColorLength(c) == |c| && c[..|c|] == c && c[|c|..] == [];
    }
  }

  predicate Prints(params: seq<Param>, a: Attributes) {
    Whole(params) && ApplyParams(PLAIN, params) == PLAIN.(attributes := a)
  }

  lemma AppendAttribute(before: Attributes, params: seq<Param>, on: bool, code: nat)
    requires Prints(params, before)
    requires code in {1, 2, 3, 4, 5, 7, 8, 9}
    ensures Prints(WithCode(params, on, code), if on then SwitchOn(before, code) else before)
  {
    hide ApplyParams, Whole, SwitchOn, SwitchOff;
    if on {
      WholeConcat(PLAIN, params, [Plain(code)]);
      OneAttribute(PLAIN.(attributes := before), code);
    }
  }

  lemma FirstRoundTrip(a: Attributes)
    ensures Prints(FirstCodes(a), Attributes(a.bold, a.dim, a.italic, a.underline, false, false, false, false))
  {
    hide Prints, WithCode;
    NothingPrints();
    AppendAttribute(ALL_OFF, [], a.bold, 1);
    var p1, a1 := WithCode([], a.bold, 1), ALL_OFF.(bold := a.bold);
    AppendAttribute(a1, p1, a.dim, 2);
    var p2, a2 := WithCode(p1, a.dim, 2), a1.(dim := a.dim);
    AppendAttribute(a2, p2, a.italic, 3);
    var p3, a3 := WithCode(p2, a.italic, 3), a2.(italic := a.italic);
    AppendAttribute(a3, p3, a.underline, 4);
  }

  lemma AttributesRoundTrip(a: Attributes)
    ensures Prints(OnCodes(a), a)
  {
    hide Prints, WithCode, FirstCodes;
    FirstRoundTrip(a);
    var p4, a4 := FirstCodes(a), Attributes(a.bold, a.dim, a.italic, a.underline, false, false, false, false);
    AppendAttribute(a4, p4, a.blink, 5);
    var p5, a5 := WithCode(p4, a.blink, 5), a4.(blink := a.blink);
    AppendAttribute(a5, p5, a.inverse, 7);
    var p6, a6 := WithCode(p5, a.inverse, 7), a5.(inverse := a.inverse);
    AppendAttribute(a6, p6, a.hidden, 8);
    var p7, a7 := WithCode(p6, a.hidden, 8), a6.(hidden := a.hidden);
    AppendAttribute(a7, p7, a.strikethrough, 9);
  }

  lemma NothingPrints()
    ensures Prints([], ALL_OFF)
  {
  }

  lemma NothingIsWhole()
    ensures Whole([])
  {
  }

  /** Applying the active parameters to the plain style gives everything but the link. */
  lemma ParamsRoundTrip(s: Style)
    requires Reachable(s)
    ensures ApplyParams(PLAIN, ActiveParams(s)) == s.(hyperlink := None)
  {
    hide ApplyParams, Whole, OnCodes, IsColor;
    AttributesRoundTrip(s.attributes);
    var on := OnCodes(s.attributes);
    var lit := PLAIN.(attributes := s.attributes);
    var fore := ColorParams(s.foreground);
    WholeConcat(PLAIN, on, fore);
    ApplyNothing(lit);
    ApplyNothing(lit.(foreground := s.foreground));
    NothingIsWhole();
    if s.foreground.Some? { OneColor(lit, fore, 38, 30, 90); }
    WholeConcat(PLAIN, on + fore, ColorParams(s.background));
    if s.background.Some? { OneColor(lit.(foreground := s.foreground), ColorParams(s.background), 48, 40, 100); }
  }

  /** The active parameters are never one of the two spellings of a reset. */
  lemma NeverReset(s: Style)
    requires Reachable(s)
    ensures ActiveParams(s) != [Blank] && ActiveParams(s) != [Plain(0)]
  {
    hide ApplyParams;
    ParamsRoundTrip(s);
    OnCodesArePositive(s.attributes);
    var p := ActiveParams(s);
    if |p| == 1 {
      assert p[0].Digits? && p[0].value != 0;
    }
  }

  lemma OnCodesArePositive(a: Attributes)
    ensures forall i :: 0 <= i < |OnCodes(a)| ==> OnCodes(a)[i].Digits? && OnCodes(a)[i].value > 0
  {
    hide FirstCodes;
    assert forall i :: 0 <= i < |FirstCodes(a)| ==>
             FirstCodes(a)[i].Digits? && FirstCodes(a)[i].value > 0
      by { FirstArePositive(a); }
  }

  lemma FirstArePositive(a: Attributes)
    ensures forall i :: 0 <= i < |FirstCodes(a)| ==> FirstCodes(a)[i].Digits? && FirstCodes(a)[i].value > 0
  {
  }

  /** Printing the style of a tracker that processed any codes, and processing that in a
      cleared tracker, gives the same style. */
  lemma PrinterParserRoundTrip(codes: seq<Code>)
    ensures var s := ProcessAll(PLAIN, codes); ProcessAll(PLAIN, ActiveCodes(s)) == s
  {
    ProcessAllReachable(PLAIN, codes);
    StyleRoundTrip(ProcessAll(PLAIN, codes));
  }

  lemma StyleRoundTrip(s: Style)
    requires Reachable(s)
    ensures ProcessAll(PLAIN, ActiveCodes(s)) == s
  {
    hide ApplyParams, ActiveParams, IsColor;
    ParamsRoundTrip(s);
    NeverReset(s);
    var p := ActiveParams(s);
    var linkless := s.(hyperlink := None);
    var link := if s.hyperlink.Some? then [Hyperlink(s.hyperlink.value)] else [];
    assert ProcessAll(linkless, link) == s by {
      if link != [] { assert link[1..] == []; }
    }
    if p == [] {
      assert ActiveCodes(s) == link;
      ApplyNothing(PLAIN);
    } else {
      assert ActiveCodes(s)[0] == Sgr(p) && ActiveCodes(s)[1..] == link;
      assert Process(PLAIN, Sgr(p)) == linkless;
    }
  }

  // ----- single codes -----

  /** A code of one plain parameter. */
  lemma OneCode(s: Style, code: nat)
    requires code != 38 && code != 48
    ensures Process(s, Sgr([Plain(code)])) == ApplyCode(s, code)
  {
    hide SwitchOn, SwitchOff;
    assert [Plain(code)][1..] == [] && ColorLength([Plain(code)]) == 0;
    ApplyNothing(ApplyCode(s, code));
  }

  function Coded(s: Style, code: nat): Style { Process(s, Sgr([Plain(code)])) }

  /** Which attribute a code switches on, leaving all else alone. */
  lemma OnCodesSwitchOn(s: Style)
    ensures Coded(s, 1) == s.(attributes := s.attributes.(bold := true))
    ensures Coded(s, 2) == s.(attributes := s.attributes.(dim := true))
    ensures Coded(s, 3) == s.(attributes := s.attributes.(italic := true))
    ensures Coded(s, 4) == s.(attributes := s.attributes.(underline := true))
    ensures Coded(s, 5) == s.(attributes := s.attributes.(blink := true))
    ensures Coded(s, 7) == s.(attributes := s.attributes.(inverse := true))
    ensures Coded(s, 8) == s.(attributes := s.attributes.(hidden := true))
    ensures Coded(s, 9) == s.(attributes := s.attributes.(strikethrough := true))
  {
    hide Process;
    forall code | 1 <= code <= 9 ensures Coded(s, code) == ApplyCode(s, code) { OneCode(s, code); }
  }

  /** Each is undone by its own code and no other: 22 undoes bold and dim, 39 and 49 the
      colours, 0 everything but a hyperlink. */
  lemma OffCodesSwitchOff(s: Style)
    ensures Coded(s, 21) == s.(attributes := s.attributes.(bold := false))
    ensures Coded(s, 22) == s.(attributes := s.attributes.(bold := false, dim := false))
    ensures Coded(s, 23) == s.(attributes := s.attributes.(italic := false))
    ensures Coded(s, 24) == s.(attributes := s.attributes.(underline := false))
    ensures Coded(s, 25) == s.(attributes := s.attributes.(blink := false))
    ensures Coded(s, 27) == s.(attributes := s.attributes.(inverse := false))
    ensures Coded(s, 28) == s.(attributes := s.attributes.(hidden := false))
    ensures Coded(s, 29) == s.(attributes := s.attributes.(strikethrough := false))
    ensures Coded(s, 39) == s.(foreground := None) && Coded(s, 49) == s.(background := None)
    ensures Coded(s, 0) == Style(ALL_OFF, None, None, s.hyperlink) == Process(s, Sgr([Blank]))
  {
    hide Process, SwitchOn;
    forall code | 20 <= code <= 29 || code == 39 || code == 49 ensures Coded(s, code) == ApplyCode(s, code) {
      OneCode(s, code);
    }
    FullReset(s);
  }

  lemma FullReset(s: Style)
    ensures Coded(s, 0) == Process(s, Sgr([Blank])) == Style(ALL_OFF, None, None, s.hyperlink)
  {
  }

  /** Basic and bright colours. */
  lemma BasicColors(s: Style, code: nat)
    ensures 30 <= code <= 37 || 90 <= code <= 97 ==> Coded(s, code) == s.(foreground := Some([Plain(code)]))
    ensures 40 <= code <= 47 || 100 <= code <= 107 ==> Coded(s, code) == s.(background := Some([Plain(code)]))
  {
    hide Process, SwitchOn, SwitchOff;
    if code != 38 && code != 48 { OneCode(s, code); }
  }

  /** The extended colours take three or five parameters; what follows them is read on its
      own. */
  lemma ExtendedColors(s: Style, rest: seq<Param>, n: Param, r: Param, g: Param, b: Param)
    ensures var c := [Plain(38), Plain(5), n]; ApplyParams(s, c + rest) == ApplyParams(s.(foreground := Some(c)), rest)
    ensures var c := [Plain(48), Plain(5), n]; ApplyParams(s, c + rest) == ApplyParams(s.(background := Some(c)), rest)
    ensures var c := [Plain(38), Plain(2), r, g, b];
            ApplyParams(s, c + rest) == ApplyParams(s.(foreground := Some(c)), rest)
    ensures var c := [Plain(48), Plain(2), r, g, b];
            ApplyParams(s, c + rest) == ApplyParams(s.(background := Some(c)), rest)
  {
    hide ApplyParams;
    Extended(s, [Plain(38), Plain(5), n], rest);
    Extended(s, [Plain(48), Plain(5), n], rest);
    Extended(s, [Plain(38), Plain(2), r, g, b], rest);
    Extended(s, [Plain(48), Plain(2), r, g, b], rest);
  }

  lemma Extended(s: Style, c: seq<Param>, rest: seq<Param>)
    requires |c| >= 3 && (c[0] == Plain(38) || c[0] == Plain(48))
    requires (|c| == 3 && c[1] == Plain(5)) || (|c| == 5 && c[1] == Plain(2))
    ensures ApplyParams(s, c + rest) == ApplyParams(SetColor(s, c[0].value, c), rest)
  {
    var all := c + rest;
    assert all[..|c|] == c && all[|c|..] == rest;
    assert ColorLength(all) == |c|;
  }
}
