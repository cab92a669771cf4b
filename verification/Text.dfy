/** Searching and splitting strings, as the stream splitters use them. */
module Text {

  predicate OccursAt(text: string, needle: string, i: nat) {
    i + |needle| <= |text| && text[i..i + |needle|] == needle
  }

  /** `text.indexOf(needle)` from position `from`: the first occurrence, or -1. */
  function IndexFrom(text: string, needle: string, from: nat): (r: int)
    ensures r == -1 || (from <= r && OccursAt(text, needle, r))
    ensures forall k: nat :: from <= k && (r == -1 || k < r) ==> !OccursAt(text, needle, k)
    decreases |text| - from
  {
    if from + |needle| > |text| then -1
    else if OccursAt(text, needle, from) then from
    else IndexFrom(text, needle, from + 1)
  }

  function IndexOf(text: string, needle: string): (r: int)
    ensures r == -1 || (0 <= r && OccursAt(text, needle, r))
    ensures forall k: nat :: (r == -1 || k < r) ==> !OccursAt(text, needle, k)
  {
    IndexFrom(text, needle, 0)
  }

  lemma OccursInPrefix(text: string, needle: string, n: nat, i: nat)
    requires n <= |text|
    ensures OccursAt(text[..n], needle, i) <==> i + |needle| <= n && OccursAt(text, needle, i)
  {
    if i + |needle| <= n {
      assert text[..n][i..i + |needle|] == text[i..i + |needle|];
    }
  }

  lemma OccursInSuffix(text: string, needle: string, n: nat, i: nat)
    requires n <= |text|
    ensures OccursAt(text[n..], needle, i) <==> OccursAt(text, needle, n + i)
  {
    if n + i + |needle| <= |text| {
      assert text[n..][i..i + |needle|] == text[n + i..n + i + |needle|];
    }
  }

  /** The index of a string's first occurrence is the only one with that property. */
  lemma FirstIs(text: string, needle: string, i: nat)
    requires OccursAt(text, needle, i) && forall k: nat :: k < i ==> !OccursAt(text, needle, k)
    ensures IndexOf(text, needle) == i
  {
  }

  /** An occurrence found in a prefix is the one found in the whole. */
  lemma FoundInPrefix(text: string, needle: string, n: nat)
    requires n <= |text|
    ensures IndexOf(text[..n], needle) != -1 ==> IndexOf(text, needle) == IndexOf(text[..n], needle)
    ensures IndexOf(text[..n], needle) == -1 ==> IndexOf(text, needle) == -1 || n < IndexOf(text, needle) + |needle|
  {
    forall k: nat ensures OccursAt(text[..n], needle, k) <==> k + |needle| <= n && OccursAt(text, needle, k) {
      OccursInPrefix(text, needle, n, k);
    }
    var i := IndexOf(text[..n], needle);
    if i != -1 {
      forall k: nat | k < i ensures !OccursAt(text, needle, k) {
        assert !OccursAt(text[..n], needle, k);
      }
      FirstIs(text, needle, i);
    } else if IndexOf(text, needle) != -1 {
      assert !OccursAt(text[..n], needle, IndexOf(text, needle));
    }
  }

  /** Dropping text before the first occurrence moves it forward. */
  lemma FoundInSuffix(text: string, needle: string, n: nat)
    requires n <= |text|
    ensures IndexOf(text, needle) == -1 ==> IndexOf(text[n..], needle) == -1
    ensures n <= IndexOf(text, needle) ==> IndexOf(text[n..], needle) == IndexOf(text, needle) - n
  {
    forall k: nat ensures OccursAt(text[n..], needle, k) <==> OccursAt(text, needle, n + k) {
      OccursInSuffix(text, needle, n, k);
    }
    var i := IndexOf(text, needle);
    if n <= i {
      assert OccursAt(text[n..], needle, i - n);
      forall k: nat | k < i - n ensures !OccursAt(text[n..], needle, k) {
        assert !OccursAt(text, needle, n + k);
      }
      FirstIs(text[n..], needle, i - n);
    }
  }

  /** The pieces of a string between separators; always at least one. */
  function Split(text: string, separator: char): (r: seq<string>)
    ensures |r| >= 1
  {
    if text == [] then [[]]
    else
      var rest := Split(text[1..], separator);
      if text[0] == separator then [[]] + rest else [[text[0]] + rest[0]] + rest[1..]
  }

  lemma {:induction false} SplitOnce(a: string, rest: string, separator: char)
    requires separator !in a
    ensures Split(a, separator) == [a] && Split(a + [separator] + rest, separator) == [a] + Split(rest, separator)
  {
    if a == "" {
      assert a + [separator] + rest == [separator] + rest && ([separator] + rest)[1..] == rest;
    } else {
      SplitOnce(a[1..], rest, separator);
      assert (a + [separator] + rest)[1..] == a[1..] + [separator] + rest;
      assert [a[0]] + a[1..] == a;
    }
  }

  /** The first piece, and what follows its separator. */
  lemma {:induction false} SplitFirst(text: string, separator: char)
    ensures var r := Split(text, separator);
            && separator !in r[0]
            && if |r| == 1 then text == r[0]
               else |r[0]| < |text| && text == r[0] + [separator] + text[|r[0]| + 1..]
                    && Split(text[|r[0]| + 1..], separator) == r[1..]
  {
    if text != "" {
      SplitFirst(text[1..], separator);
      var rest := Split(text[1..], separator);
      if text[0] == separator {
        assert ([[]] + rest)[1..] == rest;
      } else if |rest| > 1 {
        assert text[1..][|rest[0]| + 1..] == text[|rest[0]| + 2..];
        assert [text[0]] + (rest[0] + [separator] + text[|rest[0]| + 2..]) == text;
      }
    }
  }

  predicate Digits(text: string) {
    |text| > 0 && forall i :: 0 <= i < |text| ==> '0' <= text[i] <= '9'
  }

  /** White space, as far as it is modelled. */
  predicate IsSpace(c: char) { c == ' ' || c == '\t' || c == '\n' || c == '\r' }

  function TrimLeft(s: string): (r: string)
    ensures r == "" || !IsSpace(r[0])
    ensures s == "" || !IsSpace(s[0]) ==> r == s
    ensures r != "" ==> s != "" && r[|r| - 1] == s[|s| - 1]
  {
    if s != "" && IsSpace(s[0]) then TrimLeft(s[1..]) else s
  }

  function TrimRight(s: string): (r: string)
    ensures r == "" || !IsSpace(r[|r| - 1])
    ensures s == "" || !IsSpace(s[|s| - 1]) ==> r == s
    ensures r != "" ==> s != "" && r[0] == s[0]
  {
    if s != "" && IsSpace(s[|s| - 1]) then TrimRight(s[..|s| - 1]) else s
  }

  /** `strip()` and `trim()`: no white space at either end. */
  function Strip(s: string): (r: string)
    ensures r == "" || (!IsSpace(r[0]) && !IsSpace(r[|r| - 1]))
    ensures s == "" || (!IsSpace(s[0]) && !IsSpace(s[|s| - 1])) ==> r == s
  {
    TrimRight(TrimLeft(s))
  }
}
