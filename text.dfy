/** The JavaScript string built-ins the marketplace script relies on:
    `toLowerCase`, `Array.prototype.join`, `String.prototype.includes` and
    the whitespace class `\s` of regular expressions. */
module Text {

  /** An ASCII upper-case letter. */
  predicate IsUpper(c: char) {
    'A' <= c <= 'Z'
  }

  /** `toLowerCase` on one character (ASCII letters only). */
  function LowerChar(c: char): (d: char)
    ensures !IsUpper(d)
    ensures !IsUpper(c) ==> d == c
    ensures IsUpper(c) ==> 'a' <= d <= 'z' && d as int - 'a' as int == c as int - 'A' as int
  {
    if IsUpper(c) then (c as int - 'A' as int + 'a' as int) as char else c
  }

  /** `s.toLowerCase()`: every character lowered in place, length kept. */
  function Lower(s: string): string {
    seq(|s|, i requires 0 <= i < |s| => LowerChar(s[i]))
  }

  /** A string with no ASCII upper-case letter. */
  predicate IsLowered(s: string) {
    forall i :: 0 <= i < |s| ==> !IsUpper(s[i])
  }

  lemma LowerIsLowered(s: string)
    ensures IsLowered(Lower(s))
    ensures IsLowered(s) ==> Lower(s) == s
  {
  }

  /** Lower-casing is idempotent. */
  lemma LowerIdempotent(s: string)
    ensures Lower(Lower(s)) == Lower(s)
  {
    LowerIsLowered(Lower(s));
  }

  /** Lower-casing a concatenation lower-cases each part. */
  lemma LowerAppend(a: string, b: string)
    ensures Lower(a + b) == Lower(a) + Lower(b)
  {
    assert forall i :: 0 <= i < |a + b| ==> Lower(a + b)[i] == (Lower(a) + Lower(b))[i];
  }

  /** `parts.join(sep)`: the empty list joins to "", one part to itself. */
  function Join(parts: seq<string>, sep: string): string
  {
    if |parts| == 0 then ""
    else if |parts| == 1 then parts[0]
    else parts[0] + sep + Join(parts[1..], sep)
  }

  /** `parts.map(p => p.toLowerCase())`. */
  function LowerEach(parts: seq<string>): seq<string>
  {
    seq(|parts|, i requires 0 <= i < |parts| => Lower(parts[i]))
  }

  /** Lower-casing the parts and then joining with a separator that has no
      upper-case letter gives the lower-cased join. */
  lemma {:induction false} LowerJoin(parts: seq<string>, sep: string)
    requires IsLowered(sep)
    ensures Join(LowerEach(parts), sep) == Lower(Join(parts, sep))
  {
    if |parts| > 1 {
      LowerJoin(parts[1..], sep);
      assert LowerEach(parts[1..]) == LowerEach(parts)[1..];
      LowerIsLowered(sep);
      LowerAppend(parts[0], sep);
      LowerAppend(parts[0] + sep, Join(parts[1..], sep));
    }
  }

  /** `q` occurs in `text` starting at index `i`. */
  predicate OccursAt(q: string, text: string, i: int) {
    0 <= i && i + |q| <= |text| && text[i..i + |q|] == q
  }

  /** `q` is a substring of `text`: the meaning of `text.includes(q)`. */
  ghost predicate IsSubstring(q: string, text: string) {
    exists i :: OccursAt(q, text, i)
  }

  /** When `q` does not start `text`, it occurs in `text` iff in its tail. */
  lemma SubstringOfTail(q: string, text: string)
    requires |text| > 0 && !OccursAt(q, text, 0)
    ensures IsSubstring(q, text) <==> IsSubstring(q, text[1..])
  {
    if IsSubstring(q, text) {
      var i :| OccursAt(q, text, i);
      assert text[1..][i - 1..i - 1 + |q|] == text[i..i + |q|];
      assert OccursAt(q, text[1..], i - 1);
    }
    if IsSubstring(q, text[1..]) {
      var i :| OccursAt(q, text[1..], i);
      assert text[1..][i..i + |q|] == text[i + 1..i + 1 + |q|];
      assert OccursAt(q, text, i + 1);
    }
  }

  /** `text.includes(q)`, decided by scanning the start positions. */
  function Includes(text: string, q: string): (r: bool)
    ensures r <==> IsSubstring(q, text)
    decreases |text|
  {
    if |text| < |q| then false
    else if text[..|q|] == q then
      assert OccursAt(q, text, 0);
      true
    else
      SubstringOfTail(q, text);
      Includes(text[1..], q)
  }

  /** Every string includes the empty string. */
  lemma IncludesEmpty(text: string)
    ensures Includes(text, "")
  {
    assert OccursAt("", text, 0);
  }

  /** A character of the ECMAScript `\s` class: WhiteSpace or LineTerminator. */
  predicate IsWhitespace(c: char) {
    || c == '\t' || c == '\n' || c == '\U{000B}' || c == '\U{000C}' || c == '\r'
    || c == ' ' || c == '\U{00A0}' || c == '\U{1680}'
    || ('\U{2000}' <= c <= '\U{200A}')
    || c == '\U{2028}' || c == '\U{2029}' || c == '\U{202F}' || c == '\U{205F}'
    || c == '\U{3000}' || c == '\U{FEFF}'
  }

  predicate HasNoWhitespace(s: string) {
    forall i :: 0 <= i < |s| ==> !IsWhitespace(s[i])
  }

  /** Concatenation keeps strings free of whitespace and of upper case. */
  lemma AppendClean(a: string, b: string)
    ensures HasNoWhitespace(a) && HasNoWhitespace(b) ==> HasNoWhitespace(a + b)
    ensures IsLowered(a) && IsLowered(b) ==> IsLowered(a + b)
  {
  }

  /** `s.replace(/\s+/g, '')`: drops every whitespace character and keeps the
      rest in order. */
  function RemoveWhitespace(s: string): (r: string)
    ensures |r| <= |s|
    ensures HasNoWhitespace(r)
    ensures HasNoWhitespace(s) ==> r == s
    ensures IsLowered(s) ==> IsLowered(r)
  {
    if s == [] then []
    else if IsWhitespace(s[0]) then RemoveWhitespace(s[1..])
    else [s[0]] + RemoveWhitespace(s[1..])
  }

  /** Removing whitespace from a concatenation removes it from each part. */
  lemma {:induction false} RemoveWhitespaceAppend(a: string, b: string)
    ensures RemoveWhitespace(a + b) == RemoveWhitespace(a) + RemoveWhitespace(b)
  {
    if a != [] {
      assert (a + b)[1..] == a[1..] + b;
      RemoveWhitespaceAppend(a[1..], b);
    } else {
      assert a + b == b;
    }
  }
}
