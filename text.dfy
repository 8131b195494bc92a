/** The string operations the search filters use: `trim`, `toLowerCase`, `includes`
    and the rendering of a magnitude with `toString`. */
module Text {

  /** Case mapping and number rendering are not modelled character by character:
      `lowerChar` stands for the per-character effect of `String.prototype.toLowerCase`
      and `showNumber` for `Number.prototype.toString`. */
  datatype TextOps = TextOps(lowerChar: char -> char, showNumber: real -> string)

  /** The characters `String.prototype.trim` removes: ECMAScript's WhiteSpace and
      LineTerminator code points. */
  predicate IsWhitespace(c: char)
  {
    c == '\t' || c == '\n' || c == '\U{B}' || c == '\U{C}' || c == '\r' || c == ' '
    || c == '\U{A0}' || c == '\U{1680}' || ('\U{2000}' <= c <= '\U{200A}')
    || c == '\U{2028}' || c == '\U{2029}' || c == '\U{202F}' || c == '\U{205F}'
    || c == '\U{3000}' || c == '\U{FEFF}'
  }

  function TrimStart(s: string): string
  {
    if s != [] && IsWhitespace(s[0]) then TrimStart(s[1..]) else s
  }

  function TrimEnd(s: string): string
  {
    if s != [] && IsWhitespace(s[|s| - 1]) then TrimEnd(s[..|s| - 1]) else s
  }

  /** `String.prototype.trim`. */
  function Trim(s: string): string
  {
    TrimEnd(TrimStart(s))
  }

  /** `!s.trim()`: the term is empty after trimming. */
  predicate IsBlank(s: string)
  {
    Trim(s) == []
  }

  /** `String.prototype.toLowerCase`, applied character by character. */
  function Lower(ops: TextOps, s: string): string
  {
    seq(|s|, i requires 0 <= i < |s| => ops.lowerChar(s[i]))
  }

  /** `needle` occurs in `s` starting at position `i`. */
  predicate OccursAt(s: string, needle: string, i: int)
  {
    0 <= i && i + |needle| <= |s| && s[i..i + |needle|] == needle
  }

  /** `String.prototype.includes`: `needle` occurs in `s` at some position. */
  predicate Includes(s: string, needle: string)
  {
    exists i :: 0 <= i <= |s| && OccursAt(s, needle, i)
  }

  lemma {:induction false} TrimStartAllWhitespace(s: string)
    ensures TrimStart(s) == [] <==> forall i :: 0 <= i < |s| ==> IsWhitespace(s[i])
  {
    if s != [] {
      TrimStartAllWhitespace(s[1..]);
      if IsWhitespace(s[0]) {
        assert forall i :: 1 <= i < |s| ==> s[i] == s[1..][i - 1];
      }
    }
  }

  lemma {:induction false} TrimEndEmpty(s: string)
    ensures TrimEnd(s) == [] <==> forall i :: 0 <= i < |s| ==> IsWhitespace(s[i])
  {
    if s != [] {
      TrimEndEmpty(s[..|s| - 1]);
    }
  }

  lemma {:induction false} TrimStartKeepsNonWhitespace(s: string)
    ensures TrimStart(s) == [] || !IsWhitespace(TrimStart(s)[0])
  {
    if s != [] && IsWhitespace(s[0]) {
      TrimStartKeepsNonWhitespace(s[1..]);
    }
  }

  /** A term is blank exactly when every character of it is whitespace; in particular
      the empty string is blank. */
  lemma BlankIffAllWhitespace(s: string)
    ensures IsBlank(s) <==> forall i :: 0 <= i < |s| ==> IsWhitespace(s[i])
  {
    TrimStartAllWhitespace(s);
    TrimStartKeepsNonWhitespace(s);
    var t := TrimStart(s);
    TrimEndEmpty(t);
    if t != [] {
      assert !IsWhitespace(t[0]);
    }
  }
}
