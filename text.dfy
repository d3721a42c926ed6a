/** Character and string helpers shared by the services and the browser helpers. */
module Text {

  function LowerChar(c: char): char
  {
    if 'A' <= c <= 'Z' then (c as int + 32) as char else c
  }

  function UpperChar(c: char): char
  {
    if 'a' <= c <= 'z' then (c as int - 32) as char else c
  }

  /** ASCII case folding (what `.lower()` does on the ASCII letters). */
  function Lower(s: string): (r: string)
    ensures |r| == |s|
    ensures forall i :: 0 <= i < |s| ==> r[i] == LowerChar(s[i])
  {
    if s == [] then [] else [LowerChar(s[0])] + Lower(s[1..])
  }

  /** ASCII upper-casing (what `.upper()` does on the ASCII letters). */
  function Upper(s: string): (r: string)
    ensures |r| == |s|
    ensures forall i :: 0 <= i < |s| ==> r[i] == UpperChar(s[i])
  {
    if s == [] then [] else [UpperChar(s[0])] + Upper(s[1..])
  }

  /** `sub` occurs somewhere in `s` (Python `sub in s`). */
  predicate Contains(s: string, sub: string)
  {
    sub <= s || (s != [] && Contains(s[1..], sub))
  }

  predicate IsDigit(c: char)
  {
    '0' <= c <= '9'
  }

  /** The characters JavaScript's `\s` and `String.prototype.trim` treat as white space. */
  predicate IsJsSpace(c: char)
  {
    c == ' ' || c == '\t' || c == '\n' || c == '\r' || c == '\U{000B}' || c == '\U{000C}'
    || c == '\U{00A0}' || c == '\U{1680}' || ('\U{2000}' <= c <= '\U{200A}')
    || c == '\U{2028}' || c == '\U{2029}' || c == '\U{202F}' || c == '\U{205F}'
    || c == '\U{3000}' || c == '\U{FEFF}'
  }
}
