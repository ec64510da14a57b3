/** The parts of JavaScript's regular expressions that the checkout scripts rely on. */
module Js {
  import opened Text

  /** The class `\s`: the ECMAScript WhiteSpace and LineTerminator characters (tab, line
      feed, vertical tab, form feed, carriage return, space, no-break space, the Zs
      spaces, line and paragraph separators and the byte order mark). */
  predicate IsSpace(c: char) {
    c == '\t' || c == '\n' || c == '\U{0B}' || c == '\U{0C}' || c == '\r' || c == ' '
    || c == '\U{00A0}' || c == '\U{1680}' || ('\U{2000}' <= c <= '\U{200A}')
    || c == '\U{2028}' || c == '\U{2029}' || c == '\U{202F}' || c == '\U{205F}'
    || c == '\U{3000}' || c == '\U{FEFF}'
  }

  predicate NotSpace(c: char) {
    !IsSpace(c)
  }

  /** `s.replace(/\s/g, '')` (and `s.replace(/\s+/g, '')`, which gives the same). */
  function StripSpaces(s: string): (r: string)
    ensures forall i :: 0 <= i < |r| ==> !IsSpace(r[i])
    ensures forall c :: c in r <==> c in s && !IsSpace(c)
  {
    Filter(s, NotSpace)
  }

  /** `s.replace(/[^0-9]/gi, '')`: only the ASCII digits remain, in order. */
  function KeepDigits(s: string): (r: string)
    ensures AllDigits(r)
    ensures forall c :: c in r <==> c in s && IsDigit(c)
  {
    Filter(s, IsDigit)
  }

  /** Whitespace is removed piece by piece: the result for `a + b` is the result for `a`
      followed by the result for `b`, so the kept characters keep their order and number. */
  lemma StripSpacesAppend(a: string, b: string)
    ensures StripSpaces(a + b) == StripSpaces(a) + StripSpaces(b)
  {
    FilterConcat(a, b, NotSpace);
  }

  /** A single character is dropped exactly when it is whitespace. */
  lemma StripSpacesChar(c: char)
    ensures StripSpaces([c]) == (if IsSpace(c) then [] else [c])
  {
  }

  /** Non-digits are removed piece by piece, so the digits keep their order and number. */
  lemma KeepDigitsAppend(a: string, b: string)
    ensures KeepDigits(a + b) == KeepDigits(a) + KeepDigits(b)
  {
    FilterConcat(a, b, IsDigit);
  }

  /** A single character is kept exactly when it is an ASCII digit. */
  lemma KeepDigitsChar(c: char)
    ensures KeepDigits([c]) == (if IsDigit(c) then [c] else [])
  {
  }

  /** Removing whitespace before dropping non-digits changes nothing: a digit is never
      whitespace. */
  lemma StripThenKeepDigits(s: string)
    ensures KeepDigits(StripSpaces(s)) == KeepDigits(s)
  {
    FilterNarrow(s, NotSpace, IsDigit);
  }
}
