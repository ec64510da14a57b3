/** The parts of PHP's semantics that the plugin's server code relies on: `empty()` on a
    string, the PCRE `\s` class, `trim`, `substr($s, 0, n)`, the `$` anchor, decoded JSON
    values and the `isset` / `??` lookups on them. PHP strings are byte strings; here a
    string is a sequence of `char`, one `char` per byte. */
module Php {
  import opened Prelude
  import opened Text

  /** `empty($s)` for a string (or a missing value read as null): true for "" and "0". */
  predicate Empty(s: string) {
    s == "" || s == "0"
  }

  /** The PCRE class `\s` without the `u` modifier: space, tab, line feed, vertical tab,
      form feed and carriage return. */
  predicate IsSpace(c: char) {
    c == ' ' || c == '\t' || c == '\n' || c == '\U{0B}' || c == '\U{0C}' || c == '\r'
  }

  predicate NotSpace(c: char) {
    !IsSpace(c)
  }

  /** `preg_replace('/\s+/', '', s)`: every run of whitespace removed. */
  function StripSpaces(s: string): (r: string)
    ensures forall i :: 0 <= i < |r| ==> !IsSpace(r[i])
    ensures forall c :: c in r <==> c in s && !IsSpace(c)
    ensures (forall i :: 0 <= i < |s| ==> !IsSpace(s[i])) ==> r == s
  {
    FilterKeepsAllWhenNoSpace(s);
    Filter(s, NotSpace)
  }

  /** Whitespace is removed piece by piece: what remains of `a + b` is what remains of `a`
      followed by what remains of `b`, so the kept characters stay in order. */
  lemma StripSpacesAppend(a: string, b: string)
    ensures StripSpaces(a + b) == StripSpaces(a) + StripSpaces(b)
  {
    FilterConcat(a, b, NotSpace);
  }

  /** A single character is dropped exactly when it is whitespace. */
  lemma StripSpacesChar(c: char)
    ensures StripSpaces([c]) == (if IsSpace(c) then [] else [c])
  {
  }

  lemma FilterKeepsAllWhenNoSpace(s: string)
    ensures (forall i :: 0 <= i < |s| ==> !IsSpace(s[i])) ==> Filter(s, NotSpace) == s
  {
    if forall i :: 0 <= i < |s| ==> !IsSpace(s[i]) {
      FilterKeepsAll(s, NotSpace);
    }
  }

  predicate NotAsciiSpace(c: char) {
    c != ' '
  }

  /** `str_replace(' ', '', s)`: only the ASCII space is removed. */
  function RemoveAsciiSpaces(s: string): (r: string)
    ensures ' ' !in r
    ensures forall c :: c != ' ' ==> (c in r <==> c in s)
  {
    Filter(s, NotAsciiSpace)
  }

  /** ASCII spaces are removed piece by piece, so the other characters stay in order and
      keep their number. */
  lemma RemoveAsciiSpacesAppend(a: string, b: string)
    ensures RemoveAsciiSpaces(a + b) == RemoveAsciiSpaces(a) + RemoveAsciiSpaces(b)
  {
    FilterConcat(a, b, NotAsciiSpace);
  }

  /** A single character is dropped exactly when it is the ASCII space. */
  lemma RemoveAsciiSpacesChar(c: char)
    ensures RemoveAsciiSpaces([c]) == (if c == ' ' then [] else [c])
  {
  }

  /** The characters `trim` strips by default: space, tab, line feed, carriage return,
      NUL and vertical tab. */
  predicate IsTrimmed(c: char) {
    c == ' ' || c == '\t' || c == '\n' || c == '\r' || c == '\0' || c == '\U{0B}'
  }

  function TrimLeft(s: string): (r: string)
    ensures |r| <= |s| && r == s[|s| - |r|..]
    ensures forall i :: 0 <= i < |s| - |r| ==> IsTrimmed(s[i])
    ensures r == [] || !IsTrimmed(r[0])
  {
    if s != [] && IsTrimmed(s[0]) then TrimLeft(s[1..]) else s
  }

  function TrimRight(s: string): (r: string)
    ensures |r| <= |s| && r == s[..|r|]
    ensures forall i :: |r| <= i < |s| ==> IsTrimmed(s[i])
    ensures r == [] || !IsTrimmed(r[|r| - 1])
  {
    if s != [] && IsTrimmed(s[|s| - 1]) then TrimRight(s[..|s| - 1]) else s
  }

  /** `trim(s)`: the longest middle part of `s` that neither starts nor ends with one of
      the stripped characters. */
  function Trim(s: string): (r: string)
    ensures r == [] || (!IsTrimmed(r[0]) && !IsTrimmed(r[|r| - 1]))
    ensures exists i, j ::
              && 0 <= i <= j <= |s| && r == s[i..j]
              && (forall k :: 0 <= k < i ==> IsTrimmed(s[k]))
              && (forall k :: j <= k < |s| ==> IsTrimmed(s[k]))
  {
    var left := TrimLeft(s);
    var r := TrimRight(left);
    var i := |s| - |left|;
    assert r == s[i..i + |r|];
    assert forall k :: i + |r| <= k < |s| ==> s[k] == left[k - i];
    r
  }

  /** `substr(s, 0, n)`: the first `n` bytes, or the whole string when it is shorter. */
  function Prefix(s: string, n: nat): (r: string)
    ensures |r| == Min(n, |s|) && r == s[..|r|]
  {
    s[..Min(n, |s|)]
  }

  /** `preg_match('/^P$/', s)` for a pattern body P that matches exactly the strings
      satisfying `shape`: PCRE's `$` (without the D modifier) also matches just before
      a final line feed. */
  predicate PregMatches(shape: string -> bool, s: string) {
    shape(s) || (|s| > 0 && s[|s| - 1] == '\n' && shape(s[..|s| - 1]))
  }

  /** A value produced by `json_decode($body, true)`. Objects and lists both decode to a
      PHP array, here a map with string keys. */
  datatype Json =
    | JNull
    | JBool(b: bool)
    | JInt(i: int)
    | JFloat(text: string)   // a float, with the text PHP prints for it
    | JString(s: string)
    | JArray(entries: map<string, Json>)

  /** `$data[$key]` as `isset` and `??` see it: absent when `$data` is not an array,
      when the key is missing or when its value is null. */
  function Lookup(data: Option<map<string, Json>>, key: string): (r: Option<Json>)
    ensures r.Some? <==> data.Some? && key in data.value && data.value[key] != JNull
    ensures r.Some? ==> r.value == data.value[key]
  {
    if data.Some? && key in data.value && data.value[key] != JNull then Some(data.value[key]) else None
  }

  /** `$data[$key] ?? $default`. */
  function Coalesce(v: Option<Json>, default: Json): Json {
    v.GetOr(default)
  }

  /** The number a string of decimal digits denotes, most significant digit first. */
  function DecimalValue(s: string): int {
    if s == [] then 0 else 10 * DecimalValue(s[..|s| - 1]) + DigitValue(s[|s| - 1])
  }

  /** The decimal digits of `n`, as PHP prints an integer. */
  function NatText(n: nat): (r: string)
    ensures |r| >= 1 && AllDigits(r)
  {
    if n < 10 then [Digit(n)] else NatText(n / 10) + [Digit(n % 10)]
  }

  /** The printed digits denote the number, and only 0 is printed with a leading "0". */
  lemma {:induction false} NatTextValue(n: nat)
    ensures DecimalValue(NatText(n)) == n
    ensures NatText(n)[0] == '0' ==> n == 0
    decreases n
  {
    if n >= 10 {
      NatTextValue(n / 10);
      var t := NatText(n);
      assert t[..|t| - 1] == NatText(n / 10);
    }
  }

  /** The string PHP's `.` operator makes of a value. */
  function ToText(v: Json): string {
    match v
    case JNull => ""
    case JBool(b) => if b then "1" else ""
    case JInt(i) => if i < 0 then "-" + NatText(-i) else NatText(i)
    case JFloat(t) => t
    case JString(s) => s
    case JArray(_) => "Array"
  }
}
