/** String helpers shared by the PHP and JavaScript models: digit classes, filtering,
    splitting on a separator (PHP `explode`), joining (`implode` / `Array.join`) and
    cutting a string into fixed-width groups. */
module Text {
  import opened Prelude

  predicate IsDigit(c: char) {
    '0' <= c <= '9'
  }

  predicate AllDigits(s: string) {
    forall i :: 0 <= i < |s| ==> IsDigit(s[i])
  }

  /** The value of a decimal digit character. */
  function DigitValue(c: char): int {
    c as int - '0' as int
  }

  /** The character of the decimal digit `d`. */
  function Digit(d: int): char
    requires 0 <= d < 10
  {
    ('0' as int + d) as char
  }

  /** The characters of `s` that satisfy `keep`, in their original order. */
  function Filter(s: string, keep: char -> bool): (r: string)
    ensures |r| <= |s|
    ensures forall i :: 0 <= i < |r| ==> keep(r[i])
    ensures forall c :: c in r <==> c in s && keep(c)
  {
    if s == [] then [] else (if keep(s[0]) then [s[0]] else []) + Filter(s[1..], keep)
  }

  lemma {:induction false} FilterConcat(a: string, b: string, keep: char -> bool)
    ensures Filter(a + b, keep) == Filter(a, keep) + Filter(b, keep)
  {
    if a == [] {
      assert a + b == b;
    } else {
      assert (a + b)[1..] == a[1..] + b;
      FilterConcat(a[1..], b, keep);
    }
  }

  /** Filtering a string whose every character is kept changes nothing. */
  lemma {:induction false} FilterKeepsAll(s: string, keep: char -> bool)
    requires forall i :: 0 <= i < |s| ==> keep(s[i])
    ensures Filter(s, keep) == s
  {
    if s != [] {
      FilterKeepsAll(s[1..], keep);
    }
  }

  /** Filtering by a weaker predicate first and a stronger one after is the same as
      filtering by the stronger one alone. */
  lemma {:induction false} FilterNarrow(s: string, weak: char -> bool, strong: char -> bool)
    requires forall c :: strong(c) ==> weak(c)
    ensures Filter(Filter(s, weak), strong) == Filter(s, strong)
  {
    if s != [] {
      var head := if weak(s[0]) then [s[0]] else [];
      FilterConcat(head, Filter(s[1..], weak), strong);
      FilterNarrow(s[1..], weak, strong);
    }
  }

  /** PHP `explode(sep, s)` for a one-character separator: the maximal pieces between
      separators, always at least one (possibly empty) piece. */
  function Explode(s: string, sep: char): (r: seq<string>)
    ensures |r| >= 1
    ensures forall i :: 0 <= i < |r| ==> sep !in r[i]
  {
    if s == [] then [""]
    else
      var rest := Explode(s[1..], sep);
      if s[0] == sep then [""] + rest else [[s[0]] + rest[0]] + rest[1..]
  }

  /** The pieces joined with `sep` between consecutive pieces. */
  function Join(parts: seq<string>, sep: char): string {
    if |parts| == 0 then ""
    else if |parts| == 1 then parts[0]
    else parts[0] + [sep] + Join(parts[1..], sep)
  }

  /** Joining the pieces of `explode` restores the string. */
  lemma {:induction false} JoinExplode(s: string, sep: char)
    ensures Join(Explode(s, sep), sep) == s
  {
    if s != [] {
      var rest := Explode(s[1..], sep);
      JoinExplode(s[1..], sep);
      if s[0] == sep {
        assert ([""] + rest)[1..] == rest;
        assert s == [sep] + s[1..];
      } else {
        var parts := [[s[0]] + rest[0]] + rest[1..];
        if |rest| > 1 {
          assert parts[1..] == rest[1..];
        }
        assert s == [s[0]] + s[1..];
      }
    }
  }

  lemma {:induction false} ExplodeSeparatorFirst(t: string, sep: char)
    ensures Explode([sep] + t, sep) == [""] + Explode(t, sep)
  {
    assert ([sep] + t)[1..] == t;
  }

  /** A separator-free prefix sticks to the first piece. */
  lemma {:induction false} ExplodeAppend(a: string, t: string, sep: char)
    requires sep !in a
    ensures Explode(a + t, sep) == [a + Explode(t, sep)[0]] + Explode(t, sep)[1..]
  {
    if a == [] {
      assert a + t == t;
      var e := Explode(t, sep);
      assert a + e[0] == e[0];
      assert e == [e[0]] + e[1..];
    } else {
      assert (a + t)[1..] == a[1..] + t;
      assert (a + t)[0] == a[0];
      ExplodeAppend(a[1..], t, sep);
      assert [a[0]] + (a[1..] + Explode(t, sep)[0]) == a + Explode(t, sep)[0];
    }
  }

  /** Splitting a join of separator-free pieces gives back the pieces. */
  lemma {:induction false} ExplodeJoin(parts: seq<string>, sep: char)
    requires |parts| >= 1
    requires forall i :: 0 <= i < |parts| ==> sep !in parts[i]
    ensures Explode(Join(parts, sep), sep) == parts
  {
    if |parts| == 1 {
      ExplodeAppend(parts[0], "", sep);
      assert parts[0] + "" == parts[0];
    } else {
      var j := Join(parts[1..], sep);
      ExplodeJoin(parts[1..], sep);
      ExplodeSeparatorFirst(j, sep);
      assert parts[0] + [sep] + j == parts[0] + ([sep] + j);
      ExplodeAppend(parts[0], [sep] + j, sep);
      assert parts[0] + "" == parts[0];
      assert parts == [parts[0]] + parts[1..];
    }
  }

  /** Exactly two separator-free pieces around one separator. */
  lemma ExplodeTwo(a: string, b: string, sep: char)
    requires sep !in a && sep !in b
    ensures Explode(a + [sep] + b, sep) == [a, b]
  {
    assert Join([a, b], sep) == a + [sep] + b;
    ExplodeJoin([a, b], sep);
  }

  /** The string cut into consecutive groups of `width` characters; only the last group
      may be shorter. */
  function Chunks(s: string, width: nat): (r: seq<string>)
    requires width > 0
    ensures forall i :: 0 <= i < |r| ==> 0 < |r[i]| <= width
    ensures forall i :: 0 <= i < |r| - 1 ==> |r[i]| == width
    decreases |s|
  {
    if s == [] then [] else
      var k := Min(width, |s|);
      [s[..k]] + Chunks(s[k..], width)
  }

  function Concat(parts: seq<string>): string {
    if parts == [] then "" else parts[0] + Concat(parts[1..])
  }

  /** Gluing the groups back together restores the string. */
  lemma {:induction false} ConcatChunks(s: string, width: nat)
    requires width > 0
    ensures Concat(Chunks(s, width)) == s
    decreases |s|
  {
    if s != [] {
      var k := Min(width, |s|);
      ConcatChunks(s[k..], width);
      assert ([s[..k]] + Chunks(s[k..], width))[1..] == Chunks(s[k..], width);
      assert s == s[..k] + s[k..];
    }
  }

  /** Every group consists of characters of the string. */
  lemma {:induction false} ChunksOfDigits(s: string, width: nat)
    requires width > 0 && AllDigits(s)
    ensures forall i :: 0 <= i < |Chunks(s, width)| ==> AllDigits(Chunks(s, width)[i])
    decreases |s|
  {
    if s != [] {
      var k := Min(width, |s|);
      ChunksOfDigits(s[k..], width);
      var r := Chunks(s, width);
      forall i | 0 <= i < |r| ensures AllDigits(r[i]) {
        if i > 0 {
          assert r[i] == Chunks(s[k..], width)[i - 1];
        }
      }
    }
  }

  /** Every character of `s` satisfies `keep`. */
  predicate AllKept(s: string, keep: char -> bool) {
    forall j :: 0 <= j < |s| ==> keep(s[j])
  }

  /** Dropping the separators from a join keeps exactly the pieces' characters when the
      separator is the only thing dropped. */
  lemma {:induction false} FilterJoin(parts: seq<string>, sep: char, keep: char -> bool)
    requires !keep(sep)
    requires forall i :: 0 <= i < |parts| ==> AllKept(parts[i], keep)
    ensures Filter(Join(parts, sep), keep) == Concat(parts)
  {
    if |parts| == 1 {
      FilterKeepsAll(parts[0], keep);
      assert Concat(parts) == parts[0] + Concat(parts[1..]);
      assert parts[0] + "" == parts[0];
    } else if |parts| > 1 {
      var p, rest := parts[0], Join(parts[1..], sep);
      assert AllKept(p, keep);
      FilterJoin(parts[1..], sep, keep);
      FilterKeepsAll(p, keep);
      assert p + [sep] + rest == p + ([sep] + rest);
      FilterConcat(p, [sep] + rest, keep);
      FilterConcat([sep], rest, keep);
      assert Filter([sep], keep) == [];
    }
  }
}
