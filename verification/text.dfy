/**
 * The string primitives the chatbot leans on: Python's `str.lower()`,
 * the `in` substring test, `str.split('\n')`, `sep.join(...)`, slicing
 * and the regular-expression word splitter `re.findall(r'\b\w+\b', ...)`.
 * Strings are sequences of Unicode scalar values, as Python's `str` is a
 * sequence of code points, so lengths and slices agree with the source.
 */
module Text {

  // ---------------------------------------------------------------------
  // Lower-casing
  // ---------------------------------------------------------------------

  /** Lower-cases one character; only ASCII letters are folded. */
  function LowerChar(c: char): char
  {
    if 'A' <= c <= 'Z' then (c as int + 32) as char else c
  }

  /** `s.lower()`, restricted to ASCII folding (identity on Devanagari). */
  function Lower(s: string): string
  {
    seq(|s|, i requires 0 <= i < |s| => LowerChar(s[i]))
  }

  predicate IsUpper(c: char)
  {
    'A' <= c <= 'Z'
  }

  /** Lower-casing keeps the length, leaves no upper-case letter behind and
      changes no character that is not an ASCII capital. */
  lemma LowerSpec(s: string)
    ensures |Lower(s)| == |s|
    ensures forall i :: 0 <= i < |s| ==> !IsUpper(Lower(s)[i])
    ensures forall i :: 0 <= i < |s| && !IsUpper(s[i]) ==> Lower(s)[i] == s[i]
    ensures forall i :: 0 <= i < |s| && IsUpper(s[i]) ==> Lower(s)[i] as int == s[i] as int + 32
  {
  }

  /** Lower-casing twice is lower-casing once. */
  lemma LowerIdempotent(s: string)
    ensures Lower(Lower(s)) == Lower(s)
  {
  }

  // ---------------------------------------------------------------------
  // Substring test (`needle in hay`)
  // ---------------------------------------------------------------------

  /** Python's `needle in hay` on strings. */
  predicate Contains(hay: string, needle: string)
    decreases |hay|
  {
    needle <= hay || (hay != [] && Contains(hay[1..], needle))
  }

  /** `needle` occurs in `hay` starting at offset `i`. */
  predicate OccursAt(hay: string, needle: string, i: int)
  {
    0 <= i <= |hay| - |needle| && hay[i..i + |needle|] == needle
  }

  /** An occurrence at any offset makes `Contains` true. */
  lemma {:induction false} OccursContains(hay: string, needle: string, i: int)
    requires OccursAt(hay, needle, i)
    ensures Contains(hay, needle)
    decreases i
  {
    if i > 0 {
      assert OccursAt(hay[1..], needle, i - 1);
      OccursContains(hay[1..], needle, i - 1);
    }
  }

  /** `Contains` is witnessed by an offset. */
  lemma {:induction false} ContainsOccurs(hay: string, needle: string) returns (i: nat)
    requires Contains(hay, needle)
    ensures OccursAt(hay, needle, i)
    decreases |hay|
  {
    if needle <= hay {
      i := 0;
    } else {
      var j := ContainsOccurs(hay[1..], needle);
      i := j + 1;
      assert hay[1..][j..j + |needle|] == hay[i..i + |needle|];
    }
  }

  /** `Contains` holds exactly when the needle occurs at some offset. */
  lemma ContainsAt(hay: string, needle: string)
    ensures Contains(hay, needle) <==> exists i :: OccursAt(hay, needle, i)
  {
    if Contains(hay, needle) {
      var i := ContainsOccurs(hay, needle);
    }
    forall i | OccursAt(hay, needle, i)
      ensures Contains(hay, needle)
    {
      OccursContains(hay, needle, i);
    }
  }

  /** Every string contains each of its infixes. */
  lemma {:induction false} ContainsInfix(a: string, b: string, c: string)
    ensures Contains(a + b + c, b)
    decreases |a|
  {
    if a == [] {
      assert a + b + c == b + c;
    } else {
      assert (a + b + c)[1..] == a[1..] + b + c;
      ContainsInfix(a[1..], b, c);
    }
  }

  /** A string contained in a part of a larger string is contained in it. */
  lemma ContainsWithin(a: string, b: string, c: string, needle: string)
    requires Contains(b, needle)
    ensures Contains(a + b + c, needle)
  {
    ContainsAt(b, needle);
    var i :| OccursAt(b, needle, i);
    assert OccursAt(a + b + c, needle, |a| + i);
    ContainsAt(a + b + c, needle);
  }

  predicate EndsWith(s: string, suffix: string)
  {
    |suffix| <= |s| && s[|s| - |suffix|..] == suffix
  }

  lemma EndsWithAppend(a: string, b: string)
    ensures EndsWith(a + b, b)
  {
    assert (a + b)[|a + b| - |b|..] == b;
  }

  // ---------------------------------------------------------------------
  // Splitting and joining
  // ---------------------------------------------------------------------

  /** `s.split(sep)` for a one-character separator: never empty, and no
      piece holds the separator. */
  function Split(s: string, sep: char): (r: seq<string>)
    ensures |r| >= 1
    ensures forall k :: 0 <= k < |r| ==> sep !in r[k]
    decreases |s|
  {
    if s == [] then [""]
    else if s[0] == sep then [""] + Split(s[1..], sep)
    else
      var rest := Split(s[1..], sep);
      [[s[0]] + rest[0]] + rest[1..]
  }

  /** `sep.join(parts)`. */
  function Join(parts: seq<string>, sep: string): string
    decreases |parts|
  {
    if parts == [] then ""
    else if |parts| == 1 then parts[0]
    else parts[0] + sep + Join(parts[1..], sep)
  }

  /** Joining the pieces of a split with its separator gives the string back. */
  lemma {:induction false} JoinSplit(s: string, sep: char)
    ensures Join(Split(s, sep), [sep]) == s
    decreases |s|
  {
    if s == [] {
    } else if s[0] == sep {
      JoinSplit(s[1..], sep);
      var rest := Split(s[1..], sep);
      assert Split(s, sep) == [""] + rest;
      assert ([""] + rest)[1..] == rest;
    } else {
      JoinSplit(s[1..], sep);
      var rest := Split(s[1..], sep);
      var r := Split(s, sep);
      assert r[1..] == rest[1..];
      if |rest| == 1 {
      } else {
        assert Join(rest, [sep]) == rest[0] + [sep] + Join(rest[1..], [sep]);
        assert s == [s[0]] + s[1..];
      }
    }
  }

  /** Each part of a join occurs in the joined string. */
  lemma {:induction false} JoinContainsPart(parts: seq<string>, sep: string, k: nat)
    requires k < |parts|
    ensures Contains(Join(parts, sep), parts[k])
    decreases |parts|
  {
    if |parts| == 1 {
      ContainsInfix("", parts[0], "");
      assert "" + parts[0] + "" == parts[0];
    } else if k == 0 {
      ContainsInfix("", parts[0], sep + Join(parts[1..], sep));
      assert "" + parts[0] + (sep + Join(parts[1..], sep)) == Join(parts, sep);
    } else {
      JoinContainsPart(parts[1..], sep, k - 1);
      ContainsWithin(parts[0] + sep, Join(parts[1..], sep), "", parts[k]);
      assert parts[0] + sep + Join(parts[1..], sep) + "" == Join(parts, sep);
    }
  }

  /** The first `n` elements (Python's `xs[:n]`). */
  function Take<T>(xs: seq<T>, n: nat): (r: seq<T>)
  {
    if n <= |xs| then xs[..n] else xs
  }

  // ---------------------------------------------------------------------
  // Words (`re.findall(r'\b\w+\b', s)`)
  // ---------------------------------------------------------------------

  /** The characters `\w` matches, for the two scripts the chatbot serves:
      ASCII letters, digits and underscore, and the Devanagari letters and
      digits (vowel signs and other combining marks are not word characters,
      as in Python's `str.isalnum`). */
  predicate IsWordChar(c: char)
  {
    ('a' <= c <= 'z') || ('A' <= c <= 'Z') || ('0' <= c <= '9') || c == '_'
    || ('\U{0904}' <= c <= '\U{0939}') || c == '\U{093D}' || c == '\U{0950}'
    || ('\U{0958}' <= c <= '\U{0961}') || ('\U{0966}' <= c <= '\U{096F}')
    || ('\U{0971}' <= c <= '\U{097F}')
  }

  /** Length of the run of word characters that starts `s`. */
  function WordRun(s: string): (n: nat)
    ensures n <= |s|
    ensures forall i :: 0 <= i < n ==> IsWordChar(s[i])
    ensures n < |s| ==> !IsWordChar(s[n])
    decreases |s|
  {
    if s == [] || !IsWordChar(s[0]) then 0 else 1 + WordRun(s[1..])
  }

  /** `i` starts a word: a word character not preceded by one (`\b\w`). */
  predicate RunStart(s: string, i: int)
  {
    0 <= i < |s| && IsWordChar(s[i]) && (i == 0 || !IsWordChar(s[i - 1]))
  }

  /** The indexes before `upto` that start a word, in increasing order. */
  function WordStarts(s: string, upto: nat): (st: seq<nat>)
    requires upto <= |s|
    ensures forall k :: 0 <= k < |st| ==> st[k] < upto && RunStart(s, st[k])
    ensures forall k, m :: 0 <= k < m < |st| ==> st[k] < st[m]
    ensures forall i :: 0 <= i < upto && RunStart(s, i) ==> i in st
    decreases upto
  {
    if upto == 0 then []
    else
      var front := WordStarts(s, upto - 1);
      if RunStart(s, upto - 1) then front + [upto - 1] else front
  }

  /** `w` is the whole run of word characters that starts at index `i`
      of `s`: non-empty, made of word characters, and followed by the end
      of `s` or by a character that is not a word character. */
  predicate MaximalWordAt(s: string, i: nat, w: string)
  {
    w != [] && i + |w| <= |s| && w == s[i..i + |w|] &&
    (forall j :: 0 <= j < |w| ==> IsWordChar(w[j])) &&
    (i + |w| < |s| ==> !IsWordChar(s[i + |w|]))
  }

  /** The run of word characters that starts at index `i`. */
  function WordAt(s: string, i: nat): (w: string)
    requires i < |s| && IsWordChar(s[i])
    ensures MaximalWordAt(s, i, w)
  {
    var t := s[i..];
    var n := WordRun(t);
    assert t[0] == s[i] && n >= 1;
    assert t[..n] == s[i..i + n];
    assert n < |t| ==> t[n] == s[i + n];
    t[..n]
  }

  /** `re.findall(r'\b\w+\b', s)`: one word per word start, left to right;
      the k-th word is the whole run of word characters at the k-th start. */
  function Words(s: string): (ws: seq<string>)
    ensures |ws| == |WordStarts(s, |s|)|
    ensures forall k :: 0 <= k < |ws| ==> MaximalWordAt(s, WordStarts(s, |s|)[k], ws[k])
  {
    var st := WordStarts(s, |s|);
    seq(|st|, k requires 0 <= k < |st| => WordAt(s, st[k]))
  }
}
