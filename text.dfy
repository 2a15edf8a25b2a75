/**
 * String helpers shared by the step screens: the `replace(/\D/g, '')` digit
 * filter, `slice`, `trim().split(/\s+/).filter(Boolean)`, ASCII upper-casing
 * and `charAt(0).toUpperCase() + slice(1)`.
 */
module Text {

  /** `\d` of a JavaScript regular expression without the `u` flag. */
  predicate IsDigit(c: char) {
    '0' <= c <= '9'
  }

  predicate AllDigits(s: string) {
    forall i :: 0 <= i < |s| ==> IsDigit(s[i])
  }

  /** `s.replace(/\D/g, '')`: keeps the digits of `s`, in order. */
  function DigitsOnly(s: string): (r: string)
    ensures AllDigits(r)
    ensures |r| <= |s|
    ensures AllDigits(s) ==> r == s
  {
    if s == [] then []
    else if IsDigit(s[0]) then [s[0]] + DigitsOnly(s[1..])
    else DigitsOnly(s[1..])
  }

  /** Filtering distributes over concatenation. */
  lemma {:induction false} DigitsOnlyAppend(a: string, b: string)
    ensures DigitsOnly(a + b) == DigitsOnly(a) + DigitsOnly(b)
  {
    if a == [] {
      assert a + b == b;
    } else {
      assert (a + b)[1..] == a[1..] + b;
      DigitsOnlyAppend(a[1..], b);
    }
  }

  /** A digit is kept exactly when it occurs in the input. */
  lemma {:induction false} DigitsOnlyMembers(s: string, c: char)
    ensures c in DigitsOnly(s) <==> c in s && IsDigit(c)
  {
    if s != [] {
      DigitsOnlyMembers(s[1..], c);
      assert s == [s[0]] + s[1..];
    }
  }

  function Min(a: int, b: int): int {
    if a <= b then a else b
  }

  /** `s.slice(0, n)` for `n >= 0`: the first `n` characters, or all of them. */
  function Take(s: string, n: nat): (r: string)
    ensures |r| == Min(n, |s|)
    ensures r <= s
    ensures |s| <= n ==> r == s
  {
    s[..Min(n, |s|)]
  }

  /**
   * `value.replace(/\D/g, '').slice(0, limit)`, the filter of every numeric
   * input: the first `limit` digits of `value`, in order.
   */
  function DigitsUpTo(value: string, limit: nat): (r: string)
    ensures AllDigits(r) && r <= DigitsOnly(value)
    ensures |r| == Min(limit, |DigitsOnly(value)|)
  {
    Take(DigitsOnly(value), limit)
  }

  /** `s.slice(n)` for `n >= 0`: everything after the first `n` characters. */
  function Drop(s: string, n: nat): (r: string)
    ensures |r| == |s| - Min(n, |s|)
    ensures Take(s, n) + r == s
  {
    s[Min(n, |s|)..]
  }

  /** The characters the JavaScript class `\s` matches (and `trim` removes). */
  predicate IsSpace(c: char) {
    c == ' ' || c == '\t' || c == '\n' || c == '\r' || c == '\U{B}' || c == '\U{C}'
    || c == '\U{A0}' || c == '\U{1680}' || ('\U{2000}' <= c <= '\U{200A}')
    || c == '\U{2028}' || c == '\U{2029}' || c == '\U{202F}' || c == '\U{205F}'
    || c == '\U{3000}' || c == '\U{FEFF}'
  }

  predicate NoSpace(s: string) {
    forall i :: 0 <= i < |s| ==> !IsSpace(s[i])
  }

  /** The longest prefix of `s` without white space. */
  function Word(s: string): (w: string)
    ensures w <= s && NoSpace(w)
    ensures |w| < |s| ==> IsSpace(s[|w|])
  {
    if s == [] || IsSpace(s[0]) then [] else [s[0]] + Word(s[1..])
  }

  /**
   * `s.trim().split(/\s+/).filter(Boolean)`: the maximal runs of non-space
   * characters of `s`, in order.
   */
  function Words(s: string): (ws: seq<string>)
    ensures forall i :: 0 <= i < |ws| ==> ws[i] != [] && NoSpace(ws[i])
    decreases |s|
  {
    if s == [] then []
    else if IsSpace(s[0]) then Words(s[1..])
    else
      var w := Word(s);
      [w] + Words(s[|w|..])
  }

  /** `s.trim()`: white space removed from both ends. */
  function Trim(s: string): (r: string)
    ensures |r| <= |s|
    ensures r == [] || (!IsSpace(r[0]) && !IsSpace(r[|r| - 1]))
    decreases |s|
  {
    if s == [] then []
    else if IsSpace(s[0]) then Trim(s[1..])
    else if IsSpace(s[|s| - 1]) then Trim(s[..|s| - 1])
    else s
  }

  /** A word stops at the first white space, whatever follows it. */
  lemma {:induction false} WordStopsAtSpace(a: string, c: char, b: string)
    requires IsSpace(c)
    ensures Word(a + [c] + b) == Word(a)
    decreases |a|
  {
    if a == [] {
      assert (a + [c] + b)[0] == c;
    } else if !IsSpace(a[0]) {
      assert (a + [c] + b)[1..] == a[1..] + [c] + b;
      WordStopsAtSpace(a[1..], c, b);
    }
  }

  /** Non-empty text without white space is one word. */
  lemma {:induction false} WordsOfWord(s: string)
    requires s != [] && NoSpace(s)
    ensures Word(s) == s && Words(s) == [s]
    decreases |s|
  {
    if |s| > 1 {
      WordsOfWord(s[1..]);
    }
    assert s[|Word(s)|..] == [];
  }

  /**
   * White space separates words: the words of `a`, a white-space character
   * and `b` are the words of `a` followed by the words of `b`. With
   * `WordsOfWord` and `Words([]) == []` this determines `Words` completely.
   */
  lemma {:induction false} WordsSplit(a: string, c: char, b: string)
    requires IsSpace(c)
    ensures Words(a + [c] + b) == Words(a) + Words(b)
    decreases |a|
  {
    var s := a + [c] + b;
    if a == [] {
      assert s[0] == c && s[1..] == b;
    } else if IsSpace(a[0]) {
      assert s[1..] == a[1..] + [c] + b;
      WordsSplit(a[1..], c, b);
    } else {
      WordStopsAtSpace(a, c, b);
      var w := Word(a);
      assert s[|w|..] == a[|w|..] + [c] + b;
      WordsSplit(a[|w|..], c, b);
    }
  }

  /** The characters of `s` that are not white space, in order. */
  function NonSpace(s: string): (r: string)
    ensures |r| <= |s| && NoSpace(r)
  {
    if s == [] then [] else (if IsSpace(s[0]) then [] else [s[0]]) + NonSpace(s[1..])
  }

  function Concat(ws: seq<string>): string {
    if ws == [] then [] else ws[0] + Concat(ws[1..])
  }

  lemma {:induction false} NonSpaceAppend(a: string, b: string)
    ensures NonSpace(a + b) == NonSpace(a) + NonSpace(b)
    decreases |a|
  {
    if a != [] {
      var head := if IsSpace(a[0]) then [] else [a[0]];
      assert (a + b)[0] == a[0] && (a + b)[1..] == a[1..] + b;
      NonSpaceAppend(a[1..], b);
      assert NonSpace(a + b) == head + (NonSpace(a[1..]) + NonSpace(b));
    } else {
      assert a + b == b;
    }
  }

  lemma {:induction false} NonSpaceKeeps(s: string)
    requires NoSpace(s)
    ensures NonSpace(s) == s
    decreases |s|
  {
    if s != [] {
      NonSpaceKeeps(s[1..]);
    }
  }

  /** The words together hold exactly the non-space characters of `s`, in order: nothing else is dropped. */
  lemma {:induction false} WordsCover(s: string)
    ensures Concat(Words(s)) == NonSpace(s)
    decreases |s|
  {
    if s == [] {
    } else if IsSpace(s[0]) {
      WordsCover(s[1..]);
    } else {
      var w := Word(s);
      var rest := s[|w|..];
      assert s == w + rest;
      WordsCover(rest);
      NonSpaceAppend(w, rest);
      NonSpaceKeeps(w);
      assert Words(s) == [w] + Words(rest);
      assert Concat(Words(s)) == w + Concat(Words(rest));
    }
  }

  /** `Trim(s)` is the slice `s[i..j]`, with only white space before `i` and from `j` on. */
  predicate TrimmedAt(s: string, i: int, j: int) {
    && 0 <= i <= j <= |s| && Trim(s) == s[i..j]
    && (forall k :: 0 <= k < i ==> IsSpace(s[k]))
    && (forall k :: j <= k < |s| ==> IsSpace(s[k]))
  }

  lemma TrimFront(s: string, i: int, j: int)
    requires s != [] && IsSpace(s[0]) && TrimmedAt(s[1..], i, j)
    ensures TrimmedAt(s, i + 1, j + 1)
  {
    var t := s[1..];
    assert Trim(s) == Trim(t) == s[i + 1..j + 1];
    forall k | 0 <= k < i + 1
      ensures IsSpace(s[k])
    {
      if k > 0 {
        assert s[k] == t[k - 1];
      }
    }
    forall k | j + 1 <= k < |s|
      ensures IsSpace(s[k])
    {
      assert s[k] == t[k - 1];
    }
  }

  lemma TrimBack(s: string, i: int, j: int)
    requires s != [] && !IsSpace(s[0]) && IsSpace(s[|s| - 1]) && TrimmedAt(s[..|s| - 1], i, j)
    ensures TrimmedAt(s, i, j)
  {
    var t := s[..|s| - 1];
    assert Trim(s) == Trim(t) == s[i..j];
    assert t[0] == s[0];
    forall k | j <= k < |s|
      ensures IsSpace(s[k])
    {
      if k < |s| - 1 {
        assert s[k] == t[k];
      }
    }
  }

  /**
   * `trim` removes white space at the two ends and nothing else: the result
   * is a slice of `s` with only white space before and after it.
   */
  lemma {:induction false} TrimIsSlice(s: string)
    ensures exists i, j :: TrimmedAt(s, i, j)
    decreases |s|
  {
    if s == [] {
      assert TrimmedAt(s, 0, 0);
    } else if IsSpace(s[0]) {
      TrimIsSlice(s[1..]);
      var i, j :| TrimmedAt(s[1..], i, j);
      TrimFront(s, i, j);
    } else if IsSpace(s[|s| - 1]) {
      TrimIsSlice(s[..|s| - 1]);
      var i, j :| TrimmedAt(s[..|s| - 1], i, j);
      TrimBack(s, i, j);
    } else {
      assert TrimmedAt(s, 0, |s|);
    }
  }

  /** Text that neither starts nor ends with white space is its own trim. */
  lemma TrimKeeps(s: string)
    requires s != [] && !IsSpace(s[0]) && !IsSpace(s[|s| - 1])
    ensures Trim(s) == s
  {
  }

  /** ASCII `toUpperCase` of one character. */
  function UpperChar(c: char): char {
    if 'a' <= c <= 'z' then (c as int - 32) as char else c
  }

  /** `s.toUpperCase()` on ASCII letters. */
  function ToUpper(s: string): (r: string)
    ensures |r| == |s|
    ensures forall i :: 0 <= i < |s| ==> r[i] == UpperChar(s[i])
  {
    if s == [] then [] else [UpperChar(s[0])] + ToUpper(s[1..])
  }

  /** `s.charAt(0).toUpperCase() + s.slice(1)`. */
  function Capitalize(s: string): (r: string)
    ensures |r| == |s|
    ensures s != [] ==> r[0] == UpperChar(s[0]) && r[1..] == s[1..]
  {
    if s == [] then [] else [UpperChar(s[0])] + s[1..]
  }
}
