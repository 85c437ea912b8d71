/**
 * String operations the source takes from Python's `str` and JavaScript's `String`:
 * strip/trim, split on one character, join, ASCII case mapping, prefix and substring tests.
 * Strings are sequences of characters; the whitespace sets are written out exactly,
 * case mapping covers ASCII letters only. The operations are defined by recursion over
 * indices, and what they mean is stated in the lemmas next to them.
 */
module Text {

  /** Characters for which Python's `str.isspace()` holds; `str.strip()` and the regex class `\s` use the same set. */
  predicate IsPySpace(c: char) {
    || 9 <= c as int <= 13 || 28 <= c as int <= 32
    || c as int == 0x85 || c as int == 0xA0 || c as int == 0x1680
    || 0x2000 <= c as int <= 0x200A || c as int == 0x2028 || c as int == 0x2029
    || c as int == 0x202F || c as int == 0x205F || c as int == 0x3000
  }

  /** Characters JavaScript's `String.prototype.trim` removes (white space and line terminators). */
  predicate IsJsSpace(c: char) {
    || 9 <= c as int <= 13 || c == ' '
    || c as int == 0xA0 || c as int == 0x1680
    || 0x2000 <= c as int <= 0x200A || c as int == 0x2028 || c as int == 0x2029
    || c as int == 0x202F || c as int == 0x205F || c as int == 0x3000 || c as int == 0xFEFF
  }

  /** Which language's notion of white space a trimming operation uses. */
  datatype Spaces = PySpaces | JsSpaces

  predicate IsSpace(ws: Spaces, c: char) {
    match ws
    case PySpaces => IsPySpace(c)
    case JsSpaces => IsJsSpace(c)
  }

  /** The characters of `s` from `i` up to `j`, built one character at a time. */
  function Slice(s: string, i: nat, j: nat): (r: string)
    requires i <= j <= |s|
    ensures |r| == j - i
    decreases j - i
  {
    if i == j then [] else [s[i]] + Slice(s, i + 1, j)
  }

  /** `Slice` is Dafny's (and Python's) subsequence `s[i..j]`. */
  lemma {:induction false} SliceIsSubsequence(s: string, i: nat, j: nat)
    requires i <= j <= |s|
    ensures Slice(s, i, j) == s[i..j]
    decreases j - i
  {
    if i < j {
      SliceIsSubsequence(s, i + 1, j);
      assert s[i..j] == [s[i]] + s[i + 1..j];
    }
  }

  /** Character `m` of a slice is character `i + m` of the string. */
  lemma SliceAt(s: string, i: nat, j: nat, m: nat)
    requires i <= j <= |s| && m < j - i
    ensures Slice(s, i, j)[m] == s[i + m]
  {
    SliceIsSubsequence(s, i, j);
  }

  /** The first index at or after `i` whose character is not white space, or `|s|`. */
  function SkipSpace(s: string, i: nat, ws: Spaces): (k: nat)
    requires i <= |s|
    ensures i <= k <= |s|
    ensures k < |s| ==> !IsSpace(ws, s[k])
    decreases |s| - i
  {
    if i == |s| || !IsSpace(ws, s[i]) then i else SkipSpace(s, i + 1, ws)
  }

  /** Everything `SkipSpace` skips is white space. */
  lemma {:induction false} SkippedSpace(s: string, i: nat, ws: Spaces)
    requires i <= |s|
    ensures forall m :: i <= m < SkipSpace(s, i, ws) ==> IsSpace(ws, s[m])
    decreases |s| - i
  {
    if i < |s| && IsSpace(ws, s[i]) {
      SkippedSpace(s, i + 1, ws);
    }
  }

  /** The smallest `k` in `lo..j` such that `s[k..j]` is all white space. */
  function BackSpace(s: string, lo: nat, j: nat, ws: Spaces): (k: nat)
    requires lo <= j <= |s|
    ensures lo <= k <= j
    ensures k > lo ==> !IsSpace(ws, s[k - 1])
    decreases j - lo
  {
    if j == lo || !IsSpace(ws, s[j - 1]) then j else BackSpace(s, lo, j - 1, ws)
  }

  /** Everything `BackSpace` skips is white space. */
  lemma {:induction false} BackSkippedSpace(s: string, lo: nat, j: nat, ws: Spaces)
    requires lo <= j <= |s|
    ensures forall m :: BackSpace(s, lo, j, ws) <= m < j ==> IsSpace(ws, s[m])
    decreases j - lo
  {
    if j > lo && IsSpace(ws, s[j - 1]) {
      BackSkippedSpace(s, lo, j - 1, ws);
    }
  }

  /** `s` without its leading and trailing white space (see `TrimFacts`). */
  function Trim(s: string, ws: Spaces): (t: string)
    ensures |t| <= |s|
  {
    var i := SkipSpace(s, 0, ws);
    Slice(s, i, BackSpace(s, i, |s|, ws))
  }

  /**
   * Trimming gives the empty string exactly when `s` is all white space; otherwise the result
   * neither starts nor ends with white space, and it is a contiguous part of `s` whose
   * surroundings are all white space.
   */
  lemma TrimFacts(s: string, ws: Spaces)
    ensures Trim(s, ws) == [] <==> forall m :: 0 <= m < |s| ==> IsSpace(ws, s[m])
    ensures Trim(s, ws) != [] ==> !IsSpace(ws, Trim(s, ws)[0]) && !IsSpace(ws, Trim(s, ws)[|Trim(s, ws)| - 1])
    ensures exists i :: OccursAt(s, Trim(s, ws), i)
              && (forall m :: 0 <= m < i ==> IsSpace(ws, s[m]))
              && (forall m :: i + |Trim(s, ws)| <= m < |s| ==> IsSpace(ws, s[m]))
  {
    var i := SkipSpace(s, 0, ws);
    var j := BackSpace(s, i, |s|, ws);
    SkippedSpace(s, 0, ws);
    BackSkippedSpace(s, i, |s|, ws);
    SliceIsSubsequence(s, i, j);
    assert OccursAt(s, Trim(s, ws), i);
  }

  /** Python's `str.strip()`. */
  function Strip(s: string): string {
    Trim(s, PySpaces)
  }

  /** JavaScript's `String.prototype.trim()`. */
  function TrimJs(s: string): string {
    Trim(s, JsSpaces)
  }

  predicate IsAsciiUpper(c: char) { 'A' <= c <= 'Z' }

  predicate IsAsciiLower(c: char) { 'a' <= c <= 'z' }

  function LowerChar(c: char): char {
    if IsAsciiUpper(c) then (c as int + 32) as char else c
  }

  function UpperChar(c: char): char {
    if IsAsciiLower(c) then (c as int - 32) as char else c
  }

  /** The first `k` characters of `s`, lower-cased. */
  function LowerPrefix(s: string, k: nat): (r: string)
    requires k <= |s|
    ensures |r| == k
  {
    if k == 0 then [] else LowerPrefix(s, k - 1) + [LowerChar(s[k - 1])]
  }

  /** Python's `str.lower()`, on ASCII letters. */
  function Lower(s: string): (r: string)
    ensures |r| == |s|
  {
    LowerPrefix(s, |s|)
  }

  /** `Lower` maps every character on its own. */
  lemma {:induction false} LowerPrefixAt(s: string, k: nat, m: nat)
    requires m < k <= |s|
    ensures LowerPrefix(s, k)[m] == LowerChar(s[m])
  {
    if m < k - 1 {
      LowerPrefixAt(s, k - 1, m);
    }
  }

  lemma LowerAt(s: string, m: nat)
    requires m < |s|
    ensures Lower(s)[m] == LowerChar(s[m])
  {
    LowerPrefixAt(s, |s|, m);
  }

  /** The first `k` characters of `s`, upper-cased. */
  function UpperPrefix(s: string, k: nat): (r: string)
    requires k <= |s|
    ensures |r| == k
  {
    if k == 0 then [] else UpperPrefix(s, k - 1) + [UpperChar(s[k - 1])]
  }

  /** JavaScript's `String.prototype.toUpperCase()`, on ASCII letters. */
  function Upper(s: string): (r: string)
    ensures |r| == |s|
  {
    UpperPrefix(s, |s|)
  }

  lemma {:induction false} UpperPrefixAt(s: string, k: nat, m: nat)
    requires m < k <= |s|
    ensures UpperPrefix(s, k)[m] == UpperChar(s[m])
  {
    if m < k - 1 {
      UpperPrefixAt(s, k - 1, m);
    }
  }

  lemma UpperAt(s: string, m: nat)
    requires m < |s|
    ensures Upper(s)[m] == UpperChar(s[m])
  {
    UpperPrefixAt(s, |s|, m);
  }

  /** Python's `str.isupper()`: at least one cased character and no lower-case one (ASCII). */
  predicate IsUpperPy(s: string) {
    (exists i :: 0 <= i < |s| && IsAsciiUpper(s[i])) && (forall i :: 0 <= i < |s| ==> !IsAsciiLower(s[i]))
  }

  /** `s.startswith(p)` / `s.startsWith(p)`. */
  predicate StartsWith(s: string, p: string) {
    |p| <= |s| && forall k :: 0 <= k < |p| ==> s[k] == p[k]
  }

  /** `w` occurs in `s` starting at index `i`. */
  predicate OccursAt(s: string, w: string, i: int) {
    0 <= i && i + |w| <= |s| && forall k :: 0 <= k < |w| ==> s[i + k] == w[k]
  }

  /** Python's `w in s` for strings: `w` occurs in `s` as a contiguous substring. */
  predicate Contains(s: string, w: string) {
    exists i | 0 <= i <= |s| :: OccursAt(s, w, i)
  }

  /** The first index of `c` at or after `from`, or `|s|` when `c` does not occur there. */
  function IndexFrom(s: string, c: char, from: nat): (i: nat)
    requires from <= |s|
    ensures from <= i <= |s|
    ensures i < |s| ==> s[i] == c
    decreases |s| - from
  {
    if from == |s| || s[from] == c then from else IndexFrom(s, c, from + 1)
  }

  /** `IndexFrom` finds the first occurrence. */
  lemma {:induction false} IndexFromFirst(s: string, c: char, from: nat)
    requires from <= |s|
    ensures forall k :: from <= k < IndexFrom(s, c, from) ==> s[k] != c
    decreases |s| - from
  {
    if from < |s| && s[from] != c {
      IndexFromFirst(s, c, from + 1);
    }
  }

  /** `sep.join(parts)` / `parts.join(sep)`. */
  function Join(parts: seq<string>, sep: string): string {
    if |parts| == 0 then ""
    else if |parts| == 1 then parts[0]
    else parts[0] + sep + Join(parts[1..], sep)
  }

  /** Joining a part in front of a non-empty list puts the separator between them. */
  lemma JoinCons(a: string, rest: seq<string>, sep: string)
    requires |rest| > 0
    ensures Join([a] + rest, sep) == a + sep + Join(rest, sep)
  {
    assert ([a] + rest)[1..] == rest;
  }

  /** A joined list starts with its first part. */
  lemma JoinFirst(parts: seq<string>, sep: string)
    requires |parts| > 0
    ensures StartsWith(Join(parts, sep), parts[0])
  {
    if |parts| > 1 {
      assert Join(parts, sep) == parts[0] + (sep + Join(parts[1..], sep));
    }
  }

  /** Python's `s[:n]`: the first `n` elements, or all of `s` when it is shorter. */
  function Take<T>(s: seq<T>, n: nat): (r: seq<T>)
    ensures |r| == if |s| <= n then |s| else n
    ensures forall k :: 0 <= k < |r| ==> r[k] == s[k]
  {
    if |s| <= n then s else s[..n]
  }

  /** The pieces of `s` from index `from` on, cut at every `sep`. */
  function SplitFrom(s: string, sep: char, from: nat): (parts: seq<string>)
    requires from <= |s|
    ensures |parts| >= 1
    decreases |s| - from
  {
    var i := IndexFrom(s, sep, from);
    if i == |s| then [Slice(s, from, |s|)] else [Slice(s, from, i)] + SplitFrom(s, sep, i + 1)
  }

  /**
   * `s.split(sep)` for a one-character separator (Python and JavaScript agree): the pieces between
   * the occurrences of `sep`, never an empty list (see `SplitJoin`).
   */
  function Split(s: string, sep: char): (parts: seq<string>)
    ensures |parts| >= 1
  {
    SplitFrom(s, sep, 0)
  }

  /** No piece cut from index `from` on holds the separator. */
  lemma {:induction false} SplitFromPieces(s: string, sep: char, from: nat, k: nat)
    requires from <= |s| && k < |SplitFrom(s, sep, from)|
    ensures sep !in SplitFrom(s, sep, from)[k]
    decreases |s| - from
  {
    var i := IndexFrom(s, sep, from);
    IndexFromFirst(s, sep, from);
    SliceIsSubsequence(s, from, i);
    if k > 0 {
      SplitFromPieces(s, sep, i + 1, k - 1);
    }
  }

  /** Joining the pieces cut from index `from` on with the separator gives `s[from..]` back. */
  lemma {:induction false} SplitFromRejoin(s: string, sep: char, from: nat)
    requires from <= |s|
    ensures Join(SplitFrom(s, sep, from), [sep]) == s[from..]
    decreases |s| - from
  {
    var i := IndexFrom(s, sep, from);
    SliceIsSubsequence(s, from, i);
    if i < |s| {
      SplitFromRejoin(s, sep, i + 1);
      var parts := SplitFrom(s, sep, from);
      var rest := SplitFrom(s, sep, i + 1);
      assert parts == [s[from..i]] + rest;
      JoinCons(s[from..i], rest, [sep]);
      assert s[from..] == s[from..i] + [sep] + s[i + 1..];
    }
  }

  /** No piece of a split holds the separator, and joining the pieces with it gives `s` back. */
  lemma SplitJoin(s: string, sep: char)
    ensures forall k :: 0 <= k < |Split(s, sep)| ==> sep !in Split(s, sep)[k]
    ensures Join(Split(s, sep), [sep]) == s
  {
    forall k | 0 <= k < |Split(s, sep)| {
      SplitFromPieces(s, sep, 0, k);
    }
    SplitFromRejoin(s, sep, 0);
    assert s[0..] == s;
  }
}
