/**
 * `SceneParser.parse`: splits a screenplay at its `INT.`/`EXT.` headings and sorts every line of a
 * scene into camera, lighting and sound directions, dialogues (with the speaking characters) and
 * action lines.
 */
module SceneParser {
  import opened Wrappers
  import opened Text
  import opened Screenplay

  // ---------------------------------------------------------------------------------------------
  // Heading split: re.split(r'(INT\.|EXT\.)\s+', text)
  // ---------------------------------------------------------------------------------------------

  /** A heading match starts at `p`: `INT.` or `EXT.` (case-sensitive) followed by white space. */
  predicate HeadingAt(s: string, p: int) {
    && 0 <= p && p + 4 < |s|
    && ((s[p] == 'I' && s[p + 1] == 'N') || (s[p] == 'E' && s[p + 1] == 'X'))
    && s[p + 2] == 'T' && s[p + 3] == '.' && IsPySpace(s[p + 4])
  }

  /** The captured heading at a match: the four characters `INT.` or `EXT.`. */
  function HeadingWord(s: string, p: nat): (w: string)
    requires HeadingAt(s, p)
    ensures w == [s[p], s[p + 1], s[p + 2], s[p + 3]]
  {
    if s[p] == 'I' then "INT." else "EXT."
  }

  /** The leftmost heading match at or after `from`, as the regex search finds it (see `FindHeadingFirst`). */
  function FindHeading(s: string, from: nat): (r: Option<nat>)
    ensures r.Some? ==> from <= r.value && HeadingAt(s, r.value)
    decreases |s| - from
  {
    if from >= |s| then None
    else if HeadingAt(s, from) then Some(from)
    else FindHeading(s, from + 1)
  }

  /** `FindHeading` finds the leftmost match, and finds none only when there is none. */
  lemma {:induction false} FindHeadingFirst(s: string, from: nat)
    ensures FindHeading(s, from).Some? ==> forall q :: from <= q < FindHeading(s, from).value ==> !HeadingAt(s, q)
    ensures FindHeading(s, from).None? ==> forall q :: from <= q < |s| ==> !HeadingAt(s, q)
    decreases |s| - from
  {
    if from < |s| && !HeadingAt(s, from) {
      FindHeadingFirst(s, from + 1);
    }
  }

  /**
   * The pieces of the split from the heading match at `p` on: heading, content, heading, content, ...
   * The match swallows the white space after the heading, and a content runs up to the next match.
   */
  function SplitFrom(s: string, p: nat): (r: seq<string>)
    requires HeadingAt(s, p)
    ensures |r| >= 2 && |r| % 2 == 0
    decreases |s| - p
  {
    var q := SkipSpace(s, p + 4, PySpaces);
    match FindHeading(s, q)
    case None => [HeadingWord(s, p), Slice(s, q, |s|)]
    case Some(next) => [HeadingWord(s, p), Slice(s, q, next)] + SplitFrom(s, next)
  }

  /** Every heading piece is `INT.` or `EXT.`, and no content piece starts with white space. */
  lemma {:induction false} SplitFromFacts(s: string, p: nat)
    requires HeadingAt(s, p)
    ensures forall k :: 0 <= k < |SplitFrom(s, p)| && k % 2 == 0 ==> SplitFrom(s, p)[k] in {"INT.", "EXT."}
    ensures forall k :: 0 <= k < |SplitFrom(s, p)| && k % 2 == 1 ==>
              SplitFrom(s, p)[k] == [] || !IsPySpace(SplitFrom(s, p)[k][0])
    decreases |s| - p
  {
    var q := SkipSpace(s, p + 4, PySpaces);
    match FindHeading(s, q)
    case None =>
    case Some(next) =>
      SplitFromFacts(s, next);
      var r := SplitFrom(s, p);
      var rest := SplitFrom(s, next);
      assert r == [HeadingWord(s, p), Slice(s, q, next)] + rest;
      forall k | 2 <= k < |r|
        ensures r[k] == rest[k - 2]
      {
      }
  }

  /**
   * The pieces after the first alternate between a captured heading, `INT.` or `EXT.`, and a
   * content that does not start with white space.
   */
  predicate WellSplit(r: seq<string>) {
    && (forall k :: 0 <= k < |r| && k % 2 == 1 ==> r[k] in {"INT.", "EXT."})
    && (forall k :: 0 <= k < |r| && k % 2 == 0 && k > 0 ==> r[k] == [] || !IsPySpace(r[k][0]))
  }

  /**
   * `re.split(r'(INT\.|EXT\.)\s+', s)`: the text before the first heading, then each captured
   * heading followed by the text up to the next match.
   */
  function SplitHeadings(s: string): (r: seq<string>)
    ensures |r| >= 1
  {
    match FindHeading(s, 0)
    case None => [s]
    case Some(p) => [Slice(s, 0, p)] + SplitFrom(s, p)
  }

  /** The split has an odd number of pieces. */
  lemma SplitHeadingsOdd(s: string)
    ensures |SplitHeadings(s)| % 2 == 1
  {
    match FindHeading(s, 0)
    case None =>
    case Some(p) =>
      var n := |SplitFrom(s, p)|;
      EvenSucc(n);
      assert |SplitHeadings(s)| == n + 1;
  }

  lemma EvenSucc(n: int)
    requires n % 2 == 0
    ensures (n + 1) % 2 == 1
  {
  }

  /** The split is a single piece exactly when the search finds no heading. */
  lemma SplitHeadingsSingle(s: string)
    ensures |SplitHeadings(s)| == 1 <==> FindHeading(s, 0).None?
  {
  }

  /** After the first piece, the split alternates between a heading word and a content. */
  lemma SplitHeadingsWell(s: string)
    ensures WellSplit(SplitHeadings(s))
  {
    match FindHeading(s, 0)
    case None =>
    case Some(p) =>
      SplitFromFacts(s, p);
      var rest := SplitFrom(s, p);
      var r := [Slice(s, 0, p)] + rest;
      forall k | 1 <= k < |r|
        ensures r[k] == rest[k - 1] && (k % 2 == 1 <==> (k - 1) % 2 == 0)
      {
      }
  }

  // Dropping a prefix that holds no heading leaves every later piece of the split unchanged.

  /** `t` is `s` with its first `d` characters cut off. */
  predicate Suffix(s: string, d: nat, t: string) {
    d <= |s| && |t| == |s| - d && forall i :: 0 <= i < |t| ==> t[i] == s[i + d]
  }

  lemma SuffixSlice(s: string, d: nat)
    requires d <= |s|
    ensures Suffix(s, d, s[d..])
  {
  }

  lemma {:induction false} SliceShift(s: string, d: nat, t: string, i: nat, j: nat)
    requires Suffix(s, d, t) && d <= i <= j <= |s|
    ensures Slice(t, i - d, j - d) == Slice(s, i, j)
    decreases j - i
  {
    if i < j {
      assert t[i - d] == s[i];
      SliceShift(s, d, t, i + 1, j);
      assert (i - d) + 1 == (i + 1) - d;
    }
  }

  lemma HeadingShift(s: string, d: nat, t: string, p: nat)
    requires Suffix(s, d, t) && d <= p
    ensures HeadingAt(t, p - d) == HeadingAt(s, p)
  {
    if p + 4 < |s| {
      assert t[p - d] == s[p] && t[p - d + 1] == s[p + 1] && t[p - d + 2] == s[p + 2];
      assert t[p - d + 3] == s[p + 3] && t[p - d + 4] == s[p + 4];
    }
  }

  lemma {:induction false} SkipShift(s: string, d: nat, t: string, i: nat)
    requires Suffix(s, d, t) && d <= i <= |s|
    ensures SkipSpace(t, i - d, PySpaces) == SkipSpace(s, i, PySpaces) - d
    decreases |s| - i
  {
    if i < |s| {
      assert t[i - d] == s[i];
      if IsPySpace(s[i]) {
        SkipShift(s, d, t, i + 1);
      }
    }
  }

  lemma {:induction false} FindHeadingShift(s: string, d: nat, t: string, from: nat)
    requires Suffix(s, d, t) && d <= from <= |s|
    ensures FindHeading(s, from).None? ==> FindHeading(t, from - d).None?
    ensures FindHeading(s, from).Some? ==> FindHeading(t, from - d) == Some(FindHeading(s, from).value - d)
    decreases |s| - from
  {
    if from < |s| {
      HeadingShift(s, d, t, from);
      if !HeadingAt(s, from) {
        FindHeadingShift(s, d, t, from + 1);
      }
    }
  }

  lemma {:induction false} SplitShift(s: string, d: nat, t: string, p: nat)
    requires Suffix(s, d, t) && d <= p && HeadingAt(s, p)
    ensures HeadingAt(t, p - d) && SplitFrom(t, p - d) == SplitFrom(s, p)
    decreases |s| - p
  {
    HeadingShift(s, d, t, p);
    var q := SkipSpace(s, p + 4, PySpaces);
    match FindHeading(s, q)
    case None =>
      LastShift(s, d, t, p);
    case Some(next) =>
      SplitShift(s, d, t, next);
      StepShift(s, d, t, p, next);
  }

  /** After a heading match at `p`, the content starts and the next match lies `d` earlier in `t`. */
  lemma AfterHeadingShift(s: string, d: nat, t: string, p: nat)
    requires Suffix(s, d, t) && d <= p && HeadingAt(s, p)
    ensures HeadingAt(t, p - d) && HeadingWord(t, p - d) == HeadingWord(s, p)
    ensures var q, qt := SkipSpace(s, p + 4, PySpaces), SkipSpace(t, p - d + 4, PySpaces);
      && d <= q && qt == q - d
      && (FindHeading(s, q).None? ==> FindHeading(t, qt).None?)
      && (FindHeading(s, q).Some? ==> FindHeading(t, qt) == Some(FindHeading(s, q).value - d))
  {
    HeadingShift(s, d, t, p);
    SkipShift(s, d, t, p + 4);
    assert (p - d) + 4 == (p + 4) - d;
    FindHeadingShift(s, d, t, SkipSpace(s, p + 4, PySpaces));
    assert t[p - d] == s[p];
  }

  lemma LastShift(s: string, d: nat, t: string, p: nat)
    requires Suffix(s, d, t) && d <= p && HeadingAt(s, p)
    requires FindHeading(s, SkipSpace(s, p + 4, PySpaces)).None?
    ensures HeadingAt(t, p - d) && SplitFrom(t, p - d) == SplitFrom(s, p)
  {
    AfterHeadingShift(s, d, t, p);
    var q := SkipSpace(s, p + 4, PySpaces);
    SliceShift(s, d, t, q, |s|);
    SplitFromLast(s, p);
    SplitFromLast(t, p - d);
  }

  lemma StepShift(s: string, d: nat, t: string, p: nat, next: nat)
    requires Suffix(s, d, t) && d <= p && HeadingAt(s, p)
    requires FindHeading(s, SkipSpace(s, p + 4, PySpaces)) == Some(next)
    requires d <= next && HeadingAt(t, next - d) && SplitFrom(t, next - d) == SplitFrom(s, next)
    ensures HeadingAt(t, p - d) && SplitFrom(t, p - d) == SplitFrom(s, p)
  {
    AfterHeadingShift(s, d, t, p);
    ContentShift(s, d, t, p, next);
    SplitFromCongruent(s, p, next, t, p - d, next - d);
  }

  /** The content after the heading at `p` up to `next` is the same in `t`, `d` characters earlier. */
  lemma ContentShift(s: string, d: nat, t: string, p: nat, next: nat)
    requires Suffix(s, d, t) && d <= p && HeadingAt(s, p) && SkipSpace(s, p + 4, PySpaces) <= next <= |s|
    ensures SkipSpace(t, p - d + 4, PySpaces) <= next - d
    ensures Slice(t, SkipSpace(t, p - d + 4, PySpaces), next - d) == Slice(s, SkipSpace(s, p + 4, PySpaces), next)
  {
    SkipShift(s, d, t, p + 4);
    assert (p - d) + 4 == (p + 4) - d;
    SliceShift(s, d, t, SkipSpace(s, p + 4, PySpaces), next);
  }

  /** Two splits from heading matches with the same word, content and remaining split are equal. */
  lemma SplitFromCongruent(s: string, p: nat, next: nat, t: string, pt: nat, nt: nat)
    requires HeadingAt(s, p) && FindHeading(s, SkipSpace(s, p + 4, PySpaces)) == Some(next)
    requires HeadingAt(t, pt) && FindHeading(t, SkipSpace(t, pt + 4, PySpaces)) == Some(nt)
    requires HeadingWord(t, pt) == HeadingWord(s, p)
    requires SkipSpace(t, pt + 4, PySpaces) <= nt && SkipSpace(s, p + 4, PySpaces) <= next
    requires Slice(t, SkipSpace(t, pt + 4, PySpaces), nt) == Slice(s, SkipSpace(s, p + 4, PySpaces), next)
    requires HeadingAt(s, next) && HeadingAt(t, nt) && SplitFrom(t, nt) == SplitFrom(s, next)
    ensures SplitFrom(t, pt) == SplitFrom(s, p)
  {
    SplitFromNext(s, p, next);
    SplitFromNext(t, pt, nt);
  }

  /** The split from the last heading match: its word and the rest of the text. */
  lemma SplitFromLast(s: string, p: nat)
    requires HeadingAt(s, p) && FindHeading(s, SkipSpace(s, p + 4, PySpaces)).None?
    ensures SplitFrom(s, p) == [HeadingWord(s, p), Slice(s, SkipSpace(s, p + 4, PySpaces), |s|)]
  {
  }

  /** The split from a heading match followed by another at `next`. */
  lemma SplitFromNext(s: string, p: nat, next: nat)
    requires HeadingAt(s, p) && FindHeading(s, SkipSpace(s, p + 4, PySpaces)) == Some(next)
    ensures HeadingAt(s, next) && SkipSpace(s, p + 4, PySpaces) <= next
    ensures SplitFrom(s, p) == [HeadingWord(s, p), Slice(s, SkipSpace(s, p + 4, PySpaces), next)] + SplitFrom(s, next)
  {
  }

  /**
   * Cutting the text before the first heading off changes only the first piece of the split,
   * which becomes empty; the headings and contents are the same.
   */
  lemma PreambleIgnored(s: string, p: nat)
    requires FindHeading(s, 0) == Some(p)
    ensures SplitHeadings(s[p..])[0] == []
    ensures SplitHeadings(s[p..])[1..] == SplitHeadings(s)[1..]
  {
    SuffixSlice(s, p);
    SplitShift(s, p, s[p..], p);
    assert FindHeading(s[p..], 0) == Some(0);
  }

  // ---------------------------------------------------------------------------------------------
  // Location: re.match(r'([^\n-]+)', content)
  // ---------------------------------------------------------------------------------------------

  /** The end of the run of characters other than newline and '-' that starts at `i`. */
  function LocationEnd(s: string, i: nat): (k: nat)
    requires i <= |s|
    ensures i <= k <= |s|
    ensures k < |s| ==> s[k] == '\n' || s[k] == '-'
    decreases |s| - i
  {
    if i == |s| || s[i] == '\n' || s[i] == '-' then i else LocationEnd(s, i + 1)
  }

  /** The run found by `LocationEnd` holds neither a newline nor a '-'. */
  lemma {:induction false} LocationRun(s: string, i: nat)
    requires i <= |s|
    ensures forall m :: i <= m < LocationEnd(s, i) ==> s[m] != '\n' && s[m] != '-'
    decreases |s| - i
  {
    if i < |s| && s[i] != '\n' && s[i] != '-' {
      LocationRun(s, i + 1);
    }
  }

  /**
   * The location: the stripped text before the first newline or '-', or "Unknown" when the regex
   * finds no such text at the start.
   */
  function Location(content: string): (loc: string)
  {
    var k := LocationEnd(content, 0);
    if k == 0 then "Unknown" else Strip(Slice(content, 0, k))
  }

  /**
   * A content that starts with a newline or '-' (or is empty) has location "Unknown"; otherwise the
   * location is the stripped text before the first newline or '-', and holds neither.
   */
  lemma LocationFacts(content: string)
    ensures (content == [] || content[0] == '\n' || content[0] == '-') ==> Location(content) == "Unknown"
    ensures content != [] && content[0] != '\n' && content[0] != '-' ==>
              && Location(content) == Strip(content[..LocationEnd(content, 0)])
              && '\n' !in Location(content) && '-' !in Location(content)
  {
    var k := LocationEnd(content, 0);
    if k > 0 {
      var run := Slice(content, 0, k);
      SliceIsSubsequence(content, 0, k);
      LocationRun(content, 0);
      TrimFacts(run, PySpaces);
      var t := Strip(run);
      forall c | c in t
        ensures c != '\n' && c != '-'
      {
        var i :| OccursAt(run, t, i);
        var m :| 0 <= m < |t| && t[m] == c;
        assert run[i + m] == c;
      }
    }
  }

  /** Scene contents never start with white space, so a heading followed by text has a non-empty location. */
  lemma ParsedLocationNonEmpty(content: string)
    requires content == [] || !IsPySpace(content[0])
    ensures Location(content) != []
  {
    var k := LocationEnd(content, 0);
    if k > 0 {
      var run := Slice(content, 0, k);
      SliceAt(content, 0, k, 0);
      TrimFacts(run, PySpaces);
    }
  }

  // ---------------------------------------------------------------------------------------------
  // Directives: re.search(r'(KAMERA|CAMERA):\s*([^\n]+)', line, re.IGNORECASE) and its siblings
  // ---------------------------------------------------------------------------------------------

  const CameraKeywords: seq<string> := ["kamera:", "camera:"]
  const LightKeywords: seq<string> := ["licht:", "light:"]
  const SoundKeywords: seq<string> := ["sound:", "ton:"]

  /** Keyword `kw` (lower-case) occurs at `p`, compared case-insensitively, with at least one character after it. */
  predicate KeywordMatch(line: string, p: nat, kw: string) {
    p + |kw| < |line| && forall m :: 0 <= m < |kw| ==> LowerChar(line[p + m]) == kw[m]
  }

  /** The first keyword of `kws` that matches at `p`, as the regex alternation tries them. */
  function KeywordAt(line: string, p: nat, kws: seq<string>): (r: Option<string>)
    ensures r.Some? ==> r.value in kws && KeywordMatch(line, p, r.value)
    ensures r.None? ==> forall kw :: kw in kws ==> !KeywordMatch(line, p, kw)
  {
    if |kws| == 0 then None
    else if KeywordMatch(line, p, kws[0]) then Some(kws[0])
    else KeywordAt(line, p, kws[1..])
  }

  /**
   * The leftmost directive at or after `from`: the stripped text after the keyword. For a line that
   * holds no newline, `\s*` followed by `[^\n]+` and a strip leave exactly the stripped rest of the line.
   */
  function Directive(line: string, kws: seq<string>, from: nat): (r: Option<string>)
    decreases |line| - from
  {
    if from >= |line| then None
    else match KeywordAt(line, from, kws)
      case Some(kw) => Some(Strip(Slice(line, from + |kw|, |line|)))
      case None => Directive(line, kws, from + 1)
  }

  // ---------------------------------------------------------------------------------------------
  // Line classification
  // ---------------------------------------------------------------------------------------------

  /** What one line of a scene contributes. */
  datatype LineKind =
    | Blank
    | CameraLine(direction: string)
    | LightLine(direction: string)
    | SoundLine(direction: string)
    | Cue(speaker: string, speech: string)
    | ActionLine(action: string)
    | Dropped

  /** The stripped line is not blank and none of the three directive patterns occurs in it. */
  predicate Undirected(line: string) {
    && line != []
    && Directive(line, CameraKeywords, 0).None?
    && Directive(line, LightKeywords, 0).None?
    && Directive(line, SoundKeywords, 0).None?
  }

  /**
   * The classification of line `j`: blank lines are skipped, then camera, lighting and sound
   * directions are tried in that order, then a dialogue cue, then an action line; each kind is
   * taken exactly when every earlier test failed and its own test holds.
   */
  function KindOf(lines: seq<string>, j: nat): (r: LineKind)
    requires j < |lines|
    ensures r.Blank? <==> Strip(lines[j]) == []
    ensures r.CameraLine? <==> Strip(lines[j]) != [] && Directive(Strip(lines[j]), CameraKeywords, 0).Some?
    ensures r.CameraLine? ==> r.direction == Directive(Strip(lines[j]), CameraKeywords, 0).value
    ensures r.LightLine? <==>
      && Strip(lines[j]) != [] && Directive(Strip(lines[j]), CameraKeywords, 0).None?
      && Directive(Strip(lines[j]), LightKeywords, 0).Some?
    ensures r.LightLine? ==> r.direction == Directive(Strip(lines[j]), LightKeywords, 0).value
    ensures r.SoundLine? <==>
      && Strip(lines[j]) != [] && Directive(Strip(lines[j]), CameraKeywords, 0).None?
      && Directive(Strip(lines[j]), LightKeywords, 0).None? && Directive(Strip(lines[j]), SoundKeywords, 0).Some?
    ensures r.SoundLine? ==> r.direction == Directive(Strip(lines[j]), SoundKeywords, 0).value
    ensures r.Cue? <==> Undirected(Strip(lines[j])) && IsUpperPy(Strip(lines[j])) && |Strip(lines[j])| > 2 && j + 1 < |lines|
    ensures r.Cue? ==> r.speaker == Strip(lines[j]) && r.speech == Strip(lines[j + 1])
    ensures r.ActionLine? <==> Undirected(Strip(lines[j])) && !IsUpperPy(Strip(lines[j])) && |Strip(lines[j])| > 10
    ensures r.ActionLine? ==> r.action == Strip(lines[j])
    ensures r.Dropped? <==>
      && Undirected(Strip(lines[j]))
      && !(IsUpperPy(Strip(lines[j])) && |Strip(lines[j])| > 2 && j + 1 < |lines|)
      && !(!IsUpperPy(Strip(lines[j])) && |Strip(lines[j])| > 10)
  {
    var line := Strip(lines[j]);
    if line == [] then Blank
    else if Directive(line, CameraKeywords, 0).Some? then CameraLine(Directive(line, CameraKeywords, 0).value)
    else if Directive(line, LightKeywords, 0).Some? then LightLine(Directive(line, LightKeywords, 0).value)
    else if Directive(line, SoundKeywords, 0).Some? then SoundLine(Directive(line, SoundKeywords, 0).value)
    else if IsUpperPy(line) && |line| > 2 && j + 1 < |lines| then Cue(line, Strip(lines[j + 1]))
    else if !IsUpperPy(line) && |line| > 10 then ActionLine(line)
    else Dropped
  }

  /** The per-scene lists the line loop fills. */
  datatype Body = Body(
    dialogs: seq<Dialog>,
    actions: seq<string>,
    camera: seq<string>,
    lighting: seq<string>,
    sound: seq<string>,
    characters: seq<string>)

  const EmptyBody := Body([], [], [], [], [], [])

  /** Python adds the speaker to a set; the model keeps the set as a list in first-seen order. */
  function AddName(names: seq<string>, n: string): seq<string> {
    if n in names then names else names + [n]
  }

  function Apply(b: Body, k: LineKind): Body {
    match k
    case CameraLine(d) => b.(camera := b.camera + [d])
    case LightLine(d) => b.(lighting := b.lighting + [d])
    case SoundLine(d) => b.(sound := b.sound + [d])
    case Cue(n, t) => b.(dialogs := b.dialogs + [Dialog(n, t)], characters := AddName(b.characters, n))
    case ActionLine(a) => b.(actions := b.actions + [a])
    case _ => b
  }

  /** The classifications of the first `k` lines. */
  function Classified(lines: seq<string>, k: nat): (r: seq<LineKind>)
    requires k <= |lines|
    ensures |r| == k
  {
    seq(k, i requires 0 <= i < k => KindOf(lines, i))
  }

  /** The lists after applying the first `k` of `kinds` in order, starting from empty lists. */
  function Fold(kinds: seq<LineKind>, k: nat): Body
    requires k <= |kinds|
  {
    if k == 0 then EmptyBody else Apply(Fold(kinds, k - 1), kinds[k - 1])
  }

  /** The lists after the first `k` lines. */
  function ScanLines(lines: seq<string>, k: nat): Body
    requires k <= |lines|
  {
    if k == 0 then EmptyBody else Apply(ScanLines(lines, k - 1), KindOf(lines, k - 1))
  }

  /** Scanning one more line applies that line's classification. */
  lemma ScanStep(lines: seq<string>, j: nat)
    requires j < |lines|
    ensures ScanLines(lines, j + 1) == Apply(ScanLines(lines, j), KindOf(lines, j))
  {
  }

  /** Scanning the lines is folding any list that holds their classifications. */
  lemma {:induction false} ScanIsFoldOf(lines: seq<string>, kinds: seq<LineKind>, k: nat)
    requires k <= |lines| == |kinds|
    requires forall i :: 0 <= i < |kinds| ==> kinds[i] == KindOf(lines, i)
    ensures ScanLines(lines, k) == Fold(kinds, k)
  {
    if k > 0 {
      ScanIsFoldOf(lines, kinds, k - 1);
    }
  }

  /** Scanning the lines is folding their classifications. */
  lemma ScanIsFold(lines: seq<string>)
    ensures ScanLines(lines, |lines|) == Fold(Classified(lines, |lines|), |lines|)
  {
    var kinds := Classified(lines, |lines|);
    forall i | 0 <= i < |kinds| {
      ClassifiedAt(lines, |lines|, i);
    }
    ScanIsFoldOf(lines, kinds, |lines|);
  }

  predicate NoDuplicates<T(==)>(s: seq<T>) {
    forall i, j :: 0 <= i < j < |s| ==> s[i] != s[j]
  }

  /** Adding a name to a duplicate-free list keeps it duplicate-free and adds exactly that name. */
  lemma AddNameFacts(names: seq<string>, n: string)
    requires NoDuplicates(names)
    ensures NoDuplicates(AddName(names, n))
    ensures forall m :: m in AddName(names, n) <==> m in names || m == n
  {
  }

  /** A speaker was seen: some dialogue of the list has them as its character. */
  predicate Speaks(dialogs: seq<Dialog>, n: string) {
    exists d :: d in dialogs && d.character == n
  }

  /**
   * What the line loop guarantees about characters: the list has no duplicates and holds exactly
   * the speakers of the dialogues (Python keeps them in a set).
   */
  lemma {:induction false} SpeakersFacts(kinds: seq<LineKind>, k: nat)
    requires k <= |kinds|
    ensures NoDuplicates(Fold(kinds, k).characters)
    ensures forall n :: n in Fold(kinds, k).characters <==> Speaks(Fold(kinds, k).dialogs, n)
  {
    if k > 0 {
      var kind := kinds[k - 1];
      SpeakersFacts(kinds, k - 1);
      var b0 := Fold(kinds, k - 1);
      var b := Fold(kinds, k);
      if kind.Cue? {
        var d := Dialog(kind.speaker, kind.speech);
        assert b.dialogs == b0.dialogs + [d];
        assert b.characters == AddName(b0.characters, kind.speaker);
        AddNameFacts(b0.characters, kind.speaker);
        forall n ensures n in b.characters <==> Speaks(b.dialogs, n) {
          if Speaks(b0.dialogs, n) {
            var e :| e in b0.dialogs && e.character == n;
            assert e in b.dialogs;
          }
          if Speaks(b.dialogs, n) && n != kind.speaker {
            var e :| e in b.dialogs && e.character == n;
            assert e in b0.dialogs;
          }
          assert d in b.dialogs;
        }
      } else {
        assert b.characters == b0.characters && b.dialogs == b0.dialogs;
      }
    }
  }

  /** Dialogues and actions meet the tests that put them in their lists. */
  predicate Sorted(b: Body) {
    && (forall d :: d in b.dialogs ==> IsUpperPy(d.character) && |d.character| > 2)
    && (forall a :: a in b.actions ==> !IsUpperPy(a) && |a| > 10)
  }

  /** The number of entries in the five lists that grow by one per line. */
  function Entries(b: Body): nat {
    |b.camera| + |b.lighting| + |b.sound| + |b.dialogs| + |b.actions|
  }

  /** A classification that passed its test: cues are upper-case names, actions long lower-case lines. */
  predicate WellKind(kind: LineKind) {
    && (kind.Cue? ==> IsUpperPy(kind.speaker) && |kind.speaker| > 2)
    && (kind.ActionLine? ==> !IsUpperPy(kind.action) && |kind.action| > 10)
  }

  lemma KindWell(lines: seq<string>, j: nat)
    requires j < |lines|
    ensures WellKind(KindOf(lines, j))
  {
  }

  lemma {:induction false} ClassifiedWell(lines: seq<string>, k: nat)
    requires k <= |lines|
    ensures forall i :: 0 <= i < k ==> WellKind(Classified(lines, k)[i])
  {
    var kinds := Classified(lines, k);
    forall i | 0 <= i < k
      ensures WellKind(kinds[i])
    {
      ClassifiedAt(lines, k, i);
      KindWell(lines, i);
    }
  }

  lemma ClassifiedAt(lines: seq<string>, k: nat, i: nat)
    requires i < k <= |lines|
    ensures Classified(lines, k)[i] == KindOf(lines, i)
  {
  }

  lemma ApplyFacts(b: Body, kind: LineKind)
    requires Sorted(b) && WellKind(kind)
    ensures Sorted(Apply(b, kind))
    ensures Entries(Apply(b, kind)) <= Entries(b) + 1
  {
  }

  /**
   * What the line loop guarantees about the other lists: dialogues and actions meet their
   * classification tests, and each line adds at most one entry to one list.
   */
  lemma {:induction false} FoldFacts(kinds: seq<LineKind>, k: nat)
    requires k <= |kinds|
    requires forall i :: 0 <= i < |kinds| ==> WellKind(kinds[i])
    ensures Sorted(Fold(kinds, k))
    ensures Entries(Fold(kinds, k)) <= k
  {
    if k > 0 {
      FoldFacts(kinds, k - 1);
      ApplyFacts(Fold(kinds, k - 1), kinds[k - 1]);
    }
  }

  lemma ScanFacts(lines: seq<string>)
    ensures Sorted(ScanLines(lines, |lines|))
    ensures Entries(ScanLines(lines, |lines|)) <= |lines|
  {
    ClassifiedWell(lines, |lines|);
    FoldFacts(Classified(lines, |lines|), |lines|);
    ScanIsFold(lines);
  }

  /** The entry that classification `kind` contributes is in the lists of `b`. */
  predicate Recorded(b: Body, kind: LineKind) {
    match kind
    case CameraLine(d) => d in b.camera
    case LightLine(d) => d in b.lighting
    case SoundLine(d) => d in b.sound
    case Cue(n, t) => Dialog(n, t) in b.dialogs && n in b.characters
    case ActionLine(a) => a in b.actions
    case _ => true
  }

  /** Applying a classification records its own entry and keeps every entry already recorded. */
  lemma ApplyRecords(b: Body, kind: LineKind, earlier: LineKind)
    ensures Recorded(Apply(b, kind), kind)
    ensures Recorded(b, earlier) ==> Recorded(Apply(b, earlier), earlier) && Recorded(Apply(b, kind), earlier)
  {
  }

  /** Folding records the entry of every classification folded: no list ever loses an entry. */
  lemma {:induction false} FoldRecords(kinds: seq<LineKind>, k: nat)
    requires k <= |kinds|
    ensures forall j :: 0 <= j < k ==> Recorded(Fold(kinds, k), kinds[j])
  {
    if k > 0 {
      FoldRecords(kinds, k - 1);
      var b := Fold(kinds, k - 1);
      forall j | 0 <= j < k
        ensures Recorded(Fold(kinds, k), kinds[j])
      {
        ApplyRecords(b, kinds[k - 1], kinds[j]);
      }
    }
  }

  /** Every line's entry is still in the lists at the end of the line loop. */
  lemma ScanRecords(lines: seq<string>)
    ensures forall j :: 0 <= j < |lines| ==> Recorded(ScanLines(lines, |lines|), KindOf(lines, j))
  {
    var kinds := Classified(lines, |lines|);
    FoldRecords(kinds, |lines|);
    ScanIsFold(lines);
    forall j | 0 <= j < |lines|
      ensures Recorded(ScanLines(lines, |lines|), KindOf(lines, j))
    {
      ClassifiedAt(lines, |lines|, j);
    }
  }

  /**
   * The converse of the classification tests: an upper-case line longer than 2 with a line after
   * it, and no directive in it, becomes a dialogue spoken by it with the next line as its text.
   */
  lemma UpperLineIsDialog(lines: seq<string>, j: nat)
    requires j + 1 < |lines|
    requires Undirected(Strip(lines[j])) && IsUpperPy(Strip(lines[j])) && |Strip(lines[j])| > 2
    ensures Dialog(Strip(lines[j]), Strip(lines[j + 1])) in ScanLines(lines, |lines|).dialogs
    ensures Strip(lines[j]) in ScanLines(lines, |lines|).characters
  {
    ScanRecords(lines);
    assert Recorded(ScanLines(lines, |lines|), KindOf(lines, j));
  }

  /** A line that is not upper case, longer than 10 and without a directive becomes an action. */
  lemma LongLineIsAction(lines: seq<string>, j: nat)
    requires j < |lines|
    requires Undirected(Strip(lines[j])) && !IsUpperPy(Strip(lines[j])) && |Strip(lines[j])| > 10
    ensures Strip(lines[j]) in ScanLines(lines, |lines|).actions
  {
    ScanRecords(lines);
    assert Recorded(ScanLines(lines, |lines|), KindOf(lines, j));
  }

  /** A line that passes no test adds nothing. */
  lemma OtherLineDropped(lines: seq<string>, j: nat)
    requires j < |lines| && Undirected(Strip(lines[j]))
    requires !(IsUpperPy(Strip(lines[j])) && |Strip(lines[j])| > 2 && j + 1 < |lines|)
    requires !(!IsUpperPy(Strip(lines[j])) && |Strip(lines[j])| > 10)
    ensures ScanLines(lines, j + 1) == ScanLines(lines, j)
  {
    assert KindOf(lines, j) == Dropped;
  }

  // ---------------------------------------------------------------------------------------------
  // The parser
  // ---------------------------------------------------------------------------------------------

  /** A heading piece of the split and the content piece that follows it. */
  datatype Chunk = Chunk(heading: string, content: string)

  /** The scene the parser builds from chunk `c` as scene number `n`. */
  function SceneOf(c: Chunk, n: int): Scene {
    var lines := Split(c.content, '\n');
    var b := ScanLines(lines, |lines|);
    Scene(n, if c.heading == "INT." then Interior else Exterior, Location(c.content),
          b.dialogs, b.actions, b.camera, b.lighting, b.sound, b.characters,
          None, None, None, None, [], None, None, None, false)
  }

  /**
   * The chunks the outer loop visits from index `i` on: the piece at `i` and the piece at `i + 1`,
   * as long as both are there, then on from `i + 2`.
   */
  function Pairs(parts: seq<string>, i: nat): (r: seq<Chunk>)
    decreases |parts| - i
  {
    if i + 1 < |parts| then [Chunk(parts[i], parts[i + 1])] + Pairs(parts, i + 2) else []
  }

  /** Chunk `k` of the loop started at `i` is made of the pieces at `i + 2k` and `i + 2k + 1`. */
  lemma {:induction false} PairsAt(parts: seq<string>, i: nat, k: nat)
    requires k < |Pairs(parts, i)|
    ensures i + 2 * k + 1 < |parts|
    ensures Pairs(parts, i)[k] == Chunk(parts[i + 2 * k], parts[i + 2 * k + 1])
    decreases k
  {
    if k > 0 {
      PairsAt(parts, i + 2, k - 1);
      assert (i + 2) + 2 * (k - 1) == i + 2 * k;
    }
  }

  /** The loop never looks at the pieces before index `i`. */
  lemma {:induction false} PairsSame(a: seq<string>, b: seq<string>, i: nat)
    requires |a| == |b| && forall j :: i <= j < |a| ==> a[j] == b[j]
    ensures Pairs(a, i) == Pairs(b, i)
    decreases |a| - i
  {
    if i + 1 < |a| {
      PairsSame(a, b, i + 2);
    }
  }

  /** The scenes built from `chunks`, numbered on from `n`. */
  function Numbered(chunks: seq<Chunk>, n: int): (r: seq<Scene>)
    ensures |r| == |chunks|
  {
    seq(|chunks|, k requires 0 <= k < |chunks| => SceneOf(chunks[k], n + k))
  }

  lemma NumberedAt(chunks: seq<Chunk>, n: int, k: nat)
    requires k < |chunks|
    ensures Numbered(chunks, n)[k] == SceneOf(chunks[k], n + k)
  {
  }

  /** The scenes of a screenplay: one per heading/content pair of the split, numbered from 1. */
  function Parsed(text: string): seq<Scene> {
    Numbered(Pairs(SplitHeadings(text), 1), 1)
  }

  /** A screenplay without an `INT.`/`EXT.` heading has no scenes, and one with a heading has some. */
  lemma NoHeadingNoScenes(text: string)
    ensures Parsed(text) == [] <==> forall q :: 0 <= q < |text| ==> !HeadingAt(text, q)
  {
    SplitHeadingsOdd(text);
    SplitHeadingsSingle(text);
    FindHeadingFirst(text, 0);
    match FindHeading(text, 0)
    case None =>
    case Some(p) =>
      assert HeadingAt(text, p);
  }

  /**
   * Scene `k` has number `k + 1` and comes from heading piece `2k + 1`; it is an interior scene
   * exactly when that heading is `INT.`.
   */
  lemma ParsedShape(text: string, k: nat)
    requires k < |Parsed(text)|
    ensures 2 * k + 2 < |SplitHeadings(text)|
    ensures Parsed(text)[k].sceneNumber == k + 1
    ensures Parsed(text)[k].kind == Interior <==> SplitHeadings(text)[2 * k + 1] == "INT."
    ensures Parsed(text)[k].kind.Name() == (if SplitHeadings(text)[2 * k + 1] == "INT." then "INTERIOR" else "EXTERIOR")
  {
    var parts := SplitHeadings(text);
    PairsAt(parts, 1, k);
    NumberedAt(Pairs(parts, 1), 1, k);
  }

  /** Text before the first heading has no effect on the scenes. */
  lemma PreambleIgnoredScenes(s: string, p: nat)
    requires FindHeading(s, 0) == Some(p)
    ensures Parsed(s[p..]) == Parsed(s)
  {
    PreambleIgnored(s, p);
    var a := SplitHeadings(s[p..]);
    var b := SplitHeadings(s);
    assert |a| == |b| by {
      assert |a[1..]| == |b[1..]|;
    }
    forall j | 1 <= j < |a|
      ensures a[j] == b[j]
    {
      assert a[j] == a[1..][j - 1];
    }
    PairsSame(a, b, 1);
  }

  /** The inner loop of `parse`: the lists of one scene, filled line by line. */
  method ParseSceneBody(lines: seq<string>) returns (b: Body)
    ensures b == ScanLines(lines, |lines|)
  {
    b := EmptyBody;
    for j := 0 to |lines|
      invariant b == ScanLines(lines, j)
    {
      b := ParseLine(lines, j, b);
      ScanStep(lines, j);
    }
  }

  /**
   * One pass of the line loop: the first test that matches line `j` decides which list grows,
   * and the remaining tests are skipped.
   */
  method ParseLine(lines: seq<string>, j: nat, b0: Body) returns (b: Body)
    requires j < |lines|
    ensures b == Apply(b0, KindOf(lines, j))
  {
    b := b0;
    var line := Strip(lines[j]);
    if line == [] {
      assert KindOf(lines, j) == Blank;
      return;
    }
    var camera := Directive(line, CameraKeywords, 0);
    if camera.Some? {
      assert KindOf(lines, j) == CameraLine(camera.value);
      b := b.(camera := b.camera + [camera.value]);
      return;
    }
    var light := Directive(line, LightKeywords, 0);
    if light.Some? {
      assert KindOf(lines, j) == LightLine(light.value);
      b := b.(lighting := b.lighting + [light.value]);
      return;
    }
    var sound := Directive(line, SoundKeywords, 0);
    if sound.Some? {
      assert KindOf(lines, j) == SoundLine(sound.value);
      b := b.(sound := b.sound + [sound.value]);
      return;
    }
    if IsUpperPy(line) && |line| > 2 && j + 1 < |lines| {
      var speech := Strip(lines[j + 1]);
      assert KindOf(lines, j) == Cue(line, speech);
      b := b.(dialogs := b.dialogs + [Dialog(line, speech)]);
      if line !in b.characters {
        b := b.(characters := b.characters + [line]);
      }
    } else if !IsUpperPy(line) && |line| > 10 {
      assert KindOf(lines, j) == ActionLine(line);
      b := b.(actions := b.actions + [line]);
    } else {
      assert KindOf(lines, j) == Dropped;
    }
  }

  /** `scenes` holds the scenes of the first `|scenes|` chunks, numbered from 1. */
  predicate BuiltUpTo(scenes: seq<Scene>, chunks: seq<Chunk>) {
    |scenes| <= |chunks| && forall k :: 0 <= k < |scenes| ==> scenes[k] == SceneOf(chunks[k], k + 1)
  }

  lemma BuiltUpToStep(scenes: seq<Scene>, chunks: seq<Chunk>, scene: Scene)
    requires BuiltUpTo(scenes, chunks) && |scenes| < |chunks| && scene == SceneOf(chunks[|scenes|], |scenes| + 1)
    ensures BuiltUpTo(scenes + [scene], chunks)
  {
  }

  /** The chunk the loop reads at piece `i` is chunk number `k` of the split. */
  lemma ChunkAt(parts: seq<string>, k: nat, i: nat)
    requires i == 1 + 2 * k && k < |Pairs(parts, 1)|
    ensures i + 1 < |parts| && Pairs(parts, 1)[k] == Chunk(parts[i], parts[i + 1])
  {
    PairsAt(parts, 1, k);
  }

  /** Scenes built for every chunk, each numbered by its position, are the numbered scenes. */
  lemma BuiltAll(scenes: seq<Scene>, chunks: seq<Chunk>)
    requires BuiltUpTo(scenes, chunks) && |scenes| == |chunks|
    ensures scenes == Numbered(chunks, 1)
  {
  }

  /** `SceneParser.parse`: one scene per heading/content pair of the split, numbered 1, 2, 3, ... */
  method Parse(text: string) returns (scenes: seq<Scene>)
    ensures scenes == Parsed(text)
  {
    var parts := SplitHeadings(text);
    ghost var chunks := Pairs(parts, 1);
    scenes := [];
    var i := 1;
    while i < |parts|
      invariant i == 1 + 2 * |scenes|
      invariant |scenes| + |Pairs(parts, i)| == |chunks|
      invariant BuiltUpTo(scenes, chunks)
      decreases |parts| - i
    {
      if i + 1 < |parts| {
        ChunkAt(parts, |scenes|, i);
        var c := Chunk(parts[i], parts[i + 1]);
        var scene := ParseScene(c, |scenes| + 1);
        BuiltUpToStep(scenes, chunks, scene);
        scenes := scenes + [scene];
      }
      i := i + 2;
    }
    BuiltAll(scenes, chunks);
  }

  /** The body of the outer loop of `parse`: one scene from one heading and its content. */
  method ParseScene(c: Chunk, n: int) returns (scene: Scene)
    ensures scene == SceneOf(c, n)
  {
    var lines := Split(c.content, '\n');
    var b := ParseSceneBody(lines);
    var kind := if c.heading == "INT." then Interior else Exterior;
    scene := Scene(n, kind, Location(c.content),
                   b.dialogs, b.actions, b.camera, b.lighting, b.sound, b.characters,
                   None, None, None, None, [], None, None, None, false);
  }

  /** Every parsed scene has a non-empty location and a well-formed character list. */
  lemma ParsedScenesWellFormed(text: string, k: nat)
    requires k < |Parsed(text)|
    ensures var sc := Parsed(text)[k];
      && sc.location != []
      && NoDuplicates(sc.characters)
      && (forall n :: n in sc.characters <==> Speaks(sc.dialogs, n))
  {
    var parts := SplitHeadings(text);
    SplitHeadingsWell(text);
    PairsAt(parts, 1, k);
    NumberedAt(Pairs(parts, 1), 1, k);
    var c := parts[2 * k + 2];
    ParsedLocationNonEmpty(c);
    var lines := Split(c, '\n');
    SpeakersFacts(Classified(lines, |lines|), |lines|);
    ScanIsFold(lines);
  }
}
