/** The emphasis formatter of src/lib/markdown.tsx: find every `***x***`,
    `___x___`, `**x**`, `__x__`, `*x*` and `_x_` span, keep the longest
    non-overlapping ones, and cut the text into plain and styled parts. */
module Markdown {
  import opened Types
  import opened Text

  datatype Style = BoldItalic | Bold | Italic

  /** One emphasis pattern: `width` copies of `delim`, a non-empty run of
      other characters, and `width` copies of `delim` again. */
  datatype Pattern = Pattern(delim: char, width: nat, style: Style)

  /** The patterns in the order they are tried. */
  function Patterns(): seq<Pattern> {
    [Pattern('*', 3, BoldItalic), Pattern('_', 3, BoldItalic),
     Pattern('*', 2, Bold), Pattern('_', 2, Bold),
     Pattern('*', 1, Italic), Pattern('_', 1, Italic)]
  }

  /** A match: its extent [start, end) in the text and its trimmed inner text. */
  datatype Candidate = Candidate(start: nat, end: nat, content: string, style: Style)

  function Len(c: Candidate): int {
    c.end - c.start
  }

  /** A candidate that lies inside `text` and carries trimmed, non-empty content. */
  predicate WellFormed(text: string, c: Candidate) {
    c.start < c.end <= |text| && IsTrimmed(c.content) && c.content != []
  }

  /** `width` copies of `c` start at index i. */
  predicate Fence(text: string, i: nat, c: char, width: nat) {
    i + width <= |text| && forall j :: i <= j < i + width ==> text[j] == c
  }

  /** The first index at or after i holding `c`, or the length of the text. */
  function NextDelim(text: string, c: char, i: nat): (r: nat)
    requires i <= |text|
    ensures i <= r <= |text|
    ensures r < |text| ==> text[r] == c
    decreases |text| - i
  {
    if i == |text| || text[i] == c then i else NextDelim(text, c, i + 1)
  }

  /** No delimiter is skipped: NextDelim finds the first one. */
  lemma {:induction false} NextDelimFirst(text: string, c: char, i: nat, j: nat)
    requires i <= |text| && i <= j < NextDelim(text, c, i)
    ensures text[j] != c
    decreases |text| - i
  {
    if j > i {
      NextDelimFirst(text, c, i + 1, j);
    }
  }

  /** Where the pattern's match starting exactly at p ends, if it matches
      there. The inner run cannot contain the delimiter, so the lazy inner
      group stops at the first delimiter after the opening fence, and the
      closing fence must start there. */
  function MatchEnd(text: string, pat: Pattern, p: nat): (r: Option<nat>)
    requires pat.width > 0
    ensures r.Some? ==> p + 2 * pat.width < r.value <= |text|
  {
    if Fence(text, p, pat.delim, pat.width) then
      var q := NextDelim(text, pat.delim, p + pat.width);
      if q > p + pat.width && Fence(text, q, pat.delim, pat.width) then Some(q + pat.width) else None
    else None
  }

  /** RegExp.prototype.exec with the `g` flag from `lastIndex`: the first
      position at or after `from` where the pattern matches, and the match's end. */
  function NextMatch(text: string, pat: Pattern, from: nat): (r: Option<(nat, nat)>)
    requires pat.width > 0
    ensures r.Some? ==> from <= r.value.0 && r.value.0 + 2 * pat.width < r.value.1 <= |text|
    decreases |text| - from
  {
    if from >= |text| then None
    else if MatchEnd(text, pat, from).Some? then Some((from, MatchEnd(text, pat, from).value))
    else NextMatch(text, pat, from + 1)
  }

  /** exec reports the leftmost match at or after `from`: a real match, with
      none before it, and None only when there is no match at all. */
  lemma {:induction false} NextMatchIsLeftmost(text: string, pat: Pattern, from: nat, p: nat)
    requires pat.width > 0
    ensures NextMatch(text, pat, from).Some? ==>
              MatchEnd(text, pat, NextMatch(text, pat, from).value.0) == Some(NextMatch(text, pat, from).value.1)
    ensures from <= p && (NextMatch(text, pat, from).None? || p < NextMatch(text, pat, from).value.0) ==>
              MatchEnd(text, pat, p).None?
    decreases |text| - from
  {
    if from < |text| && MatchEnd(text, pat, from).None? {
      NextMatchIsLeftmost(text, pat, from + 1, p);
    }
  }

  /** The candidate a match yields, when its trimmed inner text is non-empty. */
  function Keep(text: string, pat: Pattern, p: nat, e: nat): (r: seq<Candidate>)
    requires p + 2 * pat.width < e <= |text|
    ensures |r| <= 1
    ensures |r| == 1 ==> WellFormed(text, r[0]) && r[0].start == p
  {
    var content := Trim(text[p + pat.width..e - pat.width]);
    if |content| > 0 then [Candidate(p, e, content, pat.style)] else []
  }

  /** The candidates one pattern contributes, scanning from `from`. */
  function Scan(text: string, pat: Pattern, from: nat): (r: seq<Candidate>)
    requires pat.width > 0
    decreases |text| - from
  {
    var m := NextMatch(text, pat, from);
    if m.None? then []
    else
      var head := Keep(text, pat, m.value.0, m.value.1);
      var rest := Scan(text, pat, m.value.1);
      head + rest
  }

  lemma {:induction false} ScanWellFormed(text: string, pat: Pattern, from: nat)
    requires pat.width > 0
    ensures forall k :: 0 <= k < |Scan(text, pat, from)| ==> WellFormed(text, Scan(text, pat, from)[k]) && from <= Scan(text, pat, from)[k].start
    decreases |text| - from
  {
    var m := NextMatch(text, pat, from);
    if m.Some? {
      ScanWellFormed(text, pat, m.value.1);
      var head := Keep(text, pat, m.value.0, m.value.1);
      var rest := Scan(text, pat, m.value.1);
      assert Scan(text, pat, from) == head + rest;
    }
  }

  /** One step of the scan: what was found so far, then the next match's
      candidate, then the rest. */
  lemma ScanStep(text: string, pat: Pattern, found: seq<Candidate>, from: nat, index: nat, end: nat)
    requires pat.width > 0 && NextMatch(text, pat, from) == Some((index, end))
    ensures found + Scan(text, pat, from) == (found + Keep(text, pat, index, end)) + Scan(text, pat, end)
  {
    assert Scan(text, pat, from) == Keep(text, pat, index, end) + Scan(text, pat, end);
  }

  /** The loop `while ((match = regex.exec(text)) !== null)` for one pattern. */
  method FindMatches(text: string, pat: Pattern) returns (found: seq<Candidate>)
    requires pat.width > 0
    ensures found == Scan(text, pat, 0)
  {
    found := [];
    var lastIndex: nat := 0;
    var m := NextMatch(text, pat, 0);
    while m.Some?
      invariant lastIndex <= |text|
      invariant m == NextMatch(text, pat, lastIndex)
      invariant found + Scan(text, pat, lastIndex) == Scan(text, pat, 0)
      decreases |text| - lastIndex
    {
      var (index, end) := m.value;
      ScanStep(text, pat, found, lastIndex, index, end);
      found := found + Keep(text, pat, index, end);
      lastIndex := end;
      m := NextMatch(text, pat, lastIndex);
    }
  }

  /** All candidates of the first n patterns, pattern by pattern. */
  function CandidatesUpTo(text: string, n: nat): (r: seq<Candidate>)
    requires n <= |Patterns()|
    ensures forall k :: 0 <= k < |r| ==> WellFormed(text, r[k])
  {
    if n == 0 then []
    else
      ScanWellFormed(text, Patterns()[n - 1], 0);
      CandidatesUpTo(text, n - 1) + Scan(text, Patterns()[n - 1], 0)
  }

  function Candidates(text: string): seq<Candidate> {
    CandidatesUpTo(text, |Patterns()|)
  }

  /** The loop over the patterns collecting `matches`. */
  method CollectCandidates(text: string) returns (matches: seq<Candidate>)
    ensures matches == Candidates(text)
  {
    matches := [];
    var patterns := Patterns();
    for i := 0 to |patterns|
      invariant matches == CandidatesUpTo(text, i)
    {
      var found := FindMatches(text, patterns[i]);
      matches := matches + found;
    }
  }

  // ---------------------------------------------------------------------
  // Sorting (Array.prototype.sort, stable)

  /** The two comparators: longest first then earliest start, and earliest
      start. */
  datatype Order = ByPriority | ByStart

  /** `a` sorts strictly before `b`. */
  predicate Before(order: Order, a: Candidate, b: Candidate) {
    match order
    case ByPriority => Len(a) > Len(b) || (Len(a) == Len(b) && a.start < b.start)
    case ByStart => a.start < b.start
  }

  lemma BeforeTransitive(order: Order, a: Candidate, b: Candidate, c: Candidate)
    requires Before(order, a, b) && Before(order, b, c)
    ensures Before(order, a, c)
  {
  }

  predicate Sorted(order: Order, s: seq<Candidate>) {
    forall i, j :: 0 <= i < j < |s| ==> !Before(order, s[j], s[i])
  }

  /** Insert x after every element it does not sort strictly before. */
  function Insert(order: Order, x: Candidate, s: seq<Candidate>): (r: seq<Candidate>)
    ensures multiset(r) == multiset(s) + multiset{x}
  {
    if s == [] then [x]
    else if Before(order, x, s[0]) then [x] + s
    else
      assert s == [s[0]] + s[1..];
      [s[0]] + Insert(order, x, s[1..])
  }

  /** A stable insertion sort. */
  function SortBy(order: Order, s: seq<Candidate>): (r: seq<Candidate>)
    ensures multiset(r) == multiset(s)
  {
    if s == [] then []
    else
      assert s == s[..|s| - 1] + [s[|s| - 1]];
      Insert(order, s[|s| - 1], SortBy(order, s[..|s| - 1]))
  }

  lemma {:induction false} InsertSorted(order: Order, x: Candidate, s: seq<Candidate>)
    requires Sorted(order, s)
    ensures Sorted(order, Insert(order, x, s))
  {
    if s != [] && !Before(order, x, s[0]) {
      InsertSorted(order, x, s[1..]);
      InsertKeepsHeadFirst(order, x, s);
      ConsSorted(order, s[0], Insert(order, x, s[1..]));
    } else if s != [] {
      forall j | 0 <= j < |s|
        ensures !Before(order, s[j], x)
      {
        if Before(order, s[j], x) {
          BeforeTransitive(order, s[j], x, s[0]);
        }
      }
      ConsSorted(order, x, s);
    }
  }

  /** Nothing inserted behind the head sorts before it. */
  lemma InsertKeepsHeadFirst(order: Order, x: Candidate, s: seq<Candidate>)
    requires Sorted(order, s) && s != [] && !Before(order, x, s[0])
    ensures forall j :: 0 <= j < |Insert(order, x, s[1..])| ==> !Before(order, Insert(order, x, s[1..])[j], s[0])
  {
    var t := Insert(order, x, s[1..]);
    forall j | 0 <= j < |t|
      ensures !Before(order, t[j], s[0])
    {
      assert t[j] in multiset(t);
      assert t[j] == x || t[j] in multiset(s[1..]);
      if t[j] != x {
        var k :| 0 <= k < |s[1..]| && s[1..][k] == t[j];
        assert s[k + 1] == t[j];
      }
    }
  }

  /** A sorted sequence stays sorted behind an element nothing in it sorts
      before. */
  lemma ConsSorted(order: Order, a: Candidate, t: seq<Candidate>)
    requires Sorted(order, t)
    requires forall j :: 0 <= j < |t| ==> !Before(order, t[j], a)
    ensures Sorted(order, [a] + t)
  {
    var u := [a] + t;
    forall i, j | 0 <= i < j < |u|
      ensures !Before(order, u[j], u[i])
    {
      assert u[j] == t[j - 1];
      if i > 0 {
        assert u[i] == t[i - 1];
      }
    }
  }

  /** The sort returns a sorted permutation of its input. */
  lemma {:induction false} SortBySorted(order: Order, s: seq<Candidate>)
    ensures Sorted(order, SortBy(order, s))
    ensures multiset(SortBy(order, s)) == multiset(s)
  {
    if s != [] {
      SortBySorted(order, s[..|s| - 1]);
      InsertSorted(order, s[|s| - 1], SortBy(order, s[..|s| - 1]));
    }
  }

  // ---------------------------------------------------------------------
  // Overlap removal

  /** The overlap test of the source, clause by clause. */
  predicate Overlaps(m: Candidate, e: Candidate) {
    (m.start >= e.start && m.start < e.end) ||
    (m.end > e.start && m.end <= e.end) ||
    (m.start <= e.start && m.end >= e.end)
  }

  /** The two extents share a position. */
  predicate Intersect(a: Candidate, b: Candidate) {
    a.start < b.end && b.start < a.end
  }

  /** For non-empty extents the source's three clauses say exactly that the
      extents intersect, containment included; so the test is symmetric. */
  lemma OverlapsIsIntersect(m: Candidate, e: Candidate)
    requires m.start < m.end && e.start < e.end
    ensures Overlaps(m, e) <==> Intersect(m, e)
    ensures Overlaps(m, e) <==> Overlaps(e, m)
  {
  }

  predicate OverlapsAny(m: Candidate, kept: seq<Candidate>) {
    exists k :: 0 <= k < |kept| && Overlaps(m, kept[k])
  }

  /** `nonOverlappingMatches` after the loop has visited `ms`. */
  function Greedy(ms: seq<Candidate>): seq<Candidate> {
    if ms == [] then []
    else
      var kept := Greedy(ms[..|ms| - 1]);
      if OverlapsAny(ms[|ms| - 1], kept) then kept else kept + [ms[|ms| - 1]]
  }

  /** The loop building `nonOverlappingMatches`. */
  method RemoveOverlaps(matches: seq<Candidate>) returns (kept: seq<Candidate>)
    ensures kept == Greedy(matches)
  {
    kept := [];
    for i := 0 to |matches|
      invariant kept == Greedy(matches[..i])
    {
      assert matches[..i + 1][..i] == matches[..i];
      var overlaps := false;
      for k := 0 to |kept|
        invariant overlaps <==> exists k' :: 0 <= k' < k && Overlaps(matches[i], kept[k'])
      {
        if Overlaps(matches[i], kept[k]) {
          overlaps := true;
        }
      }
      if !overlaps {
        kept := kept + [matches[i]];
      }
    }
    assert matches[..|matches|] == matches;
  }

  /** Every kept candidate is an input candidate, and no later kept candidate
      overlaps an earlier one. */
  lemma {:induction false} GreedyKeepsDisjoint(ms: seq<Candidate>)
    ensures forall x :: x in Greedy(ms) ==> x in ms
    ensures forall i, j :: 0 <= i < j < |Greedy(ms)| ==> !Overlaps(Greedy(ms)[j], Greedy(ms)[i])
  {
    if ms != [] {
      GreedyKeepsDisjoint(ms[..|ms| - 1]);
      assert forall x :: x in ms[..|ms| - 1] ==> x in ms;
    }
  }

  /** The candidates kept from a prefix are a prefix of the kept candidates. */
  lemma {:induction false} GreedyPrefix(ms: seq<Candidate>, j: nat)
    requires j <= |ms|
    ensures |Greedy(ms[..j])| <= |Greedy(ms)|
    ensures Greedy(ms[..j]) == Greedy(ms)[..|Greedy(ms[..j])|]
    decreases |ms| - j
  {
    if j < |ms| {
      var init := ms[..|ms| - 1];
      assert init[..j] == ms[..j];
      GreedyPrefix(init, j);
    } else {
      assert ms[..j] == ms;
    }
  }

  /** A candidate is either kept or overlaps one kept before it. */
  lemma GreedyDropped(ms: seq<Candidate>, j: nat)
    requires j < |ms|
    ensures ms[j] in Greedy(ms) ||
            exists e :: e in Greedy(ms[..j]) && e in Greedy(ms) && Overlaps(ms[j], e)
  {
    if OverlapsAny(ms[j], Greedy(ms[..j])) {
      GreedyBlocked(ms, j);
    } else {
      GreedyKeepsFree(ms, j);
    }
  }

  /** A candidate that overlaps one kept before it overlaps a kept one. */
  lemma GreedyBlocked(ms: seq<Candidate>, j: nat)
    requires j < |ms| && OverlapsAny(ms[j], Greedy(ms[..j]))
    ensures exists e :: e in Greedy(ms[..j]) && e in Greedy(ms) && Overlaps(ms[j], e)
  {
    var g := Greedy(ms);
    var before := Greedy(ms[..j]);
    GreedyPrefix(ms, j);
    var k :| 0 <= k < |before| && Overlaps(ms[j], before[k]);
    assert before[k] == g[..|before|][k] == g[k];
    assert before[k] in g;
  }

  /** A candidate that overlaps none kept before it is kept. */
  lemma GreedyKeepsFree(ms: seq<Candidate>, j: nat)
    requires j < |ms| && !OverlapsAny(ms[j], Greedy(ms[..j]))
    ensures ms[j] in Greedy(ms)
  {
    var g := Greedy(ms);
    var before := Greedy(ms[..j]);
    var pre := ms[..j + 1];
    assert pre[..j] == ms[..j] && pre[j] == ms[j];
    var kept := Greedy(pre);
    assert kept == before + [ms[j]];
    assert kept[|before|] == ms[j];
    GreedyPrefix(ms, j + 1);
    assert kept == g[..|kept|];
    assert g[..|kept|][|before|] == g[|before|];
  }

  /** Among overlapping candidates, taken longest first: every dropped
      candidate overlaps a kept one that is longer, or as long and starting
      no later. */
  lemma LongerWins(ms: seq<Candidate>, j: nat)
    requires Sorted(ByPriority, ms)
    requires j < |ms|
    ensures ms[j] in Greedy(ms) ||
            exists e :: e in Greedy(ms) && Overlaps(ms[j], e) &&
                        (Len(e) > Len(ms[j]) || (Len(e) == Len(ms[j]) && e.start <= ms[j].start))
  {
    GreedyDropped(ms, j);
    if ms[j] !in Greedy(ms) {
      var e :| e in Greedy(ms[..j]) && e in Greedy(ms) && Overlaps(ms[j], e);
      GreedyKeepsDisjoint(ms[..j]);
      var i :| 0 <= i < j && ms[i] == e;
      assert !Before(ByPriority, ms[j], ms[i]);
    }
  }

  // ---------------------------------------------------------------------
  // Splicing

  datatype Part = Plain(text: string) | Styled(content: string, style: Style)

  /** A piece of the text: an uncovered gap, or a kept candidate together
      with the source text it covers. */
  datatype Segment = Gap(text: string) | Covered(c: Candidate, source: string)

  predicate Within(text: string, spans: seq<Candidate>) {
    forall k :: 0 <= k < |spans| ==> spans[k].start < spans[k].end <= |text|
  }

  /** The gaps and covered pieces from `cur` on. */
  function Layout(text: string, spans: seq<Candidate>, cur: nat): seq<Segment>
    requires cur <= |text| && Within(text, spans)
  {
    if spans == [] then
      (if cur < |text| then [Gap(text[cur..])] else [])
    else
      var m := spans[0];
      (if m.start > cur then [Gap(text[cur..m.start])] else []) +
      [Covered(m, text[m.start..m.end])] + Layout(text, spans[1..], m.end)
  }

  function PartOf(s: Segment): Part {
    match s
    case Gap(t) => Plain(t)
    case Covered(c, _) => Styled(c.content, c.style)
  }

  function PartsOf(segments: seq<Segment>): (r: seq<Part>)
    ensures |r| == |segments|
    ensures forall k :: 0 <= k < |r| ==> r[k] == PartOf(segments[k])
  {
    seq(|segments|, k requires 0 <= k < |segments| => PartOf(segments[k]))
  }

  function SourceOf(s: Segment): string {
    match s
    case Gap(t) => t
    case Covered(_, src) => src
  }

  function Concat(segments: seq<Segment>): string {
    if segments == [] then [] else SourceOf(segments[0]) + Concat(segments[1..])
  }

  /** `spans` are in increasing order and each ends no later than the next
      one starts. */
  predicate Chained(spans: seq<Candidate>, cur: nat) {
    (spans != [] ==> cur <= spans[0].start) &&
    forall k :: 0 <= k < |spans| - 1 ==> spans[k].end <= spans[k + 1].start
  }

  lemma {:induction false} ConcatAppend(a: seq<Segment>, b: seq<Segment>)
    ensures Concat(a + b) == Concat(a) + Concat(b)
  {
    if a != [] {
      assert (a + b)[1..] == a[1..] + b;
      ConcatAppend(a[1..], b);
    } else {
      assert a + b == b;
    }
  }

  lemma ConcatAround(gap: seq<Segment>, c: Segment, rest: seq<Segment>)
    ensures Concat(gap + [c] + rest) == Concat(gap) + SourceOf(c) + Concat(rest)
  {
    ConcatAppend(gap, [c]);
    ConcatAppend(gap + [c], rest);
    assert Concat([c]) == SourceOf(c) + Concat([]);
  }

  /** Gluing the pieces back together gives the text from `cur` on. */
  lemma {:induction false} LayoutReassembles(text: string, spans: seq<Candidate>, cur: nat)
    requires cur <= |text| && Within(text, spans) && Chained(spans, cur)
    ensures Concat(Layout(text, spans, cur)) == text[cur..]
    decreases |spans|
  {
    if spans != [] {
      var m := spans[0];
      var gap := if m.start > cur then [Gap(text[cur..m.start])] else [];
      LayoutReassembles(text, spans[1..], m.end);
      ConcatAround(gap, Covered(m, text[m.start..m.end]), Layout(text, spans[1..], m.end));
      assert Concat(gap) == text[cur..m.start] by {
        if m.start > cur {
          assert Concat(gap) == text[cur..m.start] + Concat([]);
        }
      }
      SliceSplit(text, cur, m.start, m.end);
    }
  }

  lemma SliceSplit(text: string, a: nat, b: nat, c: nat)
    requires a <= b <= c <= |text|
    ensures text[a..] == text[a..b] + text[b..c] + text[c..]
  {
  }

  /** Every plain piece is a non-empty substring: the splicing loop never
      emits an empty plain part. */
  lemma {:induction false} LayoutGapsNonEmpty(text: string, spans: seq<Candidate>, cur: nat)
    requires cur <= |text| && Within(text, spans) && Chained(spans, cur)
    ensures forall k :: 0 <= k < |Layout(text, spans, cur)| ==>
              Layout(text, spans, cur)[k].Gap? ==> Layout(text, spans, cur)[k].text != []
    decreases |spans|
  {
    if spans != [] {
      var m := spans[0];
      LayoutGapsNonEmpty(text, spans[1..], m.end);
    }
  }

  /** The parts the splicing loop emits from `cur` on. */
  function Render(text: string, spans: seq<Candidate>, cur: nat): seq<Part>
    requires cur <= |text| && Within(text, spans)
  {
    PartsOf(Layout(text, spans, cur))
  }

  /** The kept candidates in the order they are spliced. */
  function Spans(text: string): seq<Candidate> {
    SortBy(ByStart, Greedy(SortBy(ByPriority, Candidates(text))))
  }

  lemma SpansWithin(text: string)
    ensures Within(text, Spans(text))
    ensures forall k :: 0 <= k < |Spans(text)| ==> WellFormed(text, Spans(text)[k])
  {
    var c := Candidates(text);
    var p := SortBy(ByPriority, c);
    var g := Greedy(p);
    var s := Spans(text);
    GreedyKeepsDisjoint(p);
    forall k | 0 <= k < |s|
      ensures WellFormed(text, s[k])
    {
      assert s[k] in multiset(s);
      assert s[k] in g;
      assert s[k] in p;
      assert s[k] in multiset(p);
      assert s[k] in c;
    }
  }

  /** formatMarkdown's result. */
  function Format(text: string): seq<Part> {
    if text == [] then []
    else
      SpansWithin(text);
      var parts := Render(text, Spans(text), 0);
      if parts == [] then [Plain(text)] else parts
  }

  /** The plain part for the text between `from` and `to`, if any. */
  function GapParts(text: string, from: nat, to: nat): seq<Part>
    requires from <= to <= |text|
  {
    if to > from then [Plain(text[from..to])] else []
  }

  /** Splicing one more span onto what was emitted so far: the gap before
      it, the span's styled content, then the rest of the rendering. */
  lemma RenderAdvance(text: string, spans: seq<Candidate>, i: nat, cur: nat, parts: seq<Part>)
    requires cur <= |text| && Within(text, spans) && i < |spans|
    requires spans[i].start >= cur
    ensures Within(text, spans[i + 1..])
    ensures parts + Render(text, spans[i..], cur) ==
            (parts + GapParts(text, cur, spans[i].start) + [Styled(spans[i].content, spans[i].style)])
            + Render(text, spans[i + 1..], spans[i].end)
  {
    RenderStep(text, spans, i, cur);
    var a := GapParts(text, cur, spans[i].start);
    var b := [Styled(spans[i].content, spans[i].style)];
    var c := Render(text, spans[i + 1..], spans[i].end);
    assert parts + (a + b + c) == (parts + a + b) + c;
  }

  /** The rendering from span i on: the gap before it, the span's styled
      content, then the rendering of the remaining spans. */
  lemma RenderStep(text: string, spans: seq<Candidate>, i: nat, cur: nat)
    requires cur <= |text| && Within(text, spans) && i < |spans|
    requires spans[i].start >= cur
    ensures Within(text, spans[i..]) && Within(text, spans[i + 1..])
    ensures Render(text, spans[i..], cur) ==
            GapParts(text, cur, spans[i].start) + [Styled(spans[i].content, spans[i].style)]
            + Render(text, spans[i + 1..], spans[i].end)
  {
    var m := spans[i];
    var gap := if m.start > cur then [Gap(text[cur..m.start])] else [];
    var covered := [Covered(m, text[m.start..m.end])];
    var tail := Layout(text, spans[i + 1..], m.end);
    LayoutStep(text, spans, i, cur);
    PartsOfAppend(gap + covered, tail);
    PartsOfAppend(gap, covered);
    assert PartsOf(gap) == GapParts(text, cur, m.start);
    assert PartsOf(covered) == [Styled(m.content, m.style)];
  }

  /** The layout from span i on: the gap before it, the span, the rest. */
  lemma LayoutStep(text: string, spans: seq<Candidate>, i: nat, cur: nat)
    requires cur <= |text| && Within(text, spans) && i < |spans|
    ensures Within(text, spans[i..]) && Within(text, spans[i + 1..])
    ensures Layout(text, spans[i..], cur) ==
            (if spans[i].start > cur then [Gap(text[cur..spans[i].start])] else [])
            + [Covered(spans[i], text[spans[i].start..spans[i].end])]
            + Layout(text, spans[i + 1..], spans[i].end)
  {
    var rest := spans[i..];
    assert rest[0] == spans[i] && rest[1..] == spans[i + 1..];
  }

  lemma PartsOfAppend(a: seq<Segment>, b: seq<Segment>)
    ensures PartsOf(a + b) == PartsOf(a) + PartsOf(b)
  {
    var l, r := PartsOf(a + b), PartsOf(a) + PartsOf(b);
    forall k | 0 <= k < |l|
      ensures l[k] == r[k]
    {
      if k < |a| {
        assert (a + b)[k] == a[k];
      } else {
        assert (a + b)[k] == b[k - |a|];
      }
    }
  }

  /** After the last span only the remaining text is left. */
  lemma RenderEnd(text: string, cur: nat)
    requires cur <= |text|
    ensures Render(text, [], cur) == GapParts(text, cur, |text|)
  {
    if cur < |text| {
      assert Layout(text, [], cur) == [Gap(text[cur..])];
      var r := PartsOf([Gap(text[cur..])]);
      assert |r| == 1 && r[0] == Plain(text[cur..]);
      assert r == [Plain(text[cur..])];
      assert text[cur..|text|] == text[cur..];
    } else {
      assert Layout(text, [], cur) == [];
    }
  }

  /** The plain text between `from` and `to` is pushed when it is non-empty. */
  method PushPlain(parts: seq<Part>, text: string, from: nat, to: nat) returns (next: seq<Part>)
    requires from <= to <= |text|
    ensures next == parts + GapParts(text, from, to)
  {
    next := parts;
    if to > from {
      var plainText := text[from..to];
      if plainText != [] {
        next := next + [Plain(plainText)];
      }
    }
  }

  /** formatMarkdown. */
  method FormatMarkdown(text: string) returns (parts: seq<Part>)
    ensures parts == Format(text)
  {
    if text == [] {
      return [];
    }
    var matches := CollectCandidates(text);
    matches := SortBy(ByPriority, matches);
    var nonOverlapping := RemoveOverlaps(matches);
    nonOverlapping := SortBy(ByStart, nonOverlapping);
    SpansChained(text);
    parts := Splice(text, nonOverlapping);
    if parts == [] {
      parts := [Plain(text)];
    }
  }

  /** The splicing loop of formatMarkdown: the gap before each span, the
      span's styled content, and the text after the last span. */
  method Splice(text: string, spans: seq<Candidate>) returns (parts: seq<Part>)
    requires Within(text, spans) && Chained(spans, 0)
    ensures parts == Render(text, spans, 0)
  {
    parts := [];
    var currentIndex: nat := 0;
    for i := 0 to |spans|
      invariant currentIndex <= |text|
      invariant Within(text, spans[i..])
      invariant i < |spans| ==> currentIndex <= spans[i].start
      invariant parts + Render(text, spans[i..], currentIndex) == Render(text, spans, 0)
    {
      var m := spans[i];
      RenderAdvance(text, spans, i, currentIndex, parts);
      parts := PushPlain(parts, text, currentIndex, m.start);
      parts := parts + [Styled(m.content, m.style)];
      currentIndex := m.end;
    }
    assert spans[|spans|..] == [];
    RenderEnd(text, currentIndex);
    parts := PushPlain(parts, text, currentIndex, |text|);
  }

  /** The spans to splice are chained: sorted by start and pairwise disjoint. */
  lemma SpansChained(text: string)
    ensures Within(text, Spans(text))
    ensures Chained(Spans(text), 0)
  {
    SpansWithin(text);
    var p := SortBy(ByPriority, Candidates(text));
    PriorityGreedyNonEmpty(Candidates(text));
    GreedyKeepsDisjoint(p);
    SortBySorted(ByStart, Greedy(p));
    SortedDisjointChained(SortBy(ByStart, Greedy(p)), Greedy(p));
  }

  /** The kept candidates are candidates, so their extents are non-empty. */
  lemma PriorityGreedyNonEmpty(c: seq<Candidate>)
    requires forall i :: 0 <= i < |c| ==> c[i].start < c[i].end
    ensures forall i :: 0 <= i < |Greedy(SortBy(ByPriority, c))| ==>
              Greedy(SortBy(ByPriority, c))[i].start < Greedy(SortBy(ByPriority, c))[i].end
  {
    var p := SortBy(ByPriority, c);
    var g := Greedy(p);
    GreedyKeepsDisjoint(p);
    forall i | 0 <= i < |g|
      ensures g[i].start < g[i].end
    {
      assert g[i] in p;
      assert g[i] in multiset(p);
      assert g[i] in c;
    }
  }

  /** Sorting pairwise non-overlapping, non-empty extents by start chains them. */
  lemma SortedDisjointChained(s: seq<Candidate>, g: seq<Candidate>)
    requires multiset(s) == multiset(g) && Sorted(ByStart, s)
    requires forall i :: 0 <= i < |g| ==> g[i].start < g[i].end
    requires forall i, j :: 0 <= i < j < |g| ==> !Overlaps(g[j], g[i])
    ensures forall k :: 0 <= k < |s| - 1 ==> s[k].end <= s[k + 1].start
  {
    forall k | 0 <= k < |s| - 1
      ensures s[k].end <= s[k + 1].start
    {
      assert s[k] in multiset(g) && s[k + 1] in multiset(g);
      var a :| 0 <= a < |g| && g[a] == s[k];
      var b :| 0 <= b < |g| && g[b] == s[k + 1];
      OverlapsIsIntersect(g[a], g[b]);
      OverlapsIsIntersect(g[b], g[a]);
      if a == b {
        DistinctInSorted(s, k, g);
      }
    }
  }

  /** A sequence without repetitions holds each value at most once. */
  lemma {:induction false} DistinctCountsOne(g: seq<Candidate>, x: Candidate)
    requires forall i, j :: 0 <= i < j < |g| ==> g[i] != g[j]
    ensures multiset(g)[x] <= 1
  {
    if g != [] {
      var init := g[..|g| - 1];
      assert g == init + [g[|g| - 1]];
      DistinctCountsOne(init, x);
      if g[|g| - 1] == x {
        assert x !in init;
      }
    }
  }

  /** A permutation of pairwise non-overlapping candidates holds each of them
      once. */
  lemma DistinctInSorted(s: seq<Candidate>, k: nat, g: seq<Candidate>)
    requires k + 1 < |s| && multiset(s) == multiset(g)
    requires forall i :: 0 <= i < |g| ==> g[i].start < g[i].end
    requires forall i, j :: 0 <= i < j < |g| ==> !Overlaps(g[j], g[i])
    ensures s[k] != s[k + 1]
  {
    forall i, j | 0 <= i < j < |g|
      ensures g[i] != g[j]
    {
      if g[i] == g[j] {
        assert Overlaps(g[j], g[i]);
      }
    }
    DistinctCountsOne(g, s[k]);
    assert s == s[..k] + [s[k], s[k + 1]] + s[k + 2..];
    assert multiset(s)[s[k]] >= multiset([s[k], s[k + 1]])[s[k]];
  }

  // ---------------------------------------------------------------------
  // What formatMarkdown promises

  /** Every covered piece is one of the spans. */
  lemma {:induction false} LayoutCoversSpans(text: string, spans: seq<Candidate>, cur: nat)
    requires cur <= |text| && Within(text, spans)
    ensures forall k :: 0 <= k < |Layout(text, spans, cur)| && Layout(text, spans, cur)[k].Covered? ==>
              Layout(text, spans, cur)[k].c in spans
    decreases |spans|
  {
    if spans != [] {
      LayoutCoversSpans(text, spans[1..], spans[0].end);
      assert forall x :: x in spans[1..] ==> x in spans;
    }
  }

  /** The pieces behind the parts glue back to the whole text, and the
      parts are those pieces' rendering. */
  lemma FormatReassembles(text: string)
    requires text != []
    ensures Within(text, Spans(text))
    ensures Format(text) == PartsOf(Layout(text, Spans(text), 0))
    ensures Concat(Layout(text, Spans(text), 0)) == text
  {
    SpansChained(text);
    LayoutReassembles(text, Spans(text), 0);
    assert text[0..] == text;
  }

  /** The result is empty exactly for the empty text; text without any
      emphasis comes back as one plain part. */
  lemma FormatEmptyAndPlain(text: string)
    ensures Format(text) == [] <==> text == []
    ensures Spans(text) == [] && text != [] ==> Format(text) == [Plain(text)]
  {
    if text != [] {
      FormatReassembles(text);
      if Spans(text) == [] {
        var l := Layout(text, [], 0);
        assert l == [Gap(text[0..])];
        assert text[0..] == text;
        assert PartsOf(l)[0] == Plain(text);
      }
    }
  }

  /** Plain parts are never empty, and styled parts carry trimmed, non-empty
      content taken from a kept match. */
  lemma FormatPartsWellFormed(text: string)
    ensures forall k :: 0 <= k < |Format(text)| && Format(text)[k].Plain? ==> Format(text)[k].text != []
    ensures forall k :: 0 <= k < |Format(text)| && Format(text)[k].Styled? ==>
              IsTrimmed(Format(text)[k].content) && Format(text)[k].content != []
  {
    if text != [] {
      FormatReassembles(text);
      SpansChained(text);
      SpansWithin(text);
      var l := Layout(text, Spans(text), 0);
      LayoutGapsNonEmpty(text, Spans(text), 0);
      LayoutCoversSpans(text, Spans(text), 0);
      forall k | 0 <= k < |Format(text)|
        ensures Format(text)[k].Plain? ==> Format(text)[k].text != []
        ensures Format(text)[k].Styled? ==> IsTrimmed(Format(text)[k].content) && Format(text)[k].content != []
      {
        assert Format(text)[k] == PartOf(l[k]);
        if l[k].Covered? {
          var i :| 0 <= i < |Spans(text)| && Spans(text)[i] == l[k].c;
          assert WellFormed(text, Spans(text)[i]);
        }
      }
    }
  }
}
