/**
 Deterministic chunking: windows of bounded length that end at the nicest boundary near their limit and
 overlap, each reported as the exact span of its text without the surrounding white space.
 */
module Chunking {
  import opened Common

  const DEFAULT_MAX_CHARS := 1200
  const DEFAULT_OVERLAP_CHARS := 150
  const BOUNDARY_SEARCH_WINDOW := 300

  datatype ChunkingError = MaxNotPositive | OverlapNegative | OverlapTooLarge

  datatype Chunk = Chunk(index: nat, text: string, start: nat, end: nat)

  /** The characters the language runtime counts as white space. */
  predicate IsSpace(c: char) {
    var n := c as int;
    || 0x09 <= n <= 0x0D || 0x1C <= n <= 0x20 || n == 0x85 || n == 0xA0 || n == 0x1680
    || 0x2000 <= n <= 0x200A || n == 0x2028 || n == 0x2029 || n == 0x202F || n == 0x205F || n == 0x3000
  }

  // ---- The two patterns ----------------------------------------------------------------------------------

  /** A paragraph break: a newline, white space, a newline. A sentence end: one of . ! ?, closing marks, a space. */
  datatype Pattern = ParagraphBreak | SentenceEnd

  predicate Opens(p: Pattern, c: char) {
    match p case ParagraphBreak => c == '\n' case SentenceEnd => c == '.' || c == '!' || c == '?'
  }

  predicate Repeats(p: Pattern, c: char) {
    match p case ParagraphBreak => IsSpace(c) case SentenceEnd => c == '\"' || c == '\'' || c == ')' || c == ']'
  }

  predicate Closes(p: Pattern, c: char) {
    match p case ParagraphBreak => c == '\n' case SentenceEnd => IsSpace(c)
  }

  /** The pattern matches exactly the characters from `i` up to `e`. */
  predicate Matches(p: Pattern, w: string, i: nat, e: nat) {
    && i + 2 <= e <= |w|
    && Opens(p, w[i]) && Closes(p, w[e - 1])
    && (forall k :: i < k < e - 1 ==> Repeats(p, w[k]))
  }

  predicate EndsAt(p: Pattern, w: string, e: nat) {
    exists i :: 0 <= i < e && Matches(p, w, i, e)
  }

  /** The rightmost end, up to `n`, of any match at all. */
  function LastEnd(p: Pattern, w: string, n: nat): Option<nat> {
    if n == 0 then None else if EndsAt(p, w, n) then Some(n) else LastEnd(p, w, n - 1)
  }

  lemma {:induction false} LastEndIs(p: Pattern, w: string, n: nat, r: Option<nat>)
    requires r.Some? ==> r.value <= n && EndsAt(p, w, r.value)
    requires forall e: nat :: e <= n && EndsAt(p, w, e) ==> r.Some? && e <= r.value
    ensures LastEnd(p, w, n) == r
  {
    if n > 0 && r != Some(n) { LastEndIs(p, w, n - 1, r); }
  }

  lemma {:induction false} LastEndMeans(p: Pattern, w: string, n: nat)
    ensures LastEnd(p, w, n).Some? ==> 0 < LastEnd(p, w, n).value <= n && EndsAt(p, w, LastEnd(p, w, n).value)
    ensures forall e: nat :: e <= n && EndsAt(p, w, e) ==> LastEnd(p, w, n).Some? && e <= LastEnd(p, w, n).value
  {
    if n > 0 { LastEndMeans(p, w, n - 1); }
  }

  /** The longest match that starts at `i`, as a greedy, backtracking matcher finds it. */
  method MatchAt(p: Pattern, w: string, i: nat) returns (end: Option<nat>)
    requires i < |w|
    ensures end.Some? ==> Matches(p, w, i, end.value)
    ensures forall e: nat :: Matches(p, w, i, e) ==> end.Some? && e <= end.value
  {
    if !Opens(p, w[i]) {
      return None;
    }
    var k := i + 1;
    while k < |w| && Repeats(p, w[k])
      invariant i < k <= |w| && forall j :: i < j < k ==> Repeats(p, w[j])
    {
      k := k + 1;
    }
    ghost var stop := k;
    if k < |w| && Closes(p, w[k]) {
      return Some(k + 1);
    }
    while k > i + 1 && !Closes(p, w[k - 1])
      invariant i < k <= stop
      invariant forall e: nat :: Matches(p, w, i, e) ==> e <= k
    {
      k := k - 1;
    }
    end := if k > i + 1 then Some(k) else None;
  }

  /** A match that starts inside another one cannot end beyond the longest match from the other's start. */
  lemma MatchesDoNotStraddle(p: Pattern, w: string, i: nat, e: nat, i': nat, e': nat)
    requires Matches(p, w, i, e) && Matches(p, w, i', e') && i < i' < e < e'
    ensures Matches(p, w, i, e')
  {
    assert Repeats(p, w[i']) || i' == e - 1;
    forall k | i < k < e' - 1 ensures Repeats(p, w[k]) {
      assert Repeats(p, w[k]) || k == e - 1 || k == i';
    }
  }

  /** Scan the matches from left to right without overlaps, remembering the last end. */
  method LastMatchEnd(p: Pattern, w: string) returns (last: Option<nat>)
    ensures last == LastEnd(p, w, |w|)
  {
    last := None;
    var i := 0;
    while i < |w|
      invariant 0 <= i <= |w|
      invariant last.Some? ==> last.value <= i && EndsAt(p, w, last.value)
      invariant forall i': nat, e: nat :: i' < i && Matches(p, w, i', e) ==> last.Some? && e <= last.value
    {
      var end := MatchAt(p, w, i);
      if end.Some? {
        forall i': nat, e: nat | i < i' < end.value && Matches(p, w, i', e) ensures e <= end.value {
          if e > end.value { MatchesDoNotStraddle(p, w, i, end.value, i', e); }
        }
        i, last := end.value, end;
      } else {
        i := i + 1;
      }
    }
    LastEndIs(p, w, |w|, last);
  }

  // ---- Boundaries -----------------------------------------------------------------------------------------

  /** One past the last space character of the first `n`, if there is one. */
  function AfterLastSpace(w: string, n: nat): (r: Option<nat>)
    requires n <= |w|
    ensures r.Some? ==> 0 < r.value <= n && w[r.value - 1] == ' ' && forall k :: r.value <= k < n ==> w[k] != ' '
    ensures r.None? ==> forall k :: 0 <= k < n ==> w[k] != ' '
  {
    if n == 0 then None else if w[n - 1] == ' ' then Some(n) else AfterLastSpace(w, n - 1)
  }

  function WindowStart(start: nat, hardEnd: nat): nat {
    Max(start + 1, hardEnd - BOUNDARY_SEARCH_WINDOW)
  }

  /** The nicest split point at or before the limit: paragraph, else sentence, else word, else the limit. */
  function Boundary(text: string, start: nat, hardEnd: nat): (b: nat)
    requires start < hardEnd <= |text|
  {
    var from := WindowStart(start, hardEnd);
    var w := text[from..hardEnd];
    match LastEnd(ParagraphBreak, w, |w|)
    case Some(e) => from + e
    case None =>
      match LastEnd(SentenceEnd, w, |w|)
      case Some(e) => from + e
      case None =>
        match AfterLastSpace(w, |w|)
        case Some(e) => from + e
        case None => hardEnd
  }

  /** The characters that make up the two patterns. */
  lemma PatternsMean(w: string, i: nat, e: nat)
    requires i + 2 <= e <= |w|
    ensures Matches(ParagraphBreak, w, i, e)
            <==> w[i] == '\n' && w[e - 1] == '\n' && forall k :: i < k < e - 1 ==> IsSpace(w[k])
    ensures Matches(SentenceEnd, w, i, e)
            <==> && w[i] in {'.', '!', '?'} && IsSpace(w[e - 1])
                 && forall k :: i < k < e - 1 ==> w[k] in {'\"', '\'', ')', ']'}
  {
  }

  /** A match within the text from `from` on ends exactly at `e`. */
  ghost predicate MatchEnds(p: Pattern, text: string, from: nat, e: nat) {
    exists i: nat :: from <= i && Matches(p, text, i, e)
  }

  /** The last match between `from` and `to`, of those that lie there whole, ends at `b`. */
  ghost predicate LastMatchEnds(p: Pattern, text: string, from: nat, to: nat, b: nat) {
    b <= to && MatchEnds(p, text, from, b) && forall e: nat :: b < e <= to ==> !MatchEnds(p, text, from, e)
  }

  ghost predicate HasMatch(p: Pattern, text: string, from: nat, to: nat) {
    exists e: nat :: e <= to && MatchEnds(p, text, from, e)
  }

  /**
   The nicest place to end a window that starts at `start` and may not go beyond `hardEnd`, looking back at most 300
   characters: the end of the last paragraph break there; without one the end of the last sentence end; without
   either just after the last space; and failing all three the limit.
   */
  ghost predicate NicestEnd(text: string, start: nat, hardEnd: nat, b: nat)
    requires start < hardEnd <= |text|
  {
    var from := Max(start + 1, hardEnd - 300);
    if HasMatch(ParagraphBreak, text, from, hardEnd) then LastMatchEnds(ParagraphBreak, text, from, hardEnd, b)
    else if HasMatch(SentenceEnd, text, from, hardEnd) then LastMatchEnds(SentenceEnd, text, from, hardEnd, b)
    else if exists k :: from <= k < hardEnd && text[k] == ' ' then
      from < b <= hardEnd && text[b - 1] == ' ' && forall k :: b <= k < hardEnd ==> text[k] != ' '
    else b == hardEnd
  }

  lemma MatchesMove(p: Pattern, text: string, from: nat, to: nat, i: nat, e: nat)
    requires from <= to <= |text| && e <= to - from
    ensures Matches(p, text[from..to], i, e) <==> Matches(p, text, from + i, from + e)
  {
    if i + 2 <= e {
      var w := text[from..to];
      assert forall k :: 0 <= k < |w| ==> w[k] == text[from + k];
      if Matches(p, w, i, e) {
        forall k | from + i < k < from + e - 1 ensures Repeats(p, text[k]) {
          assert Repeats(p, w[k - from]);
        }
      }
    }
  }

  lemma EndsMove(p: Pattern, text: string, from: nat, to: nat, e: nat)
    requires from <= to <= |text| && e <= to - from
    ensures EndsAt(p, text[from..to], e) <==> MatchEnds(p, text, from, from + e)
  {
    var w := text[from..to];
    if EndsAt(p, w, e) {
      var i: nat :| 0 <= i < e && Matches(p, w, i, e);
      MatchesMove(p, text, from, to, i, e);
    }
    if MatchEnds(p, text, from, from + e) {
      var i: nat :| from <= i && Matches(p, text, i, from + e);
      MatchesMove(p, text, from, to, i - from, e);
    }
  }

  /** The rightmost end in a window is the last match between the window's ends. */
  lemma LastEndInText(p: Pattern, text: string, from: nat, to: nat)
    requires from <= to <= |text|
    ensures var last := LastEnd(p, text[from..to], to - from);
            && (last.Some? <==> HasMatch(p, text, from, to))
            && (last.Some? ==> LastMatchEnds(p, text, from, to, from + last.value))
  {
    hide Matches, EndsAt, MatchEnds;
    var w := text[from..to];
    LastEndMeans(p, w, |w|);
    forall e: nat | e <= to - from ensures EndsAt(p, w, e) <==> MatchEnds(p, text, from, from + e) {
      EndsMove(p, text, from, to, e);
    }
    forall e: nat | e <= to && MatchEnds(p, text, from, e) ensures e >= from && EndsAt(p, w, e - from) {
      EndsLater(p, text, from, e);
      assert from + (e - from) == e;
    }
    var last := LastEnd(p, w, |w|);
    if last.Some? { assert MatchEnds(p, text, from, from + last.value); }
  }

  lemma EndsLater(p: Pattern, text: string, from: nat, e: nat)
    requires MatchEnds(p, text, from, e)
    ensures from < e
  {
  }

  /** The boundary is the nicest end. */
  lemma BoundaryIsNicest(text: string, start: nat, hardEnd: nat)
    requires start < hardEnd <= |text|
    ensures NicestEnd(text, start, hardEnd, Boundary(text, start, hardEnd))
  {
    hide LastEnd, LastMatchEnds, HasMatch;
    var from := WindowStart(start, hardEnd);
    var w := text[from..hardEnd];
    LastEndInText(ParagraphBreak, text, from, hardEnd);
    LastEndInText(SentenceEnd, text, from, hardEnd);
    assert forall k :: 0 <= k < |w| ==> w[k] == text[from + k];
    assert forall k :: from <= k < hardEnd ==> text[k] == w[k - from];
  }

  method FindBoundary(text: string, start: nat, hardEnd: nat) returns (b: nat)
    requires start < hardEnd <= |text|
    ensures b == Boundary(text, start, hardEnd) && NicestEnd(text, start, hardEnd, b)
  {
    hide NicestEnd;
    BoundaryIsNicest(text, start, hardEnd);
    var from := WindowStart(start, hardEnd);
    var window := text[from..hardEnd];
    var paragraph := LastMatchEnd(ParagraphBreak, window);
    if paragraph.Some? {
      return from + paragraph.value;
    }
    var sentence := LastMatchEnd(SentenceEnd, window);
    if sentence.Some? {
      return from + sentence.value;
    }
    var space := AfterLastSpace(window, |window|);
    if space.Some? {
      return from + space.value;
    }
    b := hardEnd;
  }

  /** A boundary makes progress, stays within the limit, and gives up at most 299 characters of it. */
  lemma BoundaryRange(text: string, start: nat, hardEnd: nat)
    requires start < hardEnd <= |text|
    ensures start < Boundary(text, start, hardEnd) <= hardEnd
    ensures Boundary(text, start, hardEnd) >= hardEnd - (BOUNDARY_SEARCH_WINDOW - 1)
    ensures Boundary(text, start, hardEnd) >= Min(hardEnd, start + 2)
  {
    var w := text[WindowStart(start, hardEnd)..hardEnd];
    LastEndMeans(ParagraphBreak, w, |w|);
    LastEndMeans(SentenceEnd, w, |w|);
  }

  // ---- Windows and chunks -----------------------------------------------------------------------------------

  datatype Window = Window(lo: nat, hi: nat)

  predicate ValidParameters(max: int, overlap: int) {
    1 <= max && 0 <= overlap < max
  }

  function WindowEnd(text: string, max: int, position: nat): (end: nat)
    requires 1 <= max && position < |text|
    ensures position < end <= Min(position + max, |text|)
    ensures end == |text| || end >= position + max - (BOUNDARY_SEARCH_WINDOW - 1)
    ensures end == |text| || end >= position + Min(max, 2)
  {
    var hardEnd := Min(position + max, |text|);
    if hardEnd >= |text| then hardEnd
    else
      BoundaryRange(text, position, hardEnd);
      Boundary(text, position, hardEnd)
  }

  /** The windows from `position` on. */
  function Windows(text: string, max: int, overlap: int, position: nat): seq<Window>
    requires ValidParameters(max, overlap) && position < |text|
    decreases |text| - position
  {
    var end := WindowEnd(text, max, position);
    [Window(position, end)] +
    if end == |text| then [] else Windows(text, max, overlap, Max(end - overlap, position + 1))
  }

  function Leading(s: string): (n: nat)
    ensures n <= |s| && (forall k :: 0 <= k < n ==> IsSpace(s[k])) && (n < |s| ==> !IsSpace(s[n]))
  {
    if s == [] || !IsSpace(s[0]) then 0 else 1 + Leading(s[1..])
  }

  function LStrip(s: string): string {
    s[Leading(s)..]
  }

  function RStrip(s: string): (r: string)
    ensures r <= s && (forall k :: |r| <= k < |s| ==> IsSpace(s[k])) && (r != [] ==> !IsSpace(r[|r| - 1]))
  {
    if s == [] || !IsSpace(s[|s| - 1]) then s else RStrip(s[..|s| - 1])
  }

  function Strip(s: string): string {
    RStrip(LStrip(s))
  }

  predicate Inside(text: string, windows: seq<Window>) {
    forall w :: w in windows ==> w.lo <= w.hi <= |text|
  }

  /** The chunk a window yields: none when it is blank, else the exact span of its text. */
  function Report(raw: string, lo: nat, index: nat): seq<Chunk> {
    if Strip(raw) == [] then []
    else [Chunk(index, Strip(raw), lo + Leading(raw), lo + Leading(raw) + |Strip(raw)|)]
  }

  /** The chunks of these windows, numbered from `index`. */
  function Chunks(text: string, windows: seq<Window>, index: nat): seq<Chunk>
    requires Inside(text, windows)
  {
    if windows == [] then []
    else
      var first := Report(text[windows[0].lo..windows[0].hi], windows[0].lo, index);
      first + Chunks(text, windows[1..], index + |first|)
  }

  lemma {:induction false} WindowsInText(text: string, max: int, overlap: int, position: nat)
    requires ValidParameters(max, overlap) && position < |text|
    ensures forall w :: w in Windows(text, max, overlap, position) ==> w.lo < w.hi <= |text| && w.hi - w.lo <= max
    decreases |text| - position
  {
    var end := WindowEnd(text, max, position);
    if end < |text| { WindowsInText(text, max, overlap, Max(end - overlap, position + 1)); }
  }

  /** What chunking a text means: the chunks of its windows, or the first complaint about the parameters. */
  function Chunked(text: string, max: int, overlap: int): Result<seq<Chunk>, ChunkingError> {
    if max < 1 then Err(MaxNotPositive)
    else if overlap < 0 then Err(OverlapNegative)
    else if overlap >= max then Err(OverlapTooLarge)
    else if text == [] then Ok([])
    else
      WindowsInText(text, max, overlap, 0);
      Ok(Chunks(text, Windows(text, max, overlap, 0), 0))
  }

  /** A blank text has no chunks, whatever its windows: the early return only saves work. */
  lemma {:induction false} BlankHasNoChunks(text: string, windows: seq<Window>, index: nat)
    requires Strip(text) == [] && Inside(text, windows)
    ensures Chunks(text, windows, index) == []
  {
    if windows != [] {
      assert forall k :: 0 <= k < |text| ==> IsSpace(text[k]) by { StripEmpty(text); }
      StripEmpty(text[windows[0].lo..windows[0].hi]);
      BlankHasNoChunks(text, windows[1..], index);
    }
  }

  lemma StripEmpty(s: string)
    ensures Strip(s) == [] <==> forall k :: 0 <= k < |s| ==> IsSpace(s[k])
  {
    var left, n := LStrip(s), Leading(s);
    assert n < |s| ==> left[0] == s[n];
  }

  lemma NoWindows(text: string, index: nat)
    ensures Chunks(text, [], index) == []
  {
  }

  lemma NextWindow(text: string, max: int, overlap: int, position: nat, index: nat)
    requires ValidParameters(max, overlap) && position < |text|
    requires Inside(text, Windows(text, max, overlap, position))
    ensures var windows := Windows(text, max, overlap, position);
            var end := WindowEnd(text, max, position);
            var first := Report(text[position..end], position, index);
            && windows != [] && windows[0] == Window(position, end)
            && windows[1..]
               == (if end == |text| then [] else Windows(text, max, overlap, Max(end - overlap, position + 1)))
            && Chunks(text, windows, index) == first + Chunks(text, windows[1..], index + |first|)
  {
    hide Report, WindowEnd;
  }

  lemma NothingToStrip(s: string)
    requires s != [] && !IsSpace(s[0]) && !IsSpace(s[|s| - 1])
    ensures Strip(s) == s
  {
  }

  lemma ReportIs(raw: string, lo: nat, index: nat)
    ensures |LStrip(raw)| == |raw| - Leading(raw)
    ensures Report(raw, lo, index) ==
            if Strip(raw) == [] then []
            else [Chunk(index, Strip(raw), lo + Leading(raw), lo + Leading(raw) + |Strip(raw)|)]
  {
  }

  /** The chunks left to report go after those already there. */
  lemma Append(chunks: seq<Chunk>, first: seq<Chunk>, rest: seq<Chunk>)
    ensures (chunks + first) + rest == chunks + (first + rest)
  {
  }

  method ChunkText(text: string, max: int, overlap: int) returns (r: Result<seq<Chunk>, ChunkingError>)
    ensures r == Chunked(text, max, overlap)
  {
    hide Windows, Chunks, Strip, Leading, Boundary, NicestEnd, Report;
    if max < 1 {
      return Err(MaxNotPositive);
    }
    if overlap < 0 {
      return Err(OverlapNegative);
    }
    if overlap >= max {
      return Err(OverlapTooLarge);
    }
    StripEmpty(text);
    if Strip(text) == [] {
      if text != [] {
        WindowsInText(text, max, overlap, 0);
        BlankHasNoChunks(text, Windows(text, max, overlap, 0), 0);
      }
      return Ok([]);
    }
    var chunks: seq<Chunk> := [];
    var position, length := 0, |text|;
    ghost var left := Windows(text, max, overlap, 0);
    WindowsInText(text, max, overlap, 0);
    ghost var all := Chunks(text, left, 0);
    while position < length
      invariant 0 <= position
      invariant position < length ==> left == Windows(text, max, overlap, position)
      invariant position >= length ==> left == []
      invariant Inside(text, left)
      invariant chunks + Chunks(text, left, |chunks|) == all
      decreases length - position
    {
      var hardEnd := Min(position + max, length);
      var end;
      if hardEnd >= length {
        end := hardEnd;
      } else {
        end := FindBoundary(text, position, hardEnd);
      }
      assert end == WindowEnd(text, max, position);
      ghost var before := chunks;
      NextWindow(text, max, overlap, position, |chunks|);
      var raw := text[position..end];
      ReportIs(raw, position, |chunks|);
      var stripped := Strip(raw);
      if stripped != [] {
        var leading := |raw| - |LStrip(raw)|;
        var start := position + leading;
        chunks := chunks + [Chunk(|chunks|, stripped, start, start + |stripped|)];
      }
      assert chunks == before + Report(raw, position, |before|);
      left := left[1..];
      Append(before, Report(raw, position, |before|), Chunks(text, left, |chunks|));
      assert chunks + Chunks(text, left, |chunks|) == all;
      if end >= length {
        break;
      }
      position := Max(end - overlap, position + 1);
    }
    NoWindows(text, |chunks|);
    assert left == [] && chunks + Chunks(text, left, |chunks|) == chunks;
    r := Ok(chunks);
  }

  // ---- What the chunks of a text are ------------------------------------------------------------------------

  predicate Ink(text: string, p: int) {
    0 <= p < |text| && !IsSpace(text[p])
  }

  /** An exact, bounded span of the text that begins and ends with something to read. */
  predicate ExactSpan(text: string, max: int, c: Chunk) {
    && c.start < c.end <= |text| && c.end - c.start <= max
    && c.text == text[c.start..c.end]
    && Ink(text, c.start) && Ink(text, c.end - 1)
  }

  predicate OrderedWindows(text: string, max: int, windows: seq<Window>) {
    windows == [] ||
    (&& windows[0].lo <= windows[0].hi <= |text| && windows[0].hi - windows[0].lo <= max
     && (|windows| > 1 ==> windows[0].lo < windows[1].lo)
     && OrderedWindows(text, max, windows[1..]))
  }

  /** Stripping keeps one stretch, from the first character that is not white space to the last. */
  lemma StripKeeps(raw: string)
    ensures var n, m := Leading(raw), |Strip(raw)|;
            && n + m <= |raw| && Strip(raw) == raw[n..n + m]
            && (m > 0 ==> !IsSpace(raw[n]) && !IsSpace(raw[n + m - 1]))
            && (forall p :: 0 <= p < |raw| && !IsSpace(raw[p]) ==> n <= p < n + m)
  {
    var left, n, m := LStrip(raw), Leading(raw), |Strip(raw)|;
    assert left[..m] == raw[n..n + m];
    assert m > 0 ==> left[0] == raw[n] && left[m - 1] == raw[n + m - 1];
    forall p | 0 <= p < |raw| && !IsSpace(raw[p]) ensures n <= p < n + m {
      assert p >= n ==> left[p - n] == raw[p];
    }
  }

  lemma SliceOfSlice(text: string, lo: nat, hi: nat, a: nat, b: nat)
    requires lo <= hi <= |text| && a <= b <= hi - lo
    ensures text[lo..hi][a..b] == text[lo + a..lo + b]
  {
    var inner, outer := text[lo..hi][a..b], text[lo + a..lo + b];
    assert forall k :: 0 <= k < b - a ==> inner[k] == outer[k];
  }

  /** A window's chunk is exact and leaves out nothing but white space. */
  lemma ReportIsExact(text: string, max: int, w: Window, index: nat)
    requires w.lo <= w.hi <= |text| && w.hi - w.lo <= max
    ensures var cs := Report(text[w.lo..w.hi], w.lo, index);
            && (forall c :: c in cs ==> c.index == index && ExactSpan(text, max, c) && w.lo <= c.start && c.end <= w.hi)
            && (forall p :: w.lo <= p < w.hi && Ink(text, p) ==> |cs| == 1 && cs[0].start <= p < cs[0].end)
  {
    hide Strip, Leading, IsSpace;
    var raw := text[w.lo..w.hi];
    var n, m := Leading(raw), |Strip(raw)|;
    StripKeeps(raw);
    if m > 0 {
      var c := Chunk(index, Strip(raw), w.lo + n, w.lo + n + m);
      SliceOfSlice(text, w.lo, w.hi, n, n + m);
      assert raw[n] == text[c.start] && raw[n + m - 1] == text[c.end - 1];
      assert ExactSpan(text, max, c);
      assert Report(raw, w.lo, index) == [c];
    }
    forall p | w.lo <= p < w.hi && Ink(text, p) ensures n <= p - w.lo < n + m {
      assert raw[p - w.lo] == text[p];
    }
  }

  /** Exact chunks numbered from `index`, none of which starts before `lo` or before its predecessor. */
  predicate Listed(text: string, max: int, cs: seq<Chunk>, index: nat, lo: nat) {
    cs == [] ||
    (&& cs[0].index == index && ExactSpan(text, max, cs[0]) && lo <= cs[0].start
     && Listed(text, max, cs[1..], index + 1, cs[0].start))
  }

  lemma {:induction false} ListedMeans(text: string, max: int, cs: seq<Chunk>, index: nat, lo: nat)
    requires Listed(text, max, cs, index, lo)
    ensures forall i :: 0 <= i < |cs| ==> cs[i].index == index + i && ExactSpan(text, max, cs[i]) && lo <= cs[i].start
    ensures forall i, j :: 0 <= i < j < |cs| ==> cs[i].start <= cs[j].start
  {
    hide ExactSpan;
    if cs != [] {
      ListedMeans(text, max, cs[1..], index + 1, cs[0].start);
      forall i | 0 < i < |cs|
        ensures cs[i].index == index + i && ExactSpan(text, max, cs[i]) && cs[0].start <= cs[i].start
      {
        assert cs[i] == cs[1..][i - 1];
      }
      forall i, j | 0 < i < j < |cs| ensures cs[i].start <= cs[j].start {
        assert cs[i] == cs[1..][i - 1] && cs[j] == cs[1..][j - 1];
      }
    }
  }

  /** The first window's chunk, if it has one, goes before the chunks of the windows that start later. */
  lemma ListedPrepend(text: string, max: int, first: seq<Chunk>, later: seq<Chunk>, index: nat, lo: nat, next: nat)
    requires |first| <= 1 && lo <= next && Listed(text, max, later, index + |first|, next)
    requires first != [] ==> first[0].index == index && ExactSpan(text, max, first[0]) && lo <= first[0].start
    requires first != [] ==> forall p :: next <= p < first[0].start ==> !Ink(text, p)
    ensures Listed(text, max, first + later, index, lo)
  {
    if later != [] { assert Ink(text, later[0].start); }
    if first == [] {
      assert first + later == later;
    } else {
      assert (first + later)[1..] == later;
    }
  }

  /** The chunk of the first window starts at the first ink in it. */
  lemma FirstChunk(text: string, max: int, w: Window, index: nat) returns (first: seq<Chunk>)
    requires w.lo <= w.hi <= |text| && w.hi - w.lo <= max
    ensures first == Report(text[w.lo..w.hi], w.lo, index) && |first| <= 1
    ensures first != [] ==>
              && first[0].index == index && ExactSpan(text, max, first[0]) && w.lo <= first[0].start
              && forall p :: w.lo <= p < first[0].start ==> !Ink(text, p)
  {
    hide Report, ExactSpan, Ink;
    first := Report(text[w.lo..w.hi], w.lo, index);
    ReportIsExact(text, max, w, index);
    AtMostOne(text[w.lo..w.hi], w.lo, index);
    if first != [] {
      var c := first[0];
      assert c in first;
      SpanBounds(text, max, c);
    }
  }

  lemma SpanBounds(text: string, max: int, c: Chunk)
    requires ExactSpan(text, max, c)
    ensures c.start < c.end <= |text|
  {
  }

  lemma {:induction false} ChunksAreOrdered(text: string, max: int, windows: seq<Window>, index: nat)
    requires Inside(text, windows) && OrderedWindows(text, max, windows)
    ensures Listed(text, max, Chunks(text, windows, index), index, if windows == [] then 0 else windows[0].lo)
  {
    hide Report, ExactSpan, Ink;
    if windows != [] {
      var w, rest := windows[0], windows[1..];
      var first := FirstChunk(text, max, w, index);
      ChunksAreOrdered(text, max, rest, index + |first|);
      var later := Chunks(text, rest, index + |first|);
      ListedPrepend(text, max, first, later, index, w.lo, if rest == [] then w.lo else rest[0].lo);
    }
  }

  lemma AtMostOne(raw: string, lo: nat, index: nat)
    ensures |Report(raw, lo, index)| <= 1
  {
  }

  /** A stretch of a window that begins and ends with ink lies whole in the window's chunk. */
  lemma {:induction false} WindowsKeepSpans(text: string, max: int, windows: seq<Window>, index: nat, w: Window,
                                            a: nat, b: nat)
    requires Inside(text, windows) && OrderedWindows(text, max, windows) && w in windows
    requires w.lo <= a < b <= w.hi && Ink(text, a) && Ink(text, b - 1)
    ensures exists c :: c in Chunks(text, windows, index) && c.start <= a && b <= c.end
  {
    hide Report;
    var first := Report(text[windows[0].lo..windows[0].hi], windows[0].lo, index);
    if windows[0] == w {
      ReportIsExact(text, max, w, index);
      var c := first[0];
      assert c in Chunks(text, windows, index) && c.start <= a && b <= c.end;
    } else {
      WindowsKeepSpans(text, max, windows[1..], index + |first|, w, a, b);
    }
  }

  lemma {:induction false} ChunksComeFromWindows(text: string, max: int, windows: seq<Window>, index: nat, c: Chunk)
    requires Inside(text, windows) && OrderedWindows(text, max, windows) && c in Chunks(text, windows, index)
    ensures exists w :: w in windows && w.lo <= c.start && c.end <= w.hi
  {
    hide Report;
    var first := Report(text[windows[0].lo..windows[0].hi], windows[0].lo, index);
    ReportIsExact(text, max, windows[0], index);
    if c in first {
      assert windows[0] in windows;
    } else {
      ChunksComeFromWindows(text, max, windows[1..], index + |first|, c);
    }
  }

  // ---- What the windows of a text are -----------------------------------------------------------------------

  lemma {:induction false} WindowsAreOrdered(text: string, max: int, overlap: int, position: nat)
    requires ValidParameters(max, overlap) && position < |text|
    ensures var ws := Windows(text, max, overlap, position);
            && Inside(text, ws) && OrderedWindows(text, max, ws)
            && ws != [] && ws[0].lo == position && forall w :: w in ws ==> position <= w.lo
    decreases |text| - position
  {
    hide WindowEnd;
    var end := WindowEnd(text, max, position);
    if end < |text| { WindowsAreOrdered(text, max, overlap, Max(end - overlap, position + 1)); }
  }

  /** No character from `position` on is left out of every window. */
  lemma {:induction false} WindowsCover(text: string, max: int, overlap: int, position: nat, p: nat) returns (w: Window)
    requires ValidParameters(max, overlap) && position <= p < |text|
    ensures w in Windows(text, max, overlap, position) && w.lo <= p < w.hi
    decreases |text| - position
  {
    hide WindowEnd;
    var end := WindowEnd(text, max, position);
    w := Window(position, end);
    if p >= end { w := WindowsCover(text, max, overlap, Max(end - overlap, position + 1), p); }
  }

  /** How far apart windows start, at the least. */
  function Stride(max: int, overlap: int): (s: int)
    ensures s >= 1
  {
    Max(1, max - (BOUNDARY_SEARCH_WINDOW - 1) - overlap)
  }

  lemma {:induction false} WindowsAreFew(text: string, max: int, overlap: int, position: nat)
    requires ValidParameters(max, overlap) && position < |text|
    ensures (|Windows(text, max, overlap, position)| - 1) * Stride(max, overlap) <= |text| - 1 - position
    decreases |text| - position
  {
    hide WindowEnd;
    var end := WindowEnd(text, max, position);
    if end < |text| {
      var next := Max(end - overlap, position + 1);
      WindowsAreFew(text, max, overlap, next);
      OneMore(|Windows(text, max, overlap, next)|, Stride(max, overlap));
    }
  }

  lemma OneMore(n: int, stride: int)
    ensures (1 + n - 1) * stride == stride + (n - 1) * stride
  {
  }

  lemma {:induction false} NoMoreChunksThanWindows(text: string, windows: seq<Window>, index: nat)
    requires Inside(text, windows)
    ensures |Chunks(text, windows, index)| <= |windows|
  {
    hide Report;
    if windows != [] {
      var first := Report(text[windows[0].lo..windows[0].hi], windows[0].lo, index);
      AtMostOne(text[windows[0].lo..windows[0].hi], windows[0].lo, index);
      NoMoreChunksThanWindows(text, windows[1..], index + |first|);
    }
  }

  // ---- What chunking promises -----------------------------------------------------------------------------

  lemma WindowsOf(text: string, max: int, overlap: int) returns (windows: seq<Window>)
    requires ValidParameters(max, overlap) && text != []
    ensures windows != [] && windows == Windows(text, max, overlap, 0) && Inside(text, windows)
            && OrderedWindows(text, max, windows)
    ensures Chunked(text, max, overlap) == Ok(Chunks(text, windows, 0))
  {
    windows := Windows(text, max, overlap, 0);
    WindowsAreOrdered(text, max, overlap, 0);
  }

  /** Numbered 0..n-1, in reading order, each the exact text at its offsets, never empty, never over the limit. */
  lemma ChunksAreExact(text: string, max: int, overlap: int)
    requires ValidParameters(max, overlap)
    ensures Chunked(text, max, overlap).Ok?
    ensures var cs := Chunked(text, max, overlap).value;
            && (forall i :: 0 <= i < |cs| ==> cs[i].index == i && ExactSpan(text, max, cs[i]))
            && (forall i, j :: 0 <= i < j < |cs| ==> cs[i].start <= cs[j].start)
  {
    hide Windows, Chunks;
    if text != [] {
      var windows := WindowsOf(text, max, overlap);
      ChunksAreOrdered(text, max, windows, 0);
      ListedMeans(text, max, Chunks(text, windows, 0), 0, windows[0].lo);
    }
  }

  /** Every character that is not white space lies in some chunk. */
  lemma NothingIsLost(text: string, max: int, overlap: int, p: int)
    requires ValidParameters(max, overlap) && Ink(text, p)
    ensures exists c :: c in Chunked(text, max, overlap).value && c.start <= p < c.end
  {
    hide Windows, Chunks;
    var windows := WindowsOf(text, max, overlap);
    var w := WindowsCover(text, max, overlap, 0, p);
    WindowsKeepSpans(text, max, windows, 0, w, p, p + 1);
    var c :| c in Chunks(text, windows, 0) && c.start <= p && p + 1 <= c.end;
  }

  /** The chunks determine the text: two texts with the same chunks differ at most in which white space they use. */
  lemma ChunksDetermineText(text: string, text': string, max: int, overlap: int, p: nat)
    requires ValidParameters(max, overlap) && |text| == |text'| && p < |text|
    requires Chunked(text, max, overlap) == Chunked(text', max, overlap)
    ensures text[p] == text'[p] || (IsSpace(text[p]) && IsSpace(text'[p]))
  {
    SameInk(text, text', max, overlap, p);
    SameInk(text', text, max, overlap, p);
  }

  lemma SameInk(text: string, text': string, max: int, overlap: int, p: nat)
    requires ValidParameters(max, overlap) && |text| == |text'| && p < |text|
    requires Chunked(text, max, overlap) == Chunked(text', max, overlap)
    ensures Ink(text, p) ==> text'[p] == text[p]
  {
    hide Chunked, ExactSpan;
    if Ink(text, p) {
      NothingIsLost(text, max, overlap, p);
      ChunksAreExact(text, max, overlap);
      ChunksAreExact(text', max, overlap);
      var cs := Chunked(text, max, overlap).value;
      var c :| c in cs && c.start <= p < c.end;
      var i :| 0 <= i < |cs| && cs[i] == c;
      ReadsThere(text, max, cs[i], p);
      ReadsThere(text', max, cs[i], p);
    }
  }

  lemma ReadsThere(text: string, max: int, c: Chunk, p: nat)
    requires ExactSpan(text, max, c) && c.start <= p < c.end
    ensures p < |text| && |c.text| == c.end - c.start && c.text[p - c.start] == text[p]
  {
  }

  /** The number of chunks is at most one more than the length divided by the least distance of two windows. */
  lemma ChunksAreFew(text: string, max: int, overlap: int)
    requires ValidParameters(max, overlap) && text != []
    ensures |Chunked(text, max, overlap).value| <= 1 + (|text| - 1) / Stride(max, overlap)
    ensures Stride(DEFAULT_MAX_CHARS, DEFAULT_OVERLAP_CHARS) == 751
  {
    hide Windows, Chunks;
    var windows := WindowsOf(text, max, overlap);
    NoMoreChunksThanWindows(text, windows, 0);
    WindowsAreFew(text, max, overlap, 0);
    FitsInto(|windows| - 1, Stride(max, overlap), |text| - 1);
  }

  lemma FitsInto(n: int, stride: int, total: int)
    requires stride >= 1 && n * stride <= total
    ensures n <= total / stride
  {
    var q, r := total / stride, total % stride;
    assert total == q * stride + r && r < stride;
    assert (q + 1) * stride == q * stride + stride;
    CancelFactor(n, q + 1, stride);
  }

  lemma CancelFactor(a: int, b: int, u: int)
    requires u > 0 && a * u < b * u
    ensures a < b
  {
  }

  // ---- Where the text is cut ------------------------------------------------------------------------------

  /** The characters that are white space. */
  lemma SpacesAre(c: char)
    ensures IsSpace(c) <==>
            c in {'\t', '\n', '\U{000B}', '\U{000C}', '\r', '\U{001C}', '\U{001D}', '\U{001E}', '\U{001F}', ' ',
                  '\U{0085}', '\U{00A0}', '\U{1680}', '\U{2000}', '\U{2001}', '\U{2002}', '\U{2003}', '\U{2004}',
                  '\U{2005}', '\U{2006}', '\U{2007}', '\U{2008}', '\U{2009}', '\U{200A}', '\U{2028}', '\U{2029}',
                  '\U{202F}', '\U{205F}', '\U{3000}'}
  {
  }

  /** The window ends where it should: at the end of the text if that is within reach, else at the nicest place. */
  ghost predicate EndsWell(text: string, max: int, w: Window) {
    && w.lo < w.hi <= |text|
    && (if w.lo + max >= |text| then w.hi == |text|
        else max >= 1 && NicestEnd(text, w.lo, w.lo + max, w.hi))
  }

  /** The next window starts the overlap before this one's end, but after this one's start. */
  predicate Leads(text: string, overlap: int, w: Window, next: Window) {
    w.hi < |text| && next.lo == Max(w.hi - overlap, w.lo + 1)
  }

  /**
   The windows cover the text from `position` to its end: each ends well, and leads to the next.
   */
  ghost predicate Cuts(text: string, max: int, overlap: int, position: nat, windows: seq<Window>) {
    && windows != [] && windows[0].lo == position && windows[|windows| - 1].hi == |text|
    && (forall i :: 0 <= i < |windows| ==> EndsWell(text, max, windows[i]))
    && (forall i :: 0 <= i < |windows| - 1 ==> Leads(text, overlap, windows[i], windows[i + 1]))
  }

  lemma FirstEndsWell(text: string, max: int, position: nat)
    requires max >= 1 && position < |text|
    ensures EndsWell(text, max, Window(position, WindowEnd(text, max, position)))
  {
    hide NicestEnd, Boundary;
    if position + max < |text| { BoundaryIsNicest(text, position, position + max); }
  }

  lemma {:induction false} WindowsCut(text: string, max: int, overlap: int, position: nat)
    requires ValidParameters(max, overlap) && position < |text|
    ensures Cuts(text, max, overlap, position, Windows(text, max, overlap, position))
    decreases |text| - position
  {
    hide EndsWell, WindowEnd, Cuts;
    var end := WindowEnd(text, max, position);
    FirstEndsWell(text, max, position);
    if end == |text| {
      LastCut(text, max, overlap, Window(position, end));
      assert Windows(text, max, overlap, position) == [Window(position, end)];
    } else {
      var next := Max(end - overlap, position + 1);
      WindowsCut(text, max, overlap, next);
      CutsPrepend(text, max, overlap, Window(position, end), Windows(text, max, overlap, next));
    }
  }

  lemma LastCut(text: string, max: int, overlap: int, w: Window)
    requires EndsWell(text, max, w) && w.hi == |text|
    ensures Cuts(text, max, overlap, w.lo, [w])
  {
    hide EndsWell;
  }

  lemma CutsPrepend(text: string, max: int, overlap: int, w: Window, rest: seq<Window>)
    requires EndsWell(text, max, w) && w.hi < |text| && overlap >= 0
    requires Cuts(text, max, overlap, Max(w.hi - overlap, w.lo + 1), rest)
    ensures Cuts(text, max, overlap, w.lo, [w] + rest)
  {
    hide EndsWell;
    var all := [w] + rest;
    forall i | 0 < i < |all| ensures EndsWell(text, max, all[i]) {
      assert all[i] == rest[i - 1];
    }
    forall i | 0 <= i < |all| - 1 ensures Leads(text, overlap, all[i], all[i + 1]) {
      assert all[i + 1] == rest[i];
      if i > 0 { assert all[i] == rest[i - 1] && Leads(text, overlap, rest[i - 1], rest[i - 1 + 1]); }
    }
  }

  predicate Blank(text: string, w: Window) {
    forall p :: w.lo <= p < w.hi ==> !Ink(text, p)
  }

  /** The chunk is the window's text from its first to its last character that is not white space. */
  predicate Fills(text: string, w: Window, c: Chunk) {
    && w.lo <= c.start < c.end <= w.hi <= |text| && Ink(text, c.start) && Ink(text, c.end - 1)
    && (forall p :: w.lo <= p < w.hi && Ink(text, p) ==> c.start <= p < c.end)
    && c.text == text[c.start..c.end]
  }

  /** One chunk for each window that is not blank, in order, numbered from `index`. */
  predicate Reports(text: string, windows: seq<Window>, cs: seq<Chunk>, index: nat) {
    if windows == [] then cs == []
    else if Blank(text, windows[0]) then Reports(text, windows[1..], cs, index)
    else cs != [] && cs[0].index == index && Fills(text, windows[0], cs[0])
         && Reports(text, windows[1..], cs[1..], index + 1)
  }

  lemma ReportFills(text: string, w: Window, index: nat)
    requires w.lo <= w.hi <= |text|
    ensures var cs := Report(text[w.lo..w.hi], w.lo, index);
            if Blank(text, w) then cs == [] else |cs| == 1 && cs[0].index == index && Fills(text, w, cs[0])
  {
    hide Report, Ink;
    var cs := Report(text[w.lo..w.hi], w.lo, index);
    ReportIsExact(text, w.hi - w.lo, w, index);
    AtMostOne(text[w.lo..w.hi], w.lo, index);
    if cs != [] { assert cs[0] in cs; }
  }

  lemma {:induction false} ChunksReport(text: string, windows: seq<Window>, index: nat)
    requires Inside(text, windows)
    ensures Reports(text, windows, Chunks(text, windows, index), index)
  {
    hide Report, Blank, Fills;
    if windows != [] {
      var first := Report(text[windows[0].lo..windows[0].hi], windows[0].lo, index);
      ReportFills(text, windows[0], index);
      ChunksReport(text, windows[1..], index + |first|);
      var rest := Chunks(text, windows[1..], index + |first|);
      assert first == [] ==> first + rest == rest;
      assert first != [] ==> (first + rest)[1..] == rest;
    }
  }

  /**
   What chunking a text comes to, said of the text alone: windows that start at 0, end at the nicest places within
   the limit, overlap by as much as was asked for and reach the end; and one chunk for each that is not blank.
   */
  lemma ChunksAreCutNicely(text: string, max: int, overlap: int) returns (windows: seq<Window>)
    requires ValidParameters(max, overlap) && text != []
    ensures Cuts(text, max, overlap, 0, windows)
    ensures Chunked(text, max, overlap).Ok? && Reports(text, windows, Chunked(text, max, overlap).value, 0)
  {
    hide Windows, Chunks, Cuts;
    windows := WindowsOf(text, max, overlap);
    WindowsCut(text, max, overlap, 0);
    ChunksReport(text, windows, 0);
  }

  /** Parameters that could not make progress are refused, and the complaint says which. */
  lemma ParametersAreChecked(text: string, max: int, overlap: int)
    ensures Chunked(text, max, overlap).Ok? <==> 1 <= max && 0 <= overlap < max
    ensures max < 1 ==> Chunked(text, max, overlap) == Err(MaxNotPositive)
    ensures 1 <= max && overlap < 0 ==> Chunked(text, max, overlap) == Err(OverlapNegative)
    ensures 1 <= max <= overlap ==> Chunked(text, max, overlap) == Err(OverlapTooLarge)
  {
    hide Windows, Chunks;
  }

  // ---- The overlap ----------------------------------------------------------------------------------------

  /** Somewhere the stretch of text from `a` to `b` can be read without a cut. */
  ghost predicate KeptWhole(text: string, max: int, overlap: int, a: nat, b: nat)
    requires ValidParameters(max, overlap)
  {
    exists c :: c in Chunked(text, max, overlap).value && c.start <= a && b <= c.end
  }

  /** Every stretch no longer than the overlap that begins and ends with ink survives whole, in every text. */
  ghost predicate OverlapWorks(max: int, overlap: int)
    requires ValidParameters(max, overlap)
  {
    forall text, a: nat, b: nat ::
      a < b <= |text| && b - a <= overlap && Ink(text, a) && Ink(text, b - 1) ==> KeptWhole(text, max, overlap, a, b)
  }

  lemma {:induction false} ShortSpansFit(text: string, max: int, overlap: int, position: nat, a: nat, b: nat)
    returns (w: Window)
    requires ValidParameters(max, overlap) && position <= a < b <= |text| && b - a <= overlap
    requires overlap <= 2 || overlap + (BOUNDARY_SEARCH_WINDOW - 1) <= max
    ensures w in Windows(text, max, overlap, position) && w.lo <= a && b <= w.hi
    decreases |text| - position
  {
    hide Boundary;
    var end := WindowEnd(text, max, position);
    w := Window(position, end);
    if b > end { w := ShortSpansFit(text, max, overlap, Max(end - overlap, position + 1), a, b); }
  }

  /** One long word with a single space placed where the first window looks last. */
  function Awkward(max: int): (text: string)
    requires max >= 1
    ensures |text| == max + 1
  {
    seq(max + 1, i => if i == Max(1, max - BOUNDARY_SEARCH_WINDOW) then ' ' else 'x')
  }

  lemma AwkwardBoundary(max: int)
    requires max >= 2
    ensures Boundary(Awkward(max), 0, max) == Max(1, max - BOUNDARY_SEARCH_WINDOW) + 1
  {
    var text := Awkward(max);
    var from := WindowStart(0, max);
    var w := text[from..max];
    assert w[0] == ' ' && forall k :: 0 < k < |w| ==> w[k] == 'x';
    LastEndIs(ParagraphBreak, w, |w|, None);
    LastEndIs(SentenceEnd, w, |w|, None);
  }

  lemma AwkwardIsCut(max: int, overlap: int)
    requires ValidParameters(max, overlap) && overlap > 2 && overlap + (BOUNDARY_SEARCH_WINDOW - 1) > max
    ensures !OverlapWorks(max, overlap)
  {
    hide Boundary, Awkward, Chunks, Chunked, OrderedWindows;
    var text := Awkward(max);
    AwkwardBoundary(max);
    AwkwardInk(max, overlap);
    var windows := WindowsOf(text, max, overlap);
    var end := WindowEnd(text, max, 0);
    WindowsAreOrdered(text, max, overlap, 1);
    assert windows == [Window(0, end)] + Windows(text, max, overlap, 1);
    forall c | c in Chunked(text, max, overlap).value ensures !(c.start <= 0 && overlap <= c.end) {
      ChunksComeFromWindows(text, max, windows, 0, c);
    }
    assert !KeptWhole(text, max, overlap, 0, overlap);
  }

  lemma AwkwardInk(max: int, overlap: int)
    requires ValidParameters(max, overlap) && overlap > 2 && overlap + (BOUNDARY_SEARCH_WINDOW - 1) > max
    ensures Ink(Awkward(max), 0) && Ink(Awkward(max), overlap - 1)
  {
  }

  /**
   The overlap keeps every short enough stretch whole exactly when it is at most two characters, or leaves
   room for the boundary search; otherwise an early boundary can make the next window start too late.
   */
  lemma OverlapWorksIff(max: int, overlap: int)
    requires ValidParameters(max, overlap)
    ensures OverlapWorks(max, overlap) <==> overlap <= 2 || overlap + (BOUNDARY_SEARCH_WINDOW - 1) <= max
  {
    if overlap <= 2 || overlap + (BOUNDARY_SEARCH_WINDOW - 1) <= max {
      forall text, a: nat, b: nat | a < b <= |text| && b - a <= overlap && Ink(text, a) && Ink(text, b - 1)
        ensures KeptWhole(text, max, overlap, a, b)
      {
        var windows := WindowsOf(text, max, overlap);
        var w := ShortSpansFit(text, max, overlap, 0, a, b);
        WindowsKeepSpans(text, max, windows, 0, w, a, b);
      }
    } else {
      AwkwardIsCut(max, overlap);
    }
  }
}
