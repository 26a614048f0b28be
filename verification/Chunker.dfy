/**
 `StructureAwareChunker`: split a document's lines into sections at Markdown headings, and
 cut every section's text into overlapping windows.
 */
module Chunker {
  import opened Texts
  import opened Wrappers

  /* ---------- sections ---------- */

  function Hashes(line: string): (n: nat)
    ensures n <= |line|
  {
    if line == [] || line[0] != '#' then 0 else 1 + Hashes(line[1..])
  }

  /** One to six hashes, a blank and at least one more character. */
  function Heading(line: string): Option<string> {
    var n := Hashes(line);
    if 1 <= n <= 6 && n + 2 <= |line| && Blank(line[n]) then Some(Strip(line[n..])) else None
  }

  datatype Section = Section(heading: Option<string>, start: nat, lines: seq<string>)

  /** The scan's variables: the finished sections, and the one being collected. */
  datatype Scan = Scan(done: seq<Section>, heading: Option<string>, start: nat, lines: seq<string>)

  function Flush(s: Scan): seq<Section> {
    if s.lines != [] then s.done + [Section(s.heading, s.start, s.lines)] else s.done
  }

  function ScanLine(s: Scan, line: string, number: nat): Scan {
    if Heading(line).Some? then Scan(Flush(s), Heading(line), number, [line])
    else s.(lines := s.lines + [line])
  }

  function ScanAll(lines: seq<string>): Scan {
    if lines == [] then Scan([], None, 1, [])
    else ScanLine(ScanAll(lines[..|lines| - 1]), lines[|lines| - 1], |lines|)
  }

  function Sections(lines: seq<string>): seq<Section> {
    Flush(ScanAll(lines))
  }

  /** The lines of the sections, in order. */
  function AllLines(sections: seq<Section>): seq<string> {
    if sections == [] then [] else AllLines(sections[..|sections| - 1]) + sections[|sections| - 1].lines
  }

  /** A section opens with its heading line, if it has one, and holds no other heading. */
  ghost predicate WellCut(s: Section) {
    && s.lines != []
    && Heading(s.lines[0]) == s.heading
    && forall i :: 0 < i < |s.lines| ==> Heading(s.lines[i]).None?
  }

  /** Every section starts on the line after the lines of the sections before it. */
  ghost predicate Numbered(sections: seq<Section>) {
    sections == []
    || (Numbered(sections[..|sections| - 1])
        && sections[|sections| - 1].start == |AllLines(sections[..|sections| - 1])| + 1)
  }

  lemma AllLinesAppend(sections: seq<Section>, s: Section)
    ensures AllLines(sections + [s]) == AllLines(sections) + s.lines
  {
    assert (sections + [s])[..|sections|] == sections;
  }

  lemma NumberedAppend(sections: seq<Section>, s: Section)
    requires Numbered(sections) && s.start == |AllLines(sections)| + 1
    ensures Numbered(sections + [s])
  {
    assert (sections + [s])[..|sections|] == sections;
  }

  ghost predicate ScanOk(s: Scan, lines: seq<string>) {
    && AllLines(s.done) + s.lines == lines
    && Numbered(s.done)
    && (forall i :: 0 <= i < |s.done| ==> WellCut(s.done[i]))
    && (forall i :: 0 < i < |s.done| ==> s.done[i].heading.Some?)
    && (s.lines != [] ==> WellCut(Section(s.heading, s.start, s.lines)))
    && s.start == |AllLines(s.done)| + 1
    && (s.lines == [] ==> s.heading.None?)
    && (s.heading.None? ==> s.done == [])
  }

  lemma FlushOk(s: Scan, lines: seq<string>)
    requires ScanOk(s, lines)
    ensures AllLines(Flush(s)) == lines && Numbered(Flush(s))
    ensures forall i :: 0 <= i < |Flush(s)| ==> WellCut(Flush(s)[i])
    ensures forall i :: 0 < i < |Flush(s)| ==> Flush(s)[i].heading.Some?
  {
    if s.lines != [] {
      AllLinesAppend(s.done, Section(s.heading, s.start, s.lines));
      NumberedAppend(s.done, Section(s.heading, s.start, s.lines));
    }
  }

  lemma HeadingLineOk(s: Scan, lines: seq<string>, line: string)
    requires ScanOk(s, lines) && Heading(line).Some?
    ensures ScanOk(ScanLine(s, line, |lines| + 1), lines + [line])
  {
    FlushOk(s, lines);
  }

  lemma OrdinaryLineOk(s: Scan, lines: seq<string>, line: string)
    requires ScanOk(s, lines) && Heading(line).None?
    ensures ScanOk(ScanLine(s, line, |lines| + 1), lines + [line])
  {
    var t := ScanLine(s, line, |lines| + 1);
    assert AllLines(s.done) + t.lines == lines + [line];
    assert WellCut(Section(t.heading, t.start, t.lines)) by {
      assert s.lines != [] ==> t.lines[0] == s.lines[0];
    }
  }

  lemma LineOk(s: Scan, lines: seq<string>, line: string, all: seq<string>)
    requires ScanOk(s, lines) && all == lines + [line]
    ensures ScanOk(ScanLine(s, line, |all|), all)
  {
    if Heading(line).Some? {
      HeadingLineOk(s, lines, line);
    } else {
      OrdinaryLineOk(s, lines, line);
    }
  }

  lemma EmptyScanOk()
    ensures ScanOk(Scan([], None, 1, []), [])
  {
  }

  lemma {:induction false} ScanIsOk(lines: seq<string>)
    ensures ScanOk(ScanAll(lines), lines)
  {
    if lines == [] {
      EmptyScanOk();
      assert ScanAll(lines) == Scan([], None, 1, []);
    } else {
      var front, line := lines[..|lines| - 1], lines[|lines| - 1];
      var before, after := ScanAll(front), ScanAll(lines);
      assert after == ScanLine(before, line, |lines|);
      assert lines == front + [line];
      ScanIsOk(front);
      LineOk(before, front, line, lines);
      assert ScanOk(after, lines);
    }
  }

  /**
   Sectioning loses nothing: the sections' lines in order are the document's lines, every
   section starts at its line number, and headings occur exactly at section starts.
   */
  lemma SectionsPartitionLines(lines: seq<string>)
    ensures AllLines(Sections(lines)) == lines
    ensures Numbered(Sections(lines))
    ensures forall i :: 0 <= i < |Sections(lines)| ==> WellCut(Sections(lines)[i])
    ensures forall i :: 0 < i < |Sections(lines)| ==> Sections(lines)[i].heading.Some?
  {
    ScanIsOk(lines);
    FlushOk(ScanAll(lines), lines);
  }

  /** `_sections`. */
  method SectionLoop(lines: seq<string>) returns (sections: seq<Section>)
    ensures sections == Sections(lines)
  {
    sections := [];
    var heading: Option<string>, start, current: seq<string> := None, 1, [];
    for i := 0 to |lines|
      invariant Scan(sections, heading, start, current) == ScanAll(lines[..i])
    {
      assert lines[..i + 1][..i] == lines[..i];
      var line := lines[i];
      var found := Heading(line);
      if found.Some? {
        if current != [] {
          sections := sections + [Section(heading, start, current)];
        }
        heading, start, current := found, i + 1, [line];
      } else {
        current := current + [line];
      }
    }
    assert lines[..|lines|] == lines;
    if current != [] {
      sections := sections + [Section(heading, start, current)];
    }
  }

  /* ---------- windows ---------- */

  /** Legal settings: the constructor refuses small windows and limits the overlap to half of one. */
  datatype Settings = Settings(maxChars: nat, overlap: nat)

  predicate Legal(c: Settings) {
    c.maxChars >= 32 && c.overlap <= c.maxChars / 2
  }

  function MakeSettings(maxChars: int, overlap: int): (r: Result<Settings>)
    ensures r.Ok? <==> maxChars >= 32
    ensures r.Ok? ==> Legal(r.value) && r.value.maxChars == maxChars
    ensures r.Ok? && 0 <= overlap <= maxChars / 2 ==> r.value.overlap == overlap
    ensures r.Ok? && overlap < 0 ==> r.value.overlap == 0
    ensures r.Ok? && overlap > maxChars / 2 ==> r.value.overlap == maxChars / 2
  {
    if maxChars < 32 then Err("rag_chunk_size_too_small")
    else
      var least := if overlap < maxChars / 2 then overlap else maxChars / 2;
      Ok(Settings(maxChars, if least > 0 then least else 0))
  }

  datatype Cut = Cut(start: nat, end: nat)

  function WindowEnd(n: nat, c: Settings, cursor: nat): nat {
    if cursor + c.maxChars < n then cursor + c.maxChars else n
  }

  function NextCursor(n: nat, c: Settings, cursor: nat): nat
    requires Legal(c)
  {
    var back := WindowEnd(n, c, cursor) - c.overlap;
    if back > cursor + 1 then back else cursor + 1
  }

  /** Where a text of length `n` would be cut from `cursor` on if no window were blank. */
  function Cuts(n: nat, c: Settings, cursor: nat): seq<Cut>
    requires Legal(c)
    decreases n - cursor
  {
    if cursor >= n then []
    else
      var end := WindowEnd(n, c, cursor);
      [Cut(cursor, end)] + if end >= n then [] else Cuts(n, c, NextCursor(n, c, cursor))
  }

  function Raw(text: string, cut: Cut): string {
    if cut.start <= cut.end <= |text| then text[cut.start..cut.end] else ""
  }

  /** The cuts before the first blank window: that is where the loop stops. */
  function BeforeBlank(text: string, cuts: seq<Cut>): seq<Cut> {
    if cuts == [] || AllBlank(Raw(text, cuts[0])) then [] else [cuts[0]] + BeforeBlank(text, cuts[1..])
  }

  function Windows(text: string, c: Settings): seq<Cut>
    requires Legal(c)
  {
    BeforeBlank(text, Cuts(|text|, c, 0))
  }

  ghost predicate Follows(a: Cut, b: Cut, n: nat, c: Settings) {
    a.end == a.start + c.maxChars < n && b.start == a.end - c.overlap
  }

  /** Consecutive cuts overlap by exactly the overlap; all but the last are full and stop short. */
  ghost predicate Overlapping(cuts: seq<Cut>, n: nat, c: Settings) {
    && (forall i :: 0 <= i < |cuts| ==> cuts[i].start < cuts[i].end <= n)
    && (forall i :: 0 <= i < |cuts| ==> cuts[i].end == WindowEnd(n, c, cuts[i].start))
    && (forall i, j | 0 <= i < |cuts| && 0 <= j < |cuts| && j == i + 1 :: Follows(cuts[i], cuts[j], n, c))
  }

  lemma {:induction false} CutsOverlap(n: nat, c: Settings, cursor: nat)
    requires Legal(c) && cursor < n
    ensures var cuts := Cuts(n, c, cursor);
            && cuts != [] && cuts[0].start == cursor && cuts[|cuts| - 1].end == n
            && Overlapping(cuts, n, c)
    decreases n - cursor
  {
    var end := WindowEnd(n, c, cursor);
    if end < n {
      var next := NextCursor(n, c, cursor);
      CutsOverlap(n, c, next);
      var cuts, rest := Cuts(n, c, cursor), Cuts(n, c, next);
      assert cuts == [Cut(cursor, end)] + rest;
      PrependOverlaps(Cut(cursor, end), rest, n, c);
    }
  }

  lemma PrependOverlaps(first: Cut, rest: seq<Cut>, n: nat, c: Settings)
    requires Overlapping(rest, n, c) && rest != []
    requires first.start < first.end == WindowEnd(n, c, first.start) && Follows(first, rest[0], n, c)
    ensures Overlapping([first] + rest, n, c)
  {
    var cuts := [first] + rest;
    forall i | 0 <= i < |cuts|
      ensures cuts[i].start < cuts[i].end <= n && cuts[i].end == WindowEnd(n, c, cuts[i].start)
    {
      assert i > 0 ==> cuts[i] == rest[i - 1];
    }
    forall i, j | 0 <= i < |cuts| && 0 <= j < |cuts| && j == i + 1
      ensures Follows(cuts[i], cuts[j], n, c)
    {
      assert cuts[j] == rest[j - 1];
      assert i > 0 ==> cuts[i] == rest[i - 1];
    }
  }

  /** How many windows a text of `n` characters gets: one, and one per further stride begun. */
  function WindowCount(n: nat, c: Settings): nat
    requires Legal(c)
  {
    if n == 0 then 0
    else if n <= c.maxChars then 1
    else 1 + (n - c.maxChars + (c.maxChars - c.overlap) - 1) / (c.maxChars - c.overlap)
  }

  lemma {:induction false} CutsCount(n: nat, c: Settings, cursor: nat)
    requires Legal(c) && cursor < n
    ensures |Cuts(n, c, cursor)| == WindowCount(n - cursor, c)
    decreases n - cursor
  {
    if cursor + c.maxChars < n {
      var stride := c.maxChars - c.overlap;
      assert NextCursor(n, c, cursor) == cursor + stride;
      CutsCount(n, c, cursor + stride);
      OneMoreWindow(n - cursor, c);
    }
  }

  /** A longer text needs one window more than the text that is a stride shorter. */
  lemma OneMoreWindow(n: nat, c: Settings)
    requires Legal(c) && n > c.maxChars
    ensures WindowCount(n, c) == 1 + WindowCount(n - (c.maxChars - c.overlap), c)
  {
    var stride := c.maxChars - c.overlap;
    var left := n - c.maxChars;
    if left > stride {
      QuotientIs(left + stride - 1, stride, (left - 1) / stride + 1, (left - 1) % stride);
      assert left - stride + stride - 1 == left - 1;
    } else {
      QuotientIs(left + stride - 1, stride, 1, left - 1);
    }
  }

  lemma QuotientIs(x: int, b: int, q: int, r: int)
    requires b > 0 && x == b * q + r && 0 <= r < b
    ensures x / b == q
  {
    var d := x / b - q;
    assert x == b * (x / b) + x % b;
    assert b * d == r - x % b;
    Multiples(b, d);
  }

  lemma Multiples(b: int, d: int)
    requires b > 0
    ensures d >= 1 ==> b * d >= b
    ensures d <= -1 ==> b * d <= -b
  {
    assert d >= 1 ==> b * d == b + b * (d - 1) && b * (d - 1) >= 0;
    assert d <= -1 ==> b * d == -b - b * (-1 - d) && b * (-1 - d) >= 0;
  }

  lemma {:induction false} BeforeBlankIsPrefix(text: string, cuts: seq<Cut>)
    ensures BeforeBlank(text, cuts) <= cuts
    ensures forall i :: 0 <= i < |BeforeBlank(text, cuts)| ==> !AllBlank(Raw(text, cuts[i]))
    ensures |BeforeBlank(text, cuts)| < |cuts| ==> AllBlank(Raw(text, cuts[|BeforeBlank(text, cuts)|]))
  {
    if cuts != [] && !AllBlank(Raw(text, cuts[0])) {
      BeforeBlankIsPrefix(text, cuts[1..]);
    }
  }

  /** The windows laid end to end, every overlap dropped. */
  function Rebuild(text: string, cuts: seq<Cut>, c: Settings): string {
    if cuts == [] then ""
    else if |cuts| == 1 then Raw(text, cuts[0])
    else
      var last := Raw(text, cuts[|cuts| - 1]);
      Rebuild(text, cuts[..|cuts| - 1], c) + if c.overlap <= |last| then last[c.overlap..] else ""
  }

  lemma DropOverlap(text: string, a: nat, cut: Cut, c: Settings)
    requires cut.start < cut.end <= |text| && cut.start == a - c.overlap && a <= cut.end
    ensures c.overlap <= |Raw(text, cut)|
    ensures text[..a] + Raw(text, cut)[c.overlap..] == text[..cut.end]
  {
  }

  lemma {:induction false} RebuildPrefix(text: string, cuts: seq<Cut>, c: Settings)
    requires Legal(c) && Overlapping(cuts, |text|, c) && cuts != [] && cuts[0].start == 0
    ensures Rebuild(text, cuts, c) == text[..cuts[|cuts| - 1].end]
  {
    var n := |cuts| - 1;
    if n > 0 {
      var front := cuts[..n];
      FrontOverlaps(cuts, |text|, c);
      RebuildPrefix(text, front, c);
      assert front[n - 1] == cuts[n - 1] && Follows(cuts[n - 1], cuts[n], |text|, c);
      DropOverlap(text, cuts[n - 1].end, cuts[n], c);
    }
  }

  lemma FrontOverlaps(cuts: seq<Cut>, n: nat, c: Settings)
    requires Overlapping(cuts, n, c) && cuts != []
    ensures Overlapping(cuts[..|cuts| - 1], n, c)
  {
    var front := cuts[..|cuts| - 1];
    forall i, j | 0 <= i < |front| && 0 <= j < |front| && j == i + 1
      ensures Follows(front[i], front[j], n, c)
    {
      assert cuts[i] == front[i] && cuts[j] == front[j];
    }
  }

  /** The cuts themselves, blank or not: overlap, number, and what they rebuild. */
  lemma CutsCover(text: string, c: Settings)
    requires Legal(c) && text != ""
    ensures var cuts := Cuts(|text|, c, 0);
            && cuts != [] && Overlapping(cuts, |text|, c) && cuts[|cuts| - 1].end == |text|
            && |cuts| == WindowCount(|text|, c)
            && Rebuild(text, cuts, c) == text
  {
    var cuts := Cuts(|text|, c, 0);
    CutsOverlap(|text|, c, 0);
    CutsCount(|text|, c, 0);
    RebuildPrefix(text, cuts, c);
    assert text[..|text|] == text;
  }

  /**
   A section's windows overlap by exactly the overlap and, when no cut is blank, rebuild the
   section, as many as the formula says. A blank cut ends the loop, so the windows reach the
   end of the section exactly when none is blank.
   */
  lemma WindowsCoverExactly(text: string, c: Settings)
    requires Legal(c) && text != ""
    ensures var windows, cuts := Windows(text, c), Cuts(|text|, c, 0);
            && windows <= cuts && Overlapping(cuts, |text|, c) && |cuts| == WindowCount(|text|, c)
            && ((forall i :: 0 <= i < |cuts| ==> !AllBlank(Raw(text, cuts[i]))) <==> windows == cuts)
            && (windows == cuts ==> Rebuild(text, windows, c) == text)
            && (windows != cuts ==> forall i :: 0 <= i < |windows| ==> windows[i].end < |text|)
  {
    CutsCover(text, c);
    BeforeBlankIsPrefix(text, Cuts(|text|, c, 0));
    if Windows(text, c) != Cuts(|text|, c, 0) {
      EarlierCutsStopShort(Windows(text, c), Cuts(|text|, c, 0), |text|, c);
    }
  }

  lemma EarlierCutsStopShort(windows: seq<Cut>, cuts: seq<Cut>, n: nat, c: Settings)
    requires Legal(c) && windows <= cuts && windows != cuts && Overlapping(cuts, n, c)
    ensures forall i :: 0 <= i < |windows| ==> windows[i].end < n
  {
    forall i | 0 <= i < |windows| ensures windows[i].end < n {
      assert windows[i] == cuts[i] && Follows(cuts[i], cuts[i + 1], n, c);
    }
  }

  /* ---------- chunks ---------- */

  datatype Chunk = Chunk(ordinal: nat, heading: Option<string>, lineStart: nat, lineEnd: nat, text: string)

  function MakeChunk(s: Section, text: string, cut: Cut, ordinal: nat): Chunk
    requires cut.start <= cut.end <= |text|
  {
    Chunk(ordinal, s.heading, s.start + Newlines(text[..cut.start]), s.start + Newlines(text[..cut.end]),
          Strip(text[cut.start..cut.end]))
  }

  /** The chunks for the given cuts of a section, numbered from `ordinal`. */
  function ChunksOf(s: Section, text: string, cuts: seq<Cut>, ordinal: nat): seq<Chunk> {
    if cuts == [] || !(cuts[0].start <= cuts[0].end <= |text|) then []
    else [MakeChunk(s, text, cuts[0], ordinal)] + ChunksOf(s, text, cuts[1..], ordinal + 1)
  }

  function SectionText(s: Section): string {
    Strip(Join(s.lines))
  }

  function SectionChunks(s: Section, c: Settings, ordinal: nat): seq<Chunk>
    requires Legal(c)
  {
    ChunksOf(s, SectionText(s), Windows(SectionText(s), c), ordinal)
  }

  function ChunkAll(sections: seq<Section>, c: Settings): seq<Chunk>
    requires Legal(c)
  {
    if sections == [] then []
    else
      var before := ChunkAll(sections[..|sections| - 1], c);
      before + SectionChunks(sections[|sections| - 1], c, |before|)
  }

  /** `chunk`, for the lines of an indexable document. */
  function ChunkDocument(lines: seq<string>, c: Settings): seq<Chunk>
    requires Legal(c)
  {
    ChunkAll(Sections(lines), c)
  }

  lemma {:induction false} ChunksOfOrdinals(s: Section, text: string, cuts: seq<Cut>, ordinal: nat)
    ensures forall i :: 0 <= i < |ChunksOf(s, text, cuts, ordinal)| ==>
              ChunksOf(s, text, cuts, ordinal)[i].ordinal == ordinal + i
  {
    if cuts != [] && cuts[0].start <= cuts[0].end <= |text| {
      ChunksOfOrdinals(s, text, cuts[1..], ordinal + 1);
    }
  }

  /** Chunks are numbered consecutively through the document. */
  lemma {:induction false} OrdinalsAreConsecutive(sections: seq<Section>, c: Settings)
    requires Legal(c)
    ensures forall i :: 0 <= i < |ChunkAll(sections, c)| ==> ChunkAll(sections, c)[i].ordinal == i
  {
    if sections != [] {
      var front, s := sections[..|sections| - 1], sections[|sections| - 1];
      OrdinalsAreConsecutive(front, c);
      ChunksOfOrdinals(s, SectionText(s), Windows(SectionText(s), c), |ChunkAll(front, c)|);
    }
  }

  /** The chunks still to come when the loop over a section's text stands at `cursor`. */
  ghost function Rest(s: Section, text: string, c: Settings, cursor: nat, ordinal: nat): seq<Chunk>
    requires Legal(c)
  {
    ChunksOf(s, text, BeforeBlank(text, Cuts(|text|, c, cursor)), ordinal)
  }

  /** What is left after the window at `cursor`. */
  ghost function RestAfter(s: Section, text: string, c: Settings, cursor: nat, ordinal: nat): seq<Chunk>
    requires Legal(c)
  {
    if WindowEnd(|text|, c, cursor) >= |text| then []
    else Rest(s, text, c, NextCursor(|text|, c, cursor), ordinal)
  }

  lemma ChunksOfPrepend(s: Section, text: string, first: Cut, rest: seq<Cut>, ordinal: nat)
    requires first.start <= first.end <= |text|
    ensures ChunksOf(s, text, [first] + rest, ordinal)
         == [MakeChunk(s, text, first, ordinal)] + ChunksOf(s, text, rest, ordinal + 1)
  {
    assert ([first] + rest)[1..] == rest;
  }

  lemma RestUnfolds(s: Section, text: string, c: Settings, cursor: nat, ordinal: nat)
    requires Legal(c) && cursor < |text|
    ensures cursor < WindowEnd(|text|, c, cursor) <= |text|
    ensures Rest(s, text, c, cursor, ordinal)
         == (if AllBlank(text[cursor..WindowEnd(|text|, c, cursor)]) then []
             else [MakeChunk(s, text, Cut(cursor, WindowEnd(|text|, c, cursor)), ordinal)]
                  + RestAfter(s, text, c, cursor, ordinal + 1))
  {
    var end := WindowEnd(|text|, c, cursor);
    var later := if end >= |text| then [] else Cuts(|text|, c, NextCursor(|text|, c, cursor));
    var cuts := Cuts(|text|, c, cursor);
    assert cuts == [Cut(cursor, end)] + later && cuts[1..] == later;
    assert Raw(text, cuts[0]) == text[cursor..end];
    ChunksOfPrepend(s, text, Cut(cursor, end), BeforeBlank(text, later), ordinal);
  }

  lemma WindowStep(s: Section, text: string, c: Settings, cursor: nat, end: nat, ordinal: nat)
    requires Legal(c) && cursor < |text| && end == WindowEnd(|text|, c, cursor)
    ensures cursor < end <= |text|
    ensures Rest(s, text, c, cursor, ordinal)
         == (if Strip(text[cursor..end]) == "" then []
             else [MakeChunk(s, text, Cut(cursor, end), ordinal)] + RestAfter(s, text, c, cursor, ordinal + 1))
  {
    RestUnfolds(s, text, c, cursor, ordinal);
    StripEmptyIffBlank(text[cursor..end]);
  }

  lemma AppendShift<T>(front: seq<T>, x: T, rest: seq<T>)
    ensures front + ([x] + rest) == front + [x] + rest
  {
  }

  /** The window loop of `chunk` over one section. */
  method WindowLoop(s: Section, c: Settings, chunks: seq<Chunk>) returns (longer: seq<Chunk>)
    requires Legal(c)
    ensures longer == chunks + SectionChunks(s, c, |chunks|)
  {
    longer := chunks;
    var text := SectionText(s);
    var n: nat, cursor: nat := |text|, 0;
    ghost var rest := Rest(s, text, c, 0, |chunks|);
    ghost var goal := chunks + rest;
    while cursor < n
      invariant rest == Rest(s, text, c, cursor, |longer|)
      invariant longer + rest == goal
      decreases n - cursor
    {
      var end := WindowEnd(n, c, cursor);
      WindowStep(s, text, c, cursor, end, |longer|);
      var value := Strip(text[cursor..end]);
      if value == "" {
        return;
      }
      var chunk := MakeChunk(s, text, Cut(cursor, end), |longer|);
      ghost var later := RestAfter(s, text, c, cursor, |longer| + 1);
      assert rest == [chunk] + later;
      AppendShift(longer, chunk, later);
      longer, rest := longer + [chunk], later;
      assert longer + rest == goal;
      if end >= n {
        return;
      }
      cursor := NextCursor(n, c, cursor);
    }
  }

  lemma ChunkAllStep(sections: seq<Section>, c: Settings, i: nat)
    requires Legal(c) && i < |sections|
    ensures ChunkAll(sections[..i + 1], c)
         == ChunkAll(sections[..i], c) + SectionChunks(sections[i], c, |ChunkAll(sections[..i], c)|)
  {
    assert sections[..i + 1][..i] == sections[..i];
  }

  /** `chunk`. */
  method ChunkLoop(lines: seq<string>, c: Settings) returns (chunks: seq<Chunk>)
    requires Legal(c)
    ensures chunks == ChunkDocument(lines, c)
  {
    var sections := SectionLoop(lines);
    chunks := [];
    for i := 0 to |sections|
      invariant chunks == ChunkAll(sections[..i], c)
    {
      ChunkAllStep(sections, c, i);
      chunks := WindowLoop(sections[i], c, chunks);
    }
    assert sections[..|sections|] == sections;
  }

  /** The first and the last cut of a stripped text are never blank. */
  lemma OuterWindowsAreNotBlank(text: string, c: Settings)
    requires Legal(c) && text != "" && !Blank(text[0]) && !Blank(text[|text| - 1])
    ensures var cuts := Cuts(|text|, c, 0);
            !AllBlank(Raw(text, cuts[0])) && !AllBlank(Raw(text, cuts[|cuts| - 1]))
  {
    CutsOverlap(|text|, c, 0);
    var cuts := Cuts(|text|, c, 0);
    var first, last := cuts[0], cuts[|cuts| - 1];
    var head, tail := Raw(text, first), Raw(text, last);
    assert head[0] == text[0];
    assert tail[|tail| - 1] == text[|text| - 1];
  }

  /** A stripped text that is not empty has windows, and only windows between its outer ones can be blank. */
  lemma WindowsOfStripped(text: string, c: Settings)
    requires Legal(c) && text != "" && !Blank(text[0]) && !Blank(text[|text| - 1])
    ensures Windows(text, c) != [] && Windows(text, c)[0] == Cuts(|text|, c, 0)[0]
    ensures |Windows(text, c)| < |Cuts(|text|, c, 0)| ==> |Windows(text, c)| < |Cuts(|text|, c, 0)| - 1
  {
    OuterWindowsAreNotBlank(text, c);
    CutsOverlap(|text|, c, 0);
    BeforeBlankIsPrefix(text, Cuts(|text|, c, 0));
  }

  lemma ChunksWhereWindows(s: Section, text: string, windows: seq<Cut>, ordinal: nat)
    requires windows != [] ==> windows[0].start <= windows[0].end <= |text|
    ensures ChunksOf(s, text, windows, ordinal) != [] <==> windows != []
  {
  }

  /**
   Every section that is not blank gets a chunk, and a blank window that ends its chunks
   early stands strictly between its first and its last window.
   */
  lemma SectionsAreChunked(s: Section, c: Settings, ordinal: nat)
    requires Legal(c)
    ensures SectionChunks(s, c, ordinal) != [] <==> !AllBlank(Join(s.lines))
    ensures |Windows(SectionText(s), c)| < |Cuts(|SectionText(s)|, c, 0)| ==>
              0 < |Windows(SectionText(s), c)| < |Cuts(|SectionText(s)|, c, 0)| - 1
  {
    var text := SectionText(s);
    var windows := Windows(text, c);
    StripEmptyIffBlank(Join(s.lines));
    if text == "" {
      assert windows == [];
    } else {
      StrippedEnds(Join(s.lines));
      WindowsOfStripped(text, c);
      CutsOverlap(|text|, c, 0);
    }
    ChunksWhereWindows(s, text, windows, ordinal);
  }

  /* ---------- line numbers ---------- */

  /** The line on which the `cursor`-th character of the section's stripped text really stands. */
  function TrueLine(s: Section, cursor: nat): nat
    requires cursor <= |SectionText(s)|
  {
    s.start + Newlines(Join(s.lines)[..Lead(Join(s.lines)) + cursor])
  }

  /** How many blank lines come first. */
  function OpeningBlanks(lines: seq<string>): nat {
    if lines == [] || !AllBlank(lines[0]) then 0 else 1 + OpeningBlanks(lines[1..])
  }

  /** What `strip` takes off the front of a text that is not blank are its opening blank lines. */
  lemma {:induction false} SkippedLines(lines: seq<string>)
    requires lines != [] && (forall i :: 0 <= i < |lines| ==> '\n' !in lines[i]) && !AllBlank(Join(lines))
    ensures Newlines(Join(lines)[..Lead(Join(lines))]) == OpeningBlanks(lines)
  {
    var first, rest := lines[0], lines[1..];
    if AllBlank(first) {
      assert |lines| > 1;
      SkipBlankLine(first, Join(rest));
      SkippedLines(rest);
    } else {
      SkipStaysInFirstLine(lines);
      NoNewlines(Join(lines)[..Lead(Join(lines))]);
    }
  }

  lemma SkipBlankLine(first: string, rest: string)
    requires AllBlank(first) && '\n' !in first
    ensures AllBlank(rest) <==> AllBlank(first + "\n" + rest)
    ensures !AllBlank(rest) ==>
              Newlines((first + "\n" + rest)[..Lead(first + "\n" + rest)]) == 1 + Newlines(rest[..Lead(rest)])
  {
    var front := first + "\n";
    BlankFront(front, rest);
    if !AllBlank(rest) {
      NewlinesJoin(front, rest[..Lead(rest)]);
      NewlinesJoin(first, "\n");
      NoNewlines(first);
      assert "\n"[..0] == "";
    }
  }

  lemma BlankFront(front: string, rest: string)
    requires AllBlank(front)
    ensures AllBlank(rest) <==> AllBlank(front + rest)
    ensures !AllBlank(rest) ==> (front + rest)[..Lead(front + rest)] == front + rest[..Lead(rest)]
  {
    var all, k := front + rest, |front|;
    assert forall i :: 0 <= i < |rest| ==> all[k + i] == rest[i];
    if !AllBlank(rest) {
      var n := Lead(rest);
      assert rest[..|rest|] == rest;
      assert forall i :: 0 <= i < n ==> rest[..n][i] == rest[i];
      LeadIsUnique(all, k + n);
    }
  }

  lemma LeadIsUnique(s: string, n: nat)
    requires n < |s| && !Blank(s[n]) && forall i :: 0 <= i < n ==> Blank(s[i])
    ensures Lead(s) == n
  {
    var m := Lead(s);
    assert forall i :: 0 <= i < m ==> s[..m][i] == s[i];
  }

  lemma SkipStaysInFirstLine(lines: seq<string>)
    requires lines != [] && !AllBlank(lines[0]) && '\n' !in lines[0]
    ensures '\n' !in Join(lines)[..Lead(Join(lines))]
  {
    var joined, first := Join(lines), lines[0];
    var prefix := joined[..Lead(joined)];
    assert forall i :: 0 <= i < |first| ==> joined[i] == first[i];
    assert forall i :: 0 <= i < |prefix| ==> prefix[i] == joined[i] && Blank(prefix[i]);
    assert |prefix| < |first|;
    assert forall i :: 0 <= i < |prefix| ==> prefix[i] == first[i];
  }

  /** Leading blank lines are stripped but not counted: the offset is how many there were. */
  lemma LineOffset(s: Section, cursor: nat)
    requires cursor <= |SectionText(s)|
    ensures TrueLine(s, cursor)
         == s.start + Newlines(SectionText(s)[..cursor]) + Newlines(Join(s.lines)[..Lead(Join(s.lines))])
  {
    var joined := Join(s.lines);
    var lead := Lead(joined);
    StripIsSlice(joined);
    assert joined[..lead + cursor] == joined[..lead] + SectionText(s)[..cursor];
    NewlinesJoin(joined[..lead], SectionText(s)[..cursor]);
  }

  /** Where a cut's chunk text begins and ends in the section's text. */
  function TextStart(text: string, cut: Cut): nat
    requires cut.start <= cut.end <= |text|
  {
    cut.start + Lead(text[cut.start..cut.end])
  }

  function TextEnd(text: string, cut: Cut): nat
    requires cut.start <= cut.end <= |text|
  {
    TextStart(text, cut) + |Strip(text[cut.start..cut.end])|
  }

  lemma ChunkTextPlace(text: string, cut: Cut)
    requires cut.start <= cut.end <= |text| && !AllBlank(text[cut.start..cut.end])
    ensures cut.start <= TextStart(text, cut) < TextEnd(text, cut) <= cut.end
    ensures text[TextStart(text, cut)..TextEnd(text, cut)] == Strip(text[cut.start..cut.end])
    ensures !Blank(text[TextEnd(text, cut) - 1])
  {
    var raw := text[cut.start..cut.end];
    StripEmptyIffBlank(raw);
    StrippedEnds(raw);
    var from, to := TextStart(text, cut), TextEnd(text, cut);
    assert text[from..to] == Strip(raw);
    assert text[to - 1] == Strip(raw)[|Strip(raw)| - 1];
  }

  lemma NewlinesBetween(text: string, a: nat, b: nat)
    requires a <= b <= |text|
    ensures Newlines(text[..b]) == Newlines(text[..a]) + Newlines(text[a..b])
  {
    assert text[..b] == text[..a] + text[a..b];
    NewlinesJoin(text[..a], text[a..b]);
  }

  /** The newlines that `strip` takes off a window's front and back. */
  function FrontNewlines(text: string, cut: Cut): nat
    requires cut.start <= cut.end <= |text| && !AllBlank(text[cut.start..cut.end])
  {
    ChunkTextPlace(text, cut);
    Newlines(text[cut.start..TextStart(text, cut)])
  }

  function BackNewlines(text: string, cut: Cut): nat
    requires cut.start <= cut.end <= |text| && !AllBlank(text[cut.start..cut.end])
  {
    ChunkTextPlace(text, cut);
    Newlines(text[TextEnd(text, cut)..cut.end])
  }

  lemma LastCharacterLine(text: string, cut: Cut)
    requires cut.start <= cut.end <= |text| && !AllBlank(text[cut.start..cut.end])
    ensures TextEnd(text, cut) >= 1
    ensures Newlines(text[..cut.end]) == Newlines(text[..TextEnd(text, cut) - 1]) + BackNewlines(text, cut)
  {
    ChunkTextPlace(text, cut);
    var to := TextEnd(text, cut);
    NewlinesBetween(text, to, cut.end);
    NewlinesBetween(text, to - 1, to);
    assert text[to - 1..to] == [text[to - 1]];
    NoNewlines(text[to - 1..to]);
  }

  lemma OffsetIsOpeningBlanks(s: Section, cursor: nat)
    requires s.lines != [] && (forall i :: 0 <= i < |s.lines| ==> '\n' !in s.lines[i])
    requires SectionText(s) != "" && cursor <= |SectionText(s)|
    ensures TrueLine(s, cursor) == s.start + Newlines(SectionText(s)[..cursor]) + OpeningBlanks(s.lines)
  {
    StripEmptyIffBlank(Join(s.lines));
    SkippedLines(s.lines);
    LineOffset(s, cursor);
  }

  lemma FirstLineOffset(s: Section, cut: Cut)
    requires s.lines != [] && (forall i :: 0 <= i < |s.lines| ==> '\n' !in s.lines[i])
    requires cut.start <= cut.end <= |SectionText(s)| && !AllBlank(SectionText(s)[cut.start..cut.end])
    ensures TextStart(SectionText(s), cut) <= |SectionText(s)|
    ensures TrueLine(s, TextStart(SectionText(s), cut))
         == s.start + Newlines(SectionText(s)[..cut.start]) + FrontNewlines(SectionText(s), cut)
            + OpeningBlanks(s.lines)
  {
    var text := SectionText(s);
    ChunkTextPlace(text, cut);
    OffsetIsOpeningBlanks(s, TextStart(text, cut));
    NewlinesBetween(text, cut.start, TextStart(text, cut));
  }

  lemma LastLineOffset(s: Section, cut: Cut)
    requires s.lines != [] && (forall i :: 0 <= i < |s.lines| ==> '\n' !in s.lines[i])
    requires cut.start <= cut.end <= |SectionText(s)| && !AllBlank(SectionText(s)[cut.start..cut.end])
    ensures 1 <= TextEnd(SectionText(s), cut) <= |SectionText(s)|
    ensures TrueLine(s, TextEnd(SectionText(s), cut) - 1) + BackNewlines(SectionText(s), cut)
         == s.start + Newlines(SectionText(s)[..cut.end]) + OpeningBlanks(s.lines)
  {
    var text := SectionText(s);
    ChunkTextPlace(text, cut);
    OffsetIsOpeningBlanks(s, TextEnd(text, cut) - 1);
    LastCharacterLine(text, cut);
  }

  /**
   A chunk's first line is right exactly when its section does not open with a blank line and
   no newline was stripped off the front of its window; its last line is right exactly when as
   many newlines were stripped off the back of its window as its section opens with blank
   lines. Otherwise the numbers are off by just these counts. A section with a heading opens
   with a line that is not blank.
   */
  lemma LineNumbersAreRightExactly(s: Section, cut: Cut, ordinal: nat)
    requires s.lines != [] && (forall i :: 0 <= i < |s.lines| ==> '\n' !in s.lines[i])
    requires cut.start <= cut.end <= |SectionText(s)| && !AllBlank(SectionText(s)[cut.start..cut.end])
    ensures var text, chunk := SectionText(s), MakeChunk(s, SectionText(s), cut, ordinal);
            var from, to := TextStart(text, cut), TextEnd(text, cut);
            && from < to <= |text| && text[from..to] == chunk.text
            && (chunk.lineStart == TrueLine(s, from) <==> OpeningBlanks(s.lines) == 0 && FrontNewlines(text, cut) == 0)
            && (chunk.lineEnd == TrueLine(s, to - 1) <==> OpeningBlanks(s.lines) == BackNewlines(text, cut))
            && TrueLine(s, from) - chunk.lineStart == OpeningBlanks(s.lines) + FrontNewlines(text, cut)
            && chunk.lineEnd - TrueLine(s, to - 1) == BackNewlines(text, cut) - OpeningBlanks(s.lines)
    ensures Heading(s.lines[0]).Some? ==> OpeningBlanks(s.lines) == 0
  {
    ChunkTextPlace(SectionText(s), cut);
    FirstLineOffset(s, cut);
    LastLineOffset(s, cut);
  }

  /* Windows that begin with a newline, in sections that open with a heading. */

  lemma StripKeeps(s: string)
    requires s != "" && !Blank(s[0]) && !Blank(s[|s| - 1])
    ensures Strip(s) == s
  {
    assert s[0..] == s && s[..|s|] == s;
  }

  lemma TwoCuts(text: string, c: Settings)
    requires c == Settings(32, 0) && |text| == 34
    requires !AllBlank(text[0..32]) && !AllBlank(text[32..34])
    ensures Windows(text, c) == [Cut(0, 32), Cut(32, 34)]
  {
    assert Cuts(34, c, 32) == [Cut(32, 34)];
    assert Cuts(34, c, 0) == [Cut(0, 32)] + [Cut(32, 34)];
    var cuts := Cuts(34, c, 0);
    assert cuts[1..] == [Cut(32, 34)] && cuts[1..][1..] == [];
    assert Raw(text, cuts[0]) == text[0..32] && Raw(text, cuts[1]) == text[32..34];
    assert BeforeBlank(text, [Cut(32, 34)]) == [Cut(32, 34)];
    assert BeforeBlank(text, cuts) == [cuts[0]] + [Cut(32, 34)];
  }

  lemma TwoLinesText(heading: string, b: char)
    requires |heading| == 32 && heading[0] == '#' && !Blank(b)
    ensures Strip(Join([heading, [b]])) == heading + "\n" + [b]
  {
    var text := heading + "\n" + [b];
    assert [heading, [b]][1..] == [[b]] && Join([[b]]) == [b];
    assert Join([heading, [b]]) == text;
    assert text[0] == '#' && text[33] == b;
    StripKeeps(text);
  }

  /** The chunk's first line is not the one that its text begins on. */
  ghost predicate StartsOnWrongLine(s: Section, cut: Cut, ordinal: nat) {
    && cut.start <= cut.end <= |SectionText(s)| && TextStart(SectionText(s), cut) <= |SectionText(s)|
    && MakeChunk(s, SectionText(s), cut, ordinal).lineStart != TrueLine(s, TextStart(SectionText(s), cut))
  }

  /** A heading of 32 characters, then a line of one: the second window is a newline and that character. */
  lemma SecondWindowStartsEarly(heading: string, b: char)
    requires |heading| == 32 && Heading(heading).Some? && '\n' !in heading && !Blank(b)
    ensures var s, c := Section(Heading(heading), 1, [heading, [b]]), Settings(32, 0);
            && |SectionText(s)| == 34 && Windows(SectionText(s), c) == [Cut(0, 32), Cut(32, 34)]
            && var second := MakeChunk(s, SectionText(s), Cut(32, 34), 1);
               second.text == [b] && second.lineStart == 1 && TrueLine(s, TextStart(SectionText(s), Cut(32, 34))) == 2
  {
    var s, c := Section(Heading(heading), 1, [heading, [b]]), Settings(32, 0);
    var text := heading + "\n" + [b];
    TwoLinesText(heading, b);
    assert SectionText(s) == text;
    assert text[0..32] == heading && text[..32] == heading && heading[0] == '#';
    NoNewlines(heading);
    NewlineThenText(text, b);
    TwoCuts(text, c);
    SecondChunk(s, text, b);
    FirstLineOffset(s, Cut(32, 34));
  }

  lemma SecondChunk(s: Section, text: string, b: char)
    requires s.start == 1 && |text| == 34 && Newlines(text[..32]) == 0 && Strip(text[32..34]) == [b]
    ensures MakeChunk(s, text, Cut(32, 34), 1).text == [b] && MakeChunk(s, text, Cut(32, 34), 1).lineStart == 1
  {
  }

  lemma NewlineThenText(text: string, b: char)
    requires |text| == 34 && text[32] == '\n' && text[33] == b && !Blank(b)
    ensures !AllBlank(text[32..34]) && Strip(text[32..34]) == [b] && FrontNewlines(text, Cut(32, 34)) == 1
  {
    var raw := text[32..34];
    assert raw == ['\n', b] && raw[1] == b;
    LeadIsUnique(raw, 1);
    assert raw[1..] == [b] && [b][..1] == [b];
    assert text[32..33] == "\n" && "\n"[..0] == "";
  }

  /** Such a heading exists. */
  lemma LongHeading() returns (heading: string)
    ensures heading == "# " + seq(30, _ => 'a')
    ensures |heading| == 32 && Heading(heading).Some? && '\n' !in heading
  {
    heading := ['#', ' '] + seq(30, _ => 'a');
    assert heading[0] == '#' && heading[1] == ' ';
    assert heading[1..][0] == ' ';
    assert Hashes(heading) == 1;
  }

  lemma HeadedIsWellCut(heading: string, b: char)
    requires Heading(heading).Some? && b != '#'
    ensures WellCut(Section(Heading(heading), 1, [heading, [b]]))
  {
    assert Hashes([b]) == 0;
  }

  /** A heading does not make all line numbers of its section right. */
  lemma HeadedSectionsCanBeWrong()
    ensures exists s: Section ::
              && s.heading.Some? && WellCut(s) && StartsOnWrongLine(s, Cut(32, 34), 1)
              && Windows(SectionText(s), Settings(32, 0)) == [Cut(0, 32), Cut(32, 34)]
  {
    var heading := LongHeading();
    var s := Section(Heading(heading), 1, [heading, ['b']]);
    HeadedIsWellCut(heading, 'b');
    SecondWindowStartsEarly(heading, 'b');
    WrongLine(s);
  }

  lemma WrongLine(s: Section)
    requires |SectionText(s)| == 34 && MakeChunk(s, SectionText(s), Cut(32, 34), 1).lineStart == 1
    requires TextStart(SectionText(s), Cut(32, 34)) <= 34 && TrueLine(s, TextStart(SectionText(s), Cut(32, 34))) == 2
    ensures StartsOnWrongLine(s, Cut(32, 34), 1)
  {
  }
}
