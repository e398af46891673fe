/** Markdown split into sections of blocks: the line parser of the document index, with fenced
    code and tables kept whole. */
module Sections {
  import opened Wrappers
  import opened Texts
  import opened Seqs

  datatype Heading = Heading(level: int, title: string)

  datatype SectionBlock = SectionBlock(text: string, startChar: nat, endChar: nat)

  datatype Section = Section(headingPath: seq<Heading>, blocks: seq<SectionBlock>)

  // The line matchers, regular expressions in the program: heading, opening fence, table separator.
  datatype Matchers = Matchers(heading: string -> Option<Heading>, fence: string -> Option<string>, separator: string -> bool)

  predicate Blank(c: char) {
    || c in {' ', '\t', '\n', '\r', '\U{000B}', '\U{000C}', '\U{0085}', '\U{00A0}', '\U{1680}', '\U{202F}', '\U{205F}', '\U{3000}'}
    || '\U{001C}' <= c <= '\U{001F}' || '\U{2000}' <= c <= '\U{200A}' || c == '\U{2028}' || c == '\U{2029}'
  }

  predicate BlankLine(line: string) {
    Strip(Blank, line) == ""
  }

  function WithoutNewline(line: string): string {
    StripRight(c => c == '\n', line)
  }

  // -- lines ------------------------------------------------------------------------------

  predicate LineEnd(c: char) {
    c in {'\n', '\r', '\U{000B}', '\U{000C}', '\U{001C}', '\U{001D}', '\U{001E}', '\U{0085}', '\U{2028}', '\U{2029}'}
  }

  // Where the line that begins at i ends; a carriage return takes a following newline with it.
  function LineStop(text: string, i: nat): (j: nat)
    requires i < |text|
    ensures i < j <= |text|
    decreases |text| - i
  {
    if text[i] == '\r' && i + 1 < |text| && text[i + 1] == '\n' then i + 2
    else if LineEnd(text[i]) || i + 1 == |text| then i + 1
    else LineStop(text, i + 1)
  }

  // splitlines, with the line ends kept.
  function SplitLines(text: string, i: nat): (lines: seq<string>)
    requires i <= |text|
    ensures forall line :: line in lines ==> line != ""
    decreases |text| - i
  {
    if i == |text| then [] else [text[i..LineStop(text, i)]] + SplitLines(text, LineStop(text, i))
  }

  lemma {:induction false} LinesAreText(text: string, i: nat)
    requires i <= |text|
    ensures Concat(SplitLines(text, i)) == text[i..]
    decreases |text| - i
  {
    if i < |text| {
      LinesAreText(text, LineStop(text, i));
      assert SplitLines(text, i)[1..] == SplitLines(text, LineStop(text, i));
    }
  }

  function Offset(lines: seq<string>, k: nat): nat
    requires k <= |lines|
  {
    |Concat(lines[..k])|
  }

  // The text between two line starts is those lines.
  lemma TextBetween(lines: seq<string>, i: nat, j: nat)
    requires i <= j <= |lines|
    ensures Offset(lines, i) <= Offset(lines, j) <= |Concat(lines)|
    ensures Concat(lines)[Offset(lines, i)..Offset(lines, j)] == Concat(lines[i..j])
  {
    assert lines[..j] == lines[..i] + lines[i..j] && lines == lines[..j] + lines[j..];
    ConcatAppend(lines[..i], lines[i..j]);
    ConcatAppend(lines[..j], lines[j..]);
  }

  lemma OffsetNext(lines: seq<string>, k: nat)
    requires k < |lines|
    ensures Offset(lines, k + 1) == Offset(lines, k) + |lines[k]|
  {
    assert lines[..k + 1] == lines[..k] + [lines[k]];
    ConcatAppend(lines[..k], [lines[k]]);
  }

  // -- blocks -----------------------------------------------------------------------------

  predicate TableStart(m: Matchers, lines: seq<string>, i: nat)
    requires i < |lines|
  {
    i + 1 < |lines| && '|' in WithoutNewline(lines[i]) && m.separator(WithoutNewline(lines[i + 1]))
  }

  function HeadingAt(m: Matchers, line: string): Option<Heading> {
    m.heading(WithoutNewline(line))
  }

  predicate Fences(line: string, fence: string) {
    fence <= StripLeft(Blank, line)
  }

  // A fence runs to the first line that begins with it again, or to the end.
  function FenceEnd(lines: seq<string>, fence: string, i: nat): (j: nat)
    requires i <= |lines|
    ensures i <= j <= |lines|
    ensures forall k :: i <= k < j - 1 ==> !Fences(lines[k], fence)
    ensures j == |lines| || (i < j && Fences(lines[j - 1], fence))
    decreases |lines| - i
  {
    if i == |lines| then i
    else if Fences(lines[i], fence) then i + 1
    else FenceEnd(lines, fence, i + 1)
  }

  predicate TableRow(line: string) {
    Strip(Blank, WithoutNewline(line)) != "" && '|' in WithoutNewline(line)
  }

  function TableEnd(lines: seq<string>, i: nat): (j: nat)
    requires i <= |lines|
    ensures i <= j <= |lines|
    ensures forall k :: i <= k < j ==> TableRow(lines[k])
    ensures j < |lines| ==> !TableRow(lines[j])
    decreases |lines| - i
  {
    if i == |lines| || !TableRow(lines[i]) then i else TableEnd(lines, i + 1)
  }

  // What ends a paragraph.
  predicate Breaks(m: Matchers, lines: seq<string>, i: nat)
    requires i < |lines|
  {
    BlankLine(lines[i]) || HeadingAt(m, lines[i]).Some? || m.fence(lines[i]).Some? || TableStart(m, lines, i)
  }

  function ParagraphEnd(m: Matchers, lines: seq<string>, i: nat): (j: nat)
    requires i <= |lines|
    ensures i <= j <= |lines|
    ensures forall k :: i <= k < j ==> !Breaks(m, lines, k)
    ensures j < |lines| ==> Breaks(m, lines, j)
    decreases |lines| - i
  {
    if i == |lines| || Breaks(m, lines, i) then i else ParagraphEnd(m, lines, i + 1)
  }

  function BlockEnd(m: Matchers, lines: seq<string>, i: nat): (j: nat)
    requires i < |lines|
    ensures i < j <= |lines|
  {
    match m.fence(lines[i])
    case Some(fence) => FenceEnd(lines, fence, i + 1)
    case None => if TableStart(m, lines, i) then TableEnd(lines, i + 2) else ParagraphEnd(m, lines, i + 1)
  }

  // The lines [first, next) of a block.
  datatype Span = Span(first: nat, next: nat)

  predicate Outside(m: Matchers, line: string) {
    HeadingAt(m, line).Some? || BlankLine(line)
  }

  function Spans(m: Matchers, lines: seq<string>, i: nat): (spans: seq<Span>)
    requires i <= |lines|
    decreases |lines| - i
  {
    if i == |lines| then []
    else if Outside(m, lines[i]) then Spans(m, lines, i + 1)
    else [Span(i, BlockEnd(m, lines, i))] + Spans(m, lines, BlockEnd(m, lines, i))
  }

  predicate Within(s: Span, k: nat) {
    s.first <= k < s.next
  }

  /** Every line lies in exactly one block, or it is a heading or blank line in none; the blocks
      come in order and do not overlap. */
  lemma {:induction false} SpansCover(m: Matchers, lines: seq<string>, i: nat)
    requires i <= |lines|
    ensures forall s :: s in Spans(m, lines, i) ==> i <= s.first < s.next <= |lines|
    ensures forall a, b :: 0 <= a < b < |Spans(m, lines, i)| ==> Spans(m, lines, i)[a].next <= Spans(m, lines, i)[b].first
    ensures forall k :: i <= k < |lines| && !Outside(m, lines[k]) ==> exists s :: s in Spans(m, lines, i) && Within(s, k)
    decreases |lines| - i
  {
    if i < |lines| {
      if Outside(m, lines[i]) {
        SpansCover(m, lines, i + 1);
      } else {
        var j := BlockEnd(m, lines, i);
        SpansCover(m, lines, j);
        assert Span(i, j) in Spans(m, lines, i);
        forall k | i <= k < |lines| && !Outside(m, lines[k])
          ensures exists s :: s in Spans(m, lines, i) && Within(s, k)
        {
          if k < j {
            assert Within(Span(i, j), k);
          } else {
            var s :| s in Spans(m, lines, j) && Within(s, k);
            assert s in Spans(m, lines, i);
          }
        }
      }
    }
  }

  function BlockOf(lines: seq<string>, s: Span): SectionBlock
    requires s.first <= s.next <= |lines|
  {
    SectionBlock(Strip(Blank, Concat(lines[s.first..s.next])), Offset(lines, s.first), Offset(lines, s.next))
  }

  // A block is never empty: its first line is not blank.
  lemma BlockTight(lines: seq<string>, s: Span)
    requires s.first < s.next <= |lines| && !BlankLine(lines[s.first])
    ensures Tight(Blank, BlockOf(lines, s).text)
  {
    var part := lines[s.first..s.next];
    StripIs(Blank, lines[s.first]);
    StripIs(Blank, Concat(part));
    assert part[0] == lines[s.first];
    var k :| 0 <= k < |lines[s.first]| && !Blank(lines[s.first][k]);
    assert Concat(part)[k] == lines[s.first][k];
  }

  /** A block's text is the document between its offsets, stripped, and not empty. */
  lemma BlockIsDocument(lines: seq<string>, s: Span)
    requires s.first < s.next <= |lines| && !BlankLine(lines[s.first])
    ensures var b := BlockOf(lines, s);
            && b.startChar <= b.endChar <= |Concat(lines)|
            && b.text == Strip(Blank, Concat(lines)[b.startChar..b.endChar]) && Tight(Blank, b.text)
  {
    TextBetween(lines, s.first, s.next);
    BlockTight(lines, s);
  }

  // -- heading paths ----------------------------------------------------------------------

  function PopTo(path: seq<Heading>, level: int): seq<Heading> {
    if path != [] && path[|path| - 1].level >= level then PopTo(path[..|path| - 1], level) else path
  }

  // The path kept as a stack: a heading takes those of its own and deeper levels off.
  function Stack(hs: seq<Heading>): seq<Heading> {
    if hs == [] then [] else PopTo(Stack(hs[..|hs| - 1]), hs[|hs| - 1].level) + [hs[|hs| - 1]]
  }

  // A later heading of the same or a higher rank ends the reach of this one.
  predicate Ended(h: Heading, later: seq<Heading>) {
    exists k :: 0 <= k < |later| && later[k].level <= h.level
  }

  // The headings still in force, read off the list of all headings.
  function InForce(hs: seq<Heading>): seq<Heading> {
    if hs == [] then [] else (if Ended(hs[0], hs[1..]) then [] else [hs[0]]) + InForce(hs[1..])
  }

  predicate Nested(path: seq<Heading>) {
    forall a, b :: 0 <= a < b < |path| ==> path[a].level < path[b].level
  }

  lemma {:induction false} InForceNested(hs: seq<Heading>)
    ensures Nested(InForce(hs))
    ensures forall h :: h in InForce(hs) ==> h in hs
  {
    if hs != [] {
      InForceNested(hs[1..]);
      forall h | h in InForce(hs[1..])
        ensures !Ended(hs[0], hs[1..]) ==> hs[0].level < h.level
      {
        var k :| 0 <= k < |hs[1..]| && hs[1..][k] == h;
      }
    }
  }

  // Below a level: what popping leaves.
  function Above(path: seq<Heading>, level: int): seq<Heading> {
    Filter((h: Heading) => h.level < level, path)
  }

  lemma {:induction false} PopIsAbove(path: seq<Heading>, level: int)
    requires Nested(path)
    ensures PopTo(path, level) == Above(path, level)
  {
    if path != [] {
      var init, last := path[..|path| - 1], path[|path| - 1];
      assert path == init + [last];
      if last.level >= level {
        FilterSnoc((h: Heading) => h.level < level, init, last);
        PopIsAbove(init, level);
      } else {
        FilterAll((h: Heading) => h.level < level, path);
      }
    }
  }

  // One more heading takes out of force those it ends.
  lemma {:induction false} InForceNext(hs: seq<Heading>, h: Heading)
    ensures InForce(hs + [h]) == Above(InForce(hs), h.level) + [h]
  {
    if hs == [] {
      assert hs + [h] == [h];
    } else {
      var first := if Ended(hs[0], hs[1..]) then [] else [hs[0]];
      InForceNext(hs[1..], h);
      assert (hs + [h])[1..] == hs[1..] + [h];
      EndedNext(hs[0], hs[1..], h);
      FilterConcat((g: Heading) => g.level < h.level, first, InForce(hs[1..]));
      Associates(Above(first, h.level), Above(InForce(hs[1..]), h.level), [h]);
    }
  }

  lemma EndedNext(g: Heading, later: seq<Heading>, h: Heading)
    ensures Ended(g, later + [h]) <==> Ended(g, later) || h.level <= g.level
  {
    if h.level <= g.level {
      assert (later + [h])[|later|].level <= g.level;
    }
    if Ended(g, later) {
      var k :| 0 <= k < |later| && later[k].level <= g.level;
      assert (later + [h])[k].level <= g.level;
    }
  }

  /** The stack holds exactly the headings with no later heading of the same or a higher rank, and
      its levels strictly increase. */
  lemma {:induction false} StackIsInForce(hs: seq<Heading>)
    ensures Stack(hs) == InForce(hs) && Nested(Stack(hs))
  {
    InForceNested(hs);
    if hs != [] {
      var init, last := hs[..|hs| - 1], hs[|hs| - 1];
      assert hs == init + [last];
      StackIsInForce(init);
      PopIsAbove(Stack(init), last.level);
      InForceNext(init, last);
    }
  }

  // -- the parse --------------------------------------------------------------------------

  function Flushed(path: seq<Heading>, blocks: seq<SectionBlock>): seq<Section> {
    if blocks == [] then [] else [Section(path, blocks)]
  }

  // What parsing adds from line i on, with the current path and the blocks of the open section.
  function Parse(m: Matchers, lines: seq<string>, i: nat, path: seq<Heading>, blocks: seq<SectionBlock>): seq<Section>
    requires i <= |lines|
    decreases |lines| - i
  {
    if i == |lines| then Flushed(path, blocks)
    else
      match HeadingAt(m, lines[i])
      case Some(h) => Flushed(path, blocks) + Parse(m, lines, i + 1, PopTo(path, h.level) + [h], [])
      case None =>
        if BlankLine(lines[i]) then Parse(m, lines, i + 1, path, blocks)
        else Parse(m, lines, BlockEnd(m, lines, i), path, blocks + [BlockOf(lines, Span(i, BlockEnd(m, lines, i)))])
  }

  function BlocksOf(sections: seq<Section>): seq<SectionBlock> {
    if sections == [] then [] else sections[0].blocks + BlocksOf(sections[1..])
  }

  function Repeated(path: seq<Heading>, n: nat): seq<seq<Heading>> {
    if n == 0 then [] else Repeated(path, n - 1) + [path]
  }

  // The heading path each block stands under, block by block.
  function PathsOf(sections: seq<Section>): seq<seq<Heading>> {
    if sections == [] then [] else Repeated(sections[0].headingPath, |sections[0].blocks|) + PathsOf(sections[1..])
  }

  function BlocksAt(m: Matchers, lines: seq<string>, i: nat): seq<SectionBlock>
    requires i <= |lines|
    decreases |lines| - i
  {
    if i == |lines| then []
    else if Outside(m, lines[i]) then BlocksAt(m, lines, i + 1)
    else [BlockOf(lines, Span(i, BlockEnd(m, lines, i)))] + BlocksAt(m, lines, BlockEnd(m, lines, i))
  }

  // For each block from line i on, the headings in force before it, given those seen so far.
  function PathsAt(m: Matchers, lines: seq<string>, i: nat, seen: seq<Heading>): seq<seq<Heading>>
    requires i <= |lines|
    decreases |lines| - i
  {
    if i == |lines| then []
    else
      match HeadingAt(m, lines[i])
      case Some(h) => PathsAt(m, lines, i + 1, seen + [h])
      case None =>
        if BlankLine(lines[i]) then PathsAt(m, lines, i + 1, seen)
        else [InForce(seen)] + PathsAt(m, lines, BlockEnd(m, lines, i), seen)
  }

  lemma FlushedBlocks(path: seq<Heading>, blocks: seq<SectionBlock>, rest: seq<Section>)
    ensures BlocksOf(Flushed(path, blocks) + rest) == blocks + BlocksOf(rest)
  {
    if blocks == [] {
      assert Flushed(path, blocks) + rest == rest;
    } else {
      assert (Flushed(path, blocks) + rest)[1..] == rest;
    }
  }

  lemma FlushedPaths(path: seq<Heading>, blocks: seq<SectionBlock>, rest: seq<Section>)
    ensures PathsOf(Flushed(path, blocks) + rest) == Repeated(path, |blocks|) + PathsOf(rest)
  {
    if blocks == [] {
      assert Flushed(path, blocks) + rest == rest;
    } else {
      assert (Flushed(path, blocks) + rest)[1..] == rest;
    }
  }

  // What the blocks of the sections are to be.
  ghost predicate BlocksRight(m: Matchers, lines: seq<string>, i: nat, path: seq<Heading>, blocks: seq<SectionBlock>)
    requires i <= |lines|
  {
    && BlocksOf(Parse(m, lines, i, path, blocks)) == blocks + BlocksAt(m, lines, i)
    && forall s :: s in Parse(m, lines, i, path, blocks) ==> s.blocks != []
  }

  lemma BlocksEnd(m: Matchers, lines: seq<string>, path: seq<Heading>, blocks: seq<SectionBlock>)
    ensures BlocksRight(m, lines, |lines|, path, blocks)
  {
    FlushedBlocks(path, blocks, []);
    assert Flushed(path, blocks) + [] == Flushed(path, blocks);
  }

  lemma BlocksTakeHeading(m: Matchers, lines: seq<string>, i: nat, path: seq<Heading>, blocks: seq<SectionBlock>)
    requires i < |lines| && HeadingAt(m, lines[i]).Some?
    requires var h := HeadingAt(m, lines[i]).value; BlocksRight(m, lines, i + 1, PopTo(path, h.level) + [h], [])
    ensures BlocksRight(m, lines, i, path, blocks)
  {
    var h := HeadingAt(m, lines[i]).value;
    FlushedBlocks(path, blocks, Parse(m, lines, i + 1, PopTo(path, h.level) + [h], []));
  }

  lemma BlocksTakeBlank(m: Matchers, lines: seq<string>, i: nat, path: seq<Heading>, blocks: seq<SectionBlock>)
    requires i < |lines| && HeadingAt(m, lines[i]).None? && BlankLine(lines[i])
    requires BlocksRight(m, lines, i + 1, path, blocks)
    ensures BlocksRight(m, lines, i, path, blocks)
  {
  }

  lemma BlocksTakeBlock(m: Matchers, lines: seq<string>, i: nat, path: seq<Heading>, blocks: seq<SectionBlock>)
    requires i < |lines| && !Outside(m, lines[i])
    requires BlocksRight(m, lines, BlockEnd(m, lines, i), path, blocks + [BlockOf(lines, Span(i, BlockEnd(m, lines, i)))])
    ensures BlocksRight(m, lines, i, path, blocks)
  {
    Associates(blocks, [BlockOf(lines, Span(i, BlockEnd(m, lines, i)))], BlocksAt(m, lines, BlockEnd(m, lines, i)));
  }

  /** The sections hold every block of the document, once and in order, and none is empty. */
  lemma {:induction false} ParseKeepsBlocks(m: Matchers, lines: seq<string>, i: nat, path: seq<Heading>, blocks: seq<SectionBlock>)
    requires i <= |lines|
    ensures BlocksRight(m, lines, i, path, blocks)
    decreases |lines| - i
  {
    if i == |lines| {
      BlocksEnd(m, lines, path, blocks);
    } else if HeadingAt(m, lines[i]).Some? {
      var h := HeadingAt(m, lines[i]).value;
      ParseKeepsBlocks(m, lines, i + 1, PopTo(path, h.level) + [h], []);
      BlocksTakeHeading(m, lines, i, path, blocks);
    } else if BlankLine(lines[i]) {
      ParseKeepsBlocks(m, lines, i + 1, path, blocks);
      BlocksTakeBlank(m, lines, i, path, blocks);
    } else {
      ParseKeepsBlocks(m, lines, BlockEnd(m, lines, i), path, blocks + [BlockOf(lines, Span(i, BlockEnd(m, lines, i)))]);
      BlocksTakeBlock(m, lines, i, path, blocks);
    }
  }

  // What the paths of the sections are to be.
  ghost predicate PathsRight(m: Matchers, lines: seq<string>, i: nat, seen: seq<Heading>, blocks: seq<SectionBlock>)
    requires i <= |lines|
  {
    PathsOf(Parse(m, lines, i, Stack(seen), blocks)) == Repeated(InForce(seen), |blocks|) + PathsAt(m, lines, i, seen)
  }

  lemma PathsEnd(m: Matchers, lines: seq<string>, seen: seq<Heading>, blocks: seq<SectionBlock>)
    ensures PathsRight(m, lines, |lines|, seen, blocks)
  {
    StackIsInForce(seen);
    FlushedPaths(Stack(seen), blocks, []);
    assert Flushed(Stack(seen), blocks) + [] == Flushed(Stack(seen), blocks);
  }

  lemma PathsTakeHeading(m: Matchers, lines: seq<string>, i: nat, seen: seq<Heading>, blocks: seq<SectionBlock>)
    requires i < |lines| && HeadingAt(m, lines[i]).Some?
    requires PathsRight(m, lines, i + 1, seen + [HeadingAt(m, lines[i]).value], [])
    ensures PathsRight(m, lines, i, seen, blocks)
  {
    var h := HeadingAt(m, lines[i]).value;
    assert (seen + [h])[..|seen|] == seen;
    StackIsInForce(seen);
    FlushedPaths(Stack(seen), blocks, Parse(m, lines, i + 1, Stack(seen + [h]), []));
  }

  lemma PathsTakeBlock(m: Matchers, lines: seq<string>, i: nat, seen: seq<Heading>, blocks: seq<SectionBlock>)
    requires i < |lines| && !Outside(m, lines[i])
    requires PathsRight(m, lines, BlockEnd(m, lines, i), seen, blocks + [BlockOf(lines, Span(i, BlockEnd(m, lines, i)))])
    ensures PathsRight(m, lines, i, seen, blocks)
  {
    Associates(Repeated(InForce(seen), |blocks|), [InForce(seen)], PathsAt(m, lines, BlockEnd(m, lines, i), seen));
  }

  lemma PathsTakeBlank(m: Matchers, lines: seq<string>, i: nat, seen: seq<Heading>, blocks: seq<SectionBlock>)
    requires i < |lines| && HeadingAt(m, lines[i]).None? && BlankLine(lines[i])
    requires PathsRight(m, lines, i + 1, seen, blocks)
    ensures PathsRight(m, lines, i, seen, blocks)
  {
  }

  /** Each block stands in a section whose heading path is exactly the headings in force there. */
  lemma {:induction false} ParseKeepsPaths(m: Matchers, lines: seq<string>, i: nat, seen: seq<Heading>, blocks: seq<SectionBlock>)
    requires i <= |lines|
    ensures PathsRight(m, lines, i, seen, blocks)
    decreases |lines| - i
  {
    if i == |lines| {
      PathsEnd(m, lines, seen, blocks);
    } else if HeadingAt(m, lines[i]).Some? {
      ParseKeepsPaths(m, lines, i + 1, seen + [HeadingAt(m, lines[i]).value], []);
      PathsTakeHeading(m, lines, i, seen, blocks);
    } else if BlankLine(lines[i]) {
      ParseKeepsPaths(m, lines, i + 1, seen, blocks);
      PathsTakeBlank(m, lines, i, seen, blocks);
    } else {
      ParseKeepsPaths(m, lines, BlockEnd(m, lines, i), seen, blocks + [BlockOf(lines, Span(i, BlockEnd(m, lines, i)))]);
      PathsTakeBlock(m, lines, i, seen, blocks);
    }
  }

  lemma {:induction false} BlocksAreSpans(m: Matchers, lines: seq<string>, i: nat)
    requires i <= |lines|
    ensures |BlocksAt(m, lines, i)| == |Spans(m, lines, i)|
    ensures forall k :: 0 <= k < |Spans(m, lines, i)| ==>
              var s := Spans(m, lines, i)[k];
              s.first < s.next <= |lines| && !BlankLine(lines[s.first]) && BlocksAt(m, lines, i)[k] == BlockOf(lines, s)
    decreases |lines| - i
  {
    if i < |lines| {
      BlocksAreSpans(m, lines, if Outside(m, lines[i]) then i + 1 else BlockEnd(m, lines, i));
    }
  }

  // Blocks in document order, each the stripped text between its offsets.
  ghost predicate OrderedBlocks(text: string, blocks: seq<SectionBlock>) {
    && (forall k :: 0 <= k < |blocks| ==>
          && blocks[k].startChar <= blocks[k].endChar <= |text|
          && blocks[k].text == Strip(Blank, text[blocks[k].startChar..blocks[k].endChar]) && Tight(Blank, blocks[k].text))
    && forall a, b :: 0 <= a < b < |blocks| ==> blocks[a].endChar <= blocks[b].startChar
  }

  /** The blocks of a document, as the parser finds them, are disjoint pieces of its text in order. */
  lemma BlocksOrdered(m: Matchers, text: string)
    ensures OrderedBlocks(text, BlocksAt(m, SplitLines(text, 0), 0))
  {
    var lines := SplitLines(text, 0);
    var blocks, spans := BlocksAt(m, lines, 0), Spans(m, lines, 0);
    LinesAreText(text, 0);
    assert text[0..] == text;
    BlocksAreSpans(m, lines, 0);
    SpansCover(m, lines, 0);
    forall k | 0 <= k < |blocks|
      ensures blocks[k].startChar <= blocks[k].endChar <= |text|
      ensures blocks[k].text == Strip(Blank, text[blocks[k].startChar..blocks[k].endChar]) && Tight(Blank, blocks[k].text)
    {
      BlockIsDocument(lines, spans[k]);
    }
    forall a, b | 0 <= a < b < |blocks|
      ensures blocks[a].endChar <= blocks[b].startChar
    {
      TextBetween(lines, spans[a].next, spans[b].first);
    }
  }

  // -- the program ------------------------------------------------------------------------

  method LineOffsets(lines: seq<string>) returns (offsets: seq<nat>)
    ensures |offsets| == |lines| + 1 && forall k :: 0 <= k <= |lines| ==> offsets[k] == Offset(lines, k)
  {
    offsets := [];
    var cur := 0;
    for i := 0 to |lines|
      invariant |offsets| == i && cur == Offset(lines, i)
      invariant forall k :: 0 <= k < i ==> offsets[k] == Offset(lines, k)
    {
      offsets := offsets + [cur];
      OffsetNext(lines, i);
      cur := cur + |lines[i]|;
    }
    offsets := offsets + [cur];
  }

  // Where the block that begins at line first ends: the three inner loops.
  method ScanBlock(m: Matchers, lines: seq<string>, first: nat) returns (i: nat)
    requires first < |lines|
    ensures i == BlockEnd(m, lines, first)
  {
    i := first;
    if m.fence(lines[first]).Some? {
      var fence := m.fence(lines[first]).value;
      i := i + 1;
      while i < |lines|
        invariant first < i <= |lines| && FenceEnd(lines, fence, first + 1) == FenceEnd(lines, fence, i)
      {
        if Fences(lines[i], fence) {
          return i + 1;
        }
        i := i + 1;
      }
    } else if TableStart(m, lines, first) {
      i := i + 2;
      while i < |lines|
        invariant first < i <= |lines| && TableEnd(lines, first + 2) == TableEnd(lines, i)
      {
        var s := WithoutNewline(lines[i]);
        if Strip(Blank, s) == "" {
          break;
        }
        if '|' !in s {
          break;
        }
        i := i + 1;
      }
    } else {
      i := i + 1;
      while i < |lines|
        invariant first < i <= |lines| && ParagraphEnd(m, lines, first + 1) == ParagraphEnd(m, lines, i)
      {
        if BlankLine(lines[i]) || HeadingAt(m, lines[i]).Some? || m.fence(lines[i]).Some? || TableStart(m, lines, i) {
          break;
        }
        i := i + 1;
      }
    }
  }

  method PopHeadings(path: seq<Heading>, level: int) returns (r: seq<Heading>)
    ensures r == PopTo(path, level)
  {
    r := path;
    while r != [] && r[|r| - 1].level >= level
      invariant PopTo(r, level) == PopTo(path, level)
      decreases |r|
    {
      r := r[..|r| - 1];
    }
  }

  // One line of the parse, read off the function.
  lemma ParseHeading(m: Matchers, lines: seq<string>, i: nat, path: seq<Heading>, blocks: seq<SectionBlock>, sections: seq<Section>)
    requires i < |lines| && HeadingAt(m, lines[i]).Some?
    ensures var h := HeadingAt(m, lines[i]).value;
            sections + Parse(m, lines, i, path, blocks)
            == (sections + Flushed(path, blocks)) + Parse(m, lines, i + 1, PopTo(path, h.level) + [h], [])
  {
    var h := HeadingAt(m, lines[i]).value;
    var rest := Parse(m, lines, i + 1, PopTo(path, h.level) + [h], []);
    assert Parse(m, lines, i, path, blocks) == Flushed(path, blocks) + rest;
    Associates(sections, Flushed(path, blocks), rest);
  }

  lemma ParseBlock(m: Matchers, lines: seq<string>, i: nat, path: seq<Heading>, blocks: seq<SectionBlock>)
    requires i < |lines| && !Outside(m, lines[i])
    ensures var j := BlockEnd(m, lines, i);
            var raw := Strip(Blank, Concat(lines[i..j]));
            && raw != ""
            && Parse(m, lines, i, path, blocks)
               == Parse(m, lines, j, path, blocks + [SectionBlock(raw, Offset(lines, i), Offset(lines, j))])
  {
    BlockTight(lines, Span(i, BlockEnd(m, lines, i)));
  }

  method FlushSection(sections: seq<Section>, path: seq<Heading>, blocks: seq<SectionBlock>) returns (r: seq<Section>)
    ensures r == sections + Flushed(path, blocks)
  {
    r := sections;
    if blocks != [] {
      r := r + [Section(path, blocks)];
    }
  }

  // The outer loop.
  method ParseLines(m: Matchers, lines: seq<string>) returns (sections: seq<Section>)
    ensures sections == Parse(m, lines, 0, [], [])
  {
    var offsets := LineOffsets(lines);
    sections := [];
    var path: seq<Heading> := [];
    var blocks: seq<SectionBlock> := [];
    var i := 0;
    while i < |lines|
      invariant i <= |lines| && sections + Parse(m, lines, i, path, blocks) == Parse(m, lines, 0, [], [])
    {
      var h := HeadingAt(m, lines[i]);
      if h.Some? {
        ParseHeading(m, lines, i, path, blocks, sections);
        sections := FlushSection(sections, path, blocks);
        path := PopHeadings(path, h.value.level);
        path, blocks := path + [h.value], [];
        i := i + 1;
        continue;
      }
      if BlankLine(lines[i]) {
        i := i + 1;
        continue;
      }
      var first := i;
      ParseBlock(m, lines, first, path, blocks);
      i := ScanBlock(m, lines, first);
      var raw := Strip(Blank, Concat(lines[first..i]));
      if raw != "" {
        blocks := blocks + [SectionBlock(raw, offsets[first], offsets[i])];
      }
    }
    sections := FlushSection(sections, path, blocks);
  }

  // parse_markdown_sections: all blocks in order, each under the headings in force.
  method ParseMarkdownSections(m: Matchers, text: string) returns (sections: seq<Section>)
    ensures sections == Parse(m, SplitLines(text, 0), 0, [], [])
    ensures BlocksOf(sections) == BlocksAt(m, SplitLines(text, 0), 0) && OrderedBlocks(text, BlocksOf(sections))
    ensures PathsOf(sections) == PathsAt(m, SplitLines(text, 0), 0, [])
    ensures forall s :: s in sections ==> s.blocks != []
  {
    sections := ParseLines(m, SplitLines(text, 0));
    ParseKeepsBlocks(m, SplitLines(text, 0), 0, [], []);
    ParseKeepsPaths(m, SplitLines(text, 0), 0, [], []);
    BlocksOrdered(m, text);
  }
}
