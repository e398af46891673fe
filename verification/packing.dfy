/** Packing the blocks of a section into chunks: greedily, and with no more chunks than needed. */
module Packing {
  import opened Wrappers
  import opened Texts
  import opened Seqs
  import opened Sections
  import opened Greedy

  datatype Chunk = Chunk(text: string, startChar: int, endChar: int)

  const GAP: string := "\n\n"

  // -- what a chunk holds -----------------------------------------------------------------

  function HashMarks(level: int): string {
    if level <= 0 then "" else "#" + HashMarks(level - 1)
  }

  function HeadingLines(path: seq<Heading>): seq<string> {
    if path == [] then []
    else (if path[0].title != "" then [HashMarks(path[0].level) + " " + path[0].title] else []) + HeadingLines(path[1..])
  }

  function Join(gap: string, parts: seq<string>): string {
    if parts == [] then "" else if |parts| == 1 then parts[0] else Join(gap, parts[..|parts| - 1]) + gap + parts[|parts| - 1]
  }

  function HeadingPrefix(path: seq<Heading>): string {
    Strip(Blank, Join("\n", HeadingLines(path)))
  }

  function TextsOf(blocks: seq<SectionBlock>): seq<string> {
    if blocks == [] then [] else TextsOf(blocks[..|blocks| - 1]) + [blocks[|blocks| - 1].text]
  }

  function Body(blocks: seq<SectionBlock>): string {
    Join(GAP, TextsOf(blocks))
  }

  // The chunk's text: the heading path, a gap, the blocks.
  function Full(prefix: string, body: string): string {
    if prefix != "" then Strip(Blank, prefix + GAP + body) else body
  }

  function Size(prefix: string, blocks: seq<SectionBlock>): nat {
    |Full(prefix, Body(blocks))|
  }

  function ChunkOf(prefix: string, group: seq<SectionBlock>): Chunk {
    Chunk(Full(prefix, Body(group)), if group == [] then -1 else group[0].startChar, if group == [] then -1 else group[|group| - 1].endChar)
  }

  type Group = seq<SectionBlock>

  // A group whose chunk would be over the limit.
  predicate Big(prefix: string, soft: int, g: Group) {
    Size(prefix, g) > soft
  }

  function Groups(prefix: string, soft: int, blocks: seq<SectionBlock>): seq<Group> {
    Packed(g => Big(prefix, soft, g), blocks)
  }

  // -- sizes ------------------------------------------------------------------------------

  predicate TightBlock(b: SectionBlock) {
    Tight(Blank, b.text)
  }

  lemma BodyNext(g: Group, b: SectionBlock)
    requires g != []
    ensures Body(g + [b]) == Body(g) + GAP + b.text
  {
    assert (g + [b])[..|g|] == g;
    assert TextsOf(g + [b])[..|TextsOf(g)|] == TextsOf(g);
    TextsSize(g);
  }

  lemma {:induction false} TextsSize(g: Group)
    ensures |TextsOf(g)| == |g|
    ensures forall i :: 0 <= i < |g| ==> TextsOf(g)[i] == g[i].text
  {
    if g != [] {
      TextsSize(g[..|g| - 1]);
    }
  }

  lemma {:induction false} BodyTight(g: Group)
    requires g != [] && All(TightBlock, g)
    ensures Tight(Blank, Body(g))
  {
    TextsSize(g);
    var init, last := g[..|g| - 1], g[|g| - 1];
    assert g == init + [last];
    if init != [] {
      BodyTight(init);
      BodyNext(init, last);
    }
  }

  // With tight texts stripping changes nothing: sizes add up.
  lemma SizeIs(prefix: string, g: Group)
    requires (prefix != "" ==> Tight(Blank, prefix)) && g != [] && All(TightBlock, g)
    ensures Size(prefix, g) == |Body(g)| + if prefix != "" then |prefix| + 2 else 0
  {
    BodyTight(g);
    if prefix != "" {
      TightStays(Blank, prefix + GAP + Body(g));
    }
  }

  lemma {:induction false} BodyFirst(b: SectionBlock, g: Group)
    requires g != []
    ensures |Body([b] + g)| == |b.text| + 2 + |Body(g)|
  {
    var init, last := g[..|g| - 1], g[|g| - 1];
    assert [b] + g == ([b] + init) + [last];
    BodyNext([b] + init, last);
    if init != [] {
      BodyFirst(b, init);
      assert g == init + [last];
      BodyNext(init, last);
    } else {
      assert g == [last] && [b] + init == [b];
      assert TextsOf([b]) == [b.text] && TextsOf([last]) == [last.text];
    }
  }

  // A chunk that is too big stays so when it takes in another block at either end.
  lemma BigMonotone(prefix: string, soft: int)
    requires prefix != "" ==> Tight(Blank, prefix)
    ensures Monotone((g: Group) => Big(prefix, soft, g), TightBlock)
  {
    forall g: Group, b | All(TightBlock, g) && TightBlock(b) && Big(prefix, soft, g)
      ensures Big(prefix, soft, g + [b]) && Big(prefix, soft, [b] + g)
    {
      BiggerStaysBig(prefix, soft, g, b);
    }
  }

  lemma BiggerStaysBig(prefix: string, soft: int, g: Group, b: SectionBlock)
    requires prefix != "" ==> Tight(Blank, prefix)
    requires All(TightBlock, g) && TightBlock(b) && Big(prefix, soft, g)
    ensures Big(prefix, soft, g + [b]) && Big(prefix, soft, [b] + g)
  {
    if g == [] {
      assert g + [b] == [b] && [b] + g == [b];
      SizeOfNone(prefix);
      SizeIs(prefix, [b]);
    } else {
      SizeIs(prefix, g);
      SizeIs(prefix, g + [b]);
      SizeIs(prefix, [b] + g);
      BodyNext(g, b);
      BodyFirst(b, g);
    }
  }

  lemma SizeOfNone(prefix: string)
    requires prefix != "" ==> Tight(Blank, prefix)
    ensures Size(prefix, []) <= |prefix| + 2
  {
    StripShorter(Blank, prefix + GAP);
    assert prefix + GAP + "" == prefix + GAP;
  }

  // -- the program ------------------------------------------------------------------------

  function ChunksOf(prefix: string, groups: seq<Group>): (chunks: seq<Chunk>) {
    if groups == [] then [] else ChunksOf(prefix, groups[..|groups| - 1]) + [ChunkOf(prefix, groups[|groups| - 1])]
  }

  function SectionChunks(soft: int, sec: Section): seq<Chunk> {
    ChunksOf(HeadingPrefix(sec.headingPath), Groups(HeadingPrefix(sec.headingPath), soft, sec.blocks))
  }

  function AllChunks(soft: int, sections: seq<Section>): seq<Chunk> {
    if sections == [] then [] else SectionChunks(soft, sections[0]) + AllChunks(soft, sections[1..])
  }

  // The heading prefix is tight or empty, as the size argument needs it.
  lemma PrefixTight(path: seq<Heading>)
    ensures HeadingPrefix(path) != "" ==> Tight(Blank, HeadingPrefix(path))
  {
    StripIs(Blank, Join("\n", HeadingLines(path)));
  }

  // The open chunk: its text, and where it starts and ends.
  ghost predicate Open(cur: Group, text: string, start: int, end: int) {
    cur != [] && text == Body(cur) && start == cur[0].startChar && end == cur[|cur| - 1].endChar
  }

  lemma OpenOne(b: SectionBlock)
    ensures Open([b], b.text, b.startChar, b.endChar)
  {
    assert TextsOf([b]) == [b.text];
  }

  lemma OpenMore(cur: Group, text: string, start: int, end: int, b: SectionBlock)
    requires Open(cur, text, start, end)
    ensures Open(cur + [b], text + GAP + b.text, start, b.endChar)
  {
    BodyNext(cur, b);
  }

  // The open chunk goes out.
  lemma ChunkOut(prefix: string, groups: seq<Group>, cur: Group, text: string, start: int, end: int)
    requires Open(cur, text, start, end)
    ensures ChunksOf(prefix, groups + [cur]) == ChunksOf(prefix, groups) + [Chunk(Full(prefix, text), start, end)]
  {
    assert (groups + [cur])[..|groups|] == groups;
  }

  lemma {:induction false} ChunkCount(prefix: string, groups: seq<Group>)
    ensures |ChunksOf(prefix, groups)| == |groups|
    ensures forall i :: 0 <= i < |groups| ==> ChunksOf(prefix, groups)[i] == ChunkOf(prefix, groups[i])
  {
    if groups != [] {
      ChunkCount(prefix, groups[..|groups| - 1]);
    }
  }

  // What is out and what is open come from the groups of the greedy packing.
  ghost predicate SoFar(prefix: string, soft: int, blocks: seq<SectionBlock>, i: nat, groups: seq<Group>, cur: Group) {
    i <= |blocks| && groups + Pack(g => Big(prefix, soft, g), cur, blocks[i..]) == Groups(prefix, soft, blocks)
  }

  lemma NextBlock(prefix: string, soft: int, blocks: seq<SectionBlock>, i: nat, groups: seq<Group>, cur: Group)
    requires SoFar(prefix, soft, blocks, i, groups, cur) && i < |blocks|
    ensures if Big(prefix, soft, cur + [blocks[i]]) then SoFar(prefix, soft, blocks, i + 1, groups + [cur], [blocks[i]])
            else SoFar(prefix, soft, blocks, i + 1, groups, cur + [blocks[i]])
  {
    var big := (g: Group) => Big(prefix, soft, g);
    var rest := blocks[i..];
    assert rest[0] == blocks[i] && rest[1..] == blocks[i + 1..];
    if Big(prefix, soft, cur + [blocks[i]]) {
      Associates(groups, [cur], Pack(big, [blocks[i]], blocks[i + 1..]));
    }
  }

  lemma PackedAll(prefix: string, soft: int, blocks: seq<SectionBlock>, groups: seq<Group>, cur: Group)
    requires SoFar(prefix, soft, blocks, |blocks|, groups, cur)
    ensures groups + [cur] == Groups(prefix, soft, blocks)
  {
    assert blocks[|blocks|..] == [];
  }

  lemma PackStarts(prefix: string, soft: int, blocks: seq<SectionBlock>)
    requires blocks != []
    ensures SoFar(prefix, soft, blocks, 1, [], [blocks[0]])
  {
    var big := (g: Group) => Big(prefix, soft, g);
    assert [] + Pack(big, [blocks[0]], blocks[1..]) == Pack(big, [blocks[0]], blocks[1..]);
  }

  // The packing loop of one section that has blocks.
  method PackSection(prefix: string, soft: int, blocks: seq<SectionBlock>) returns (out: seq<Chunk>)
    requires All(TightBlock, blocks)
    ensures out == ChunksOf(prefix, Groups(prefix, soft, blocks))
  {
    out := [];
    if blocks == [] {
      return;
    }
    var curText := blocks[0].text;
    var curStart, curEnd := blocks[0].startChar, blocks[0].endChar;
    ghost var groups: seq<Group>, cur := [], [blocks[0]];
    OpenOne(blocks[0]);
    PackStarts(prefix, soft, blocks);
    for i := 1 to |blocks|
      invariant SoFar(prefix, soft, blocks, i, groups, cur) && out == ChunksOf(prefix, groups)
      invariant Open(cur, curText, curStart, curEnd)
    {
      var b := blocks[i];
      var candidate := curText + GAP + b.text;
      NextBlock(prefix, soft, blocks, i, groups, cur);
      OpenMore(cur, curText, curStart, curEnd, b);
      if |Full(prefix, candidate)| > soft {
        ChunkOut(prefix, groups, cur, curText, curStart, curEnd);
        out := out + [Chunk(Full(prefix, curText), curStart, curEnd)];
        groups, cur := groups + [cur], [b];
        OpenOne(b);
        curText, curStart, curEnd := b.text, b.startChar, b.endChar;
      } else {
        cur := cur + [b];
        curText, curEnd := candidate, b.endChar;
      }
    }
    ChunkOut(prefix, groups, cur, curText, curStart, curEnd);
    PackedAll(prefix, soft, blocks, groups, cur);
    out := out + [Chunk(Full(prefix, curText), curStart, curEnd)];
  }

  // markdown_structured_chunks: None is the refusal of a limit that is not positive.
  method MarkdownStructuredChunks(m: Matchers, text: string, soft: int) returns (chunks: Option<seq<Chunk>>)
    ensures chunks.None? <==> soft <= 0
    ensures chunks.Some? ==> chunks.value == AllChunks(soft, Parse(m, SplitLines(text, 0), 0, [], []))
  {
    if soft <= 0 {
      return None;
    }
    var sections := ParseMarkdownSections(m, text);
    SectionsTight(text, sections);
    var out: seq<Chunk> := [];
    for i := 0 to |sections|
      invariant out + AllChunks(soft, sections[i..]) == AllChunks(soft, sections)
    {
      var sec := sections[i];
      var part := PackSection(HeadingPrefix(sec.headingPath), soft, sec.blocks);
      assert sections[i..][1..] == sections[i + 1..];
      Associates(out, part, AllChunks(soft, sections[i + 1..]));
      out := out + part;
    }
    assert sections[|sections|..] == [];
    return Some(out);
  }

  lemma {:induction false} BlockInSections(sections: seq<Section>, i: nat, b: SectionBlock)
    requires i < |sections| && b in sections[i].blocks
    ensures b in BlocksOf(sections)
  {
    if i > 0 {
      BlockInSections(sections[1..], i - 1, b);
    }
  }

  lemma {:induction false} SectionsTight(text: string, sections: seq<Section>)
    requires OrderedBlocks(text, BlocksOf(sections))
    ensures forall i :: 0 <= i < |sections| ==> All(TightBlock, sections[i].blocks)
  {
    forall i, j | 0 <= i < |sections| && 0 <= j < |sections[i].blocks|
      ensures TightBlock(sections[i].blocks[j])
    {
      BlockInSections(sections, i, sections[i].blocks[j]);
      var k :| 0 <= k < |BlocksOf(sections)| && BlocksOf(sections)[k] == sections[i].blocks[j];
    }
  }

  /** For every section of a parsed document: its chunks are its blocks, each in exactly one chunk
      and in order, every chunk of several blocks within the limit, and in the least number of
      chunks by which that can be done. */
  lemma SectionChunksOptimal(m: Matchers, text: string, soft: int, sec: Section, groups: seq<Group>)
    requires sec in Parse(m, SplitLines(text, 0), 0, [], [])
    requires Grouping((g: Group) => Big(HeadingPrefix(sec.headingPath), soft, g), sec.blocks, groups)
    ensures |SectionChunks(soft, sec)| <= |groups|
    ensures Grouping((g: Group) => Big(HeadingPrefix(sec.headingPath), soft, g), sec.blocks,
                     Groups(HeadingPrefix(sec.headingPath), soft, sec.blocks))
  {
    var sections := Parse(m, SplitLines(text, 0), 0, [], []);
    var prefix := HeadingPrefix(sec.headingPath);
    var big := (g: Group) => Big(prefix, soft, g);
    ParseKeepsBlocks(m, SplitLines(text, 0), 0, [], []);
    BlocksOrdered(m, text);
    SectionsTight(text, sections);
    PrefixTight(sec.headingPath);
    BigMonotone(prefix, soft);
    GreedyIsOptimal(big, TightBlock, sec.blocks, groups);
    PackedIsGrouping(big, sec.blocks);
    ChunkCount(prefix, Groups(prefix, soft, sec.blocks));
  }

  // -- what a chunk reads -----------------------------------------------------------------

  lemma {:induction false} MarksAre(level: int)
    ensures |HashMarks(level)| == (if level > 0 then level else 0) && forall k :: 0 <= k < |HashMarks(level)| ==> HashMarks(level)[k] == '#'
  {
    if level > 0 {
      MarksAre(level - 1);
    }
  }

  // As many hash marks as the level says, a blank, the title.
  predicate IsHeadingLine(line: string, h: Heading) {
    var n := if h.level > 0 then h.level else 0;
    |line| == n + 1 + |h.title| && line[n] == ' ' && line[n + 1..] == h.title && forall k :: 0 <= k < n ==> line[k] == '#'
  }

  lemma OneHeadingLine(h: Heading)
    ensures |HeadingLines([h])| == if h.title != "" then 1 else 0
    ensures h.title != "" ==> IsHeadingLine(HeadingLines([h])[0], h)
  {
    MarksAre(h.level);
    assert [h][1..] == [];
  }

  /** The heading lines, from the last: what the headings before give, and a line for the last if it
      has a title. */
  lemma {:induction false} HeadingLinesAre(path: seq<Heading>, h: Heading)
    ensures HeadingLines(path + [h]) == HeadingLines(path) + HeadingLines([h])
    ensures |HeadingLines([h])| == (if h.title != "" then 1 else 0) && (h.title != "" ==> IsHeadingLine(HeadingLines([h])[0], h))
    decreases |path|
  {
    OneHeadingLine(h);
    if path == [] {
      assert path + [h] == [h];
    } else {
      var all, first := path + [h], HeadingLines([path[0]]);
      assert all[0] == path[0] && all[1..] == path[1..] + [h] && [path[0]][1..] == [];
      HeadingLinesAre(path[1..], h);
      Associates(first, HeadingLines(path[1..]), HeadingLines([h]));
    }
  }

  lemma JoinLast(gap: string, init: seq<string>, last: string)
    requires init != []
    ensures Join(gap, init + [last]) == Join(gap, init) + gap + last
  {
    assert (init + [last])[..|init|] == init;
  }

  /** Joined parts, from the front: the first, the gap, the others. */
  lemma {:induction false} JoinFirst(gap: string, first: string, rest: seq<string>)
    requires rest != []
    ensures Join(gap, [first] + rest) == first + gap + Join(gap, rest)
    decreases |rest|
  {
    var init, last := rest[..|rest| - 1], rest[|rest| - 1];
    assert rest == init + [last];
    assert [first] + rest == ([first] + init) + [last];
    JoinLast(gap, [first] + init, last);
    if init == [] {
      assert [first] + init == [first] && rest == [last];
    } else {
      JoinFirst(gap, first, init);
      JoinLast(gap, init, last);
      Regrouped(first + gap, Join(gap, init), gap, last);
    }
  }

  lemma Regrouped(a: string, b: string, c: string, d: string)
    ensures ((a + b) + c) + d == a + ((b + c) + d)
  {
  }

  lemma FullIs(prefix: string, g: Group)
    requires (prefix != "" ==> Tight(Blank, prefix)) && g != [] && All(TightBlock, g)
    ensures Full(prefix, Body(g)) == if prefix != "" then prefix + "\n\n" + Body(g) else Body(g)
  {
    BodyTight(g);
    if prefix != "" {
      TightStays(Blank, prefix + GAP + Body(g));
    }
  }

  lemma {:induction false} GroupsTight(groups: seq<Group>, i: nat)
    requires i < |groups| && All(TightBlock, Flatten(groups))
    ensures All(TightBlock, groups[i])
  {
    assert Flatten(groups) == groups[0] + Flatten(groups[1..]);
    if i > 0 {
      assert forall k :: 0 <= k < |Flatten(groups[1..])| ==> Flatten(groups)[|groups[0]| + k] == Flatten(groups[1..])[k];
      GroupsTight(groups[1..], i - 1);
    } else {
      assert forall k :: 0 <= k < |groups[0]| ==> Flatten(groups)[k] == groups[0][k];
    }
  }

  // The chunk of some blocks: the headings over them, an empty line, their texts with empty lines
  // between, from where the first begins to where the last ends.
  predicate Reads(c: Chunk, prefix: string, g: Group) {
    && g != [] && c.startChar == g[0].startChar && c.endChar == g[|g| - 1].endChar
    && c.text == if prefix != "" then prefix + "\n\n" + Join("\n\n", TextsOf(g)) else Join("\n\n", TextsOf(g))
  }

  /** Every chunk of a section of a parsed document reads as its group of blocks. */
  lemma ChunksRead(m: Matchers, text: string, soft: int, sec: Section, i: nat)
    requires sec in Parse(m, SplitLines(text, 0), 0, [], []) && i < |SectionChunks(soft, sec)|
    ensures var groups := Groups(HeadingPrefix(sec.headingPath), soft, sec.blocks);
            && |groups| == |SectionChunks(soft, sec)| && Reads(SectionChunks(soft, sec)[i], HeadingPrefix(sec.headingPath), groups[i])
            && (|groups[i]| > 1 ==> |SectionChunks(soft, sec)[i].text| <= soft)
  {
    var sections, prefix := Parse(m, SplitLines(text, 0), 0, [], []), HeadingPrefix(sec.headingPath);
    var groups := Groups(prefix, soft, sec.blocks);
    ParseKeepsBlocks(m, SplitLines(text, 0), 0, [], []);
    BlocksOrdered(m, text);
    SectionsTight(text, sections);
    PrefixTight(sec.headingPath);
    PackedIsGrouping((g: Group) => Big(prefix, soft, g), sec.blocks);
    ChunkCount(prefix, groups);
    GroupsTight(groups, i);
    FullIs(prefix, groups[i]);
  }

  // What the chunk of some blocks would read has at most so many characters.
  predicate ReadsWithin(prefix: string, soft: int, g: Group) {
    |if prefix != "" then prefix + "\n\n" + Join("\n\n", TextsOf(g)) else Join("\n\n", TextsOf(g))| <= soft
  }

  /** However the blocks of a section are grouped, in order and with every group of several within the
      limit: the section has no more chunks than there are groups. */
  lemma FewestChunks(m: Matchers, text: string, soft: int, sec: Section, groups: seq<Group>)
    requires sec in Parse(m, SplitLines(text, 0), 0, [], []) && Flatten(groups) == sec.blocks
    requires forall i :: 0 <= i < |groups| ==> groups[i] != [] && (|groups[i]| > 1 ==> ReadsWithin(HeadingPrefix(sec.headingPath), soft, groups[i]))
    ensures |SectionChunks(soft, sec)| <= |groups|
  {
    var prefix := HeadingPrefix(sec.headingPath);
    var big := (g: Group) => Big(prefix, soft, g);
    ParseKeepsBlocks(m, SplitLines(text, 0), 0, [], []);
    BlocksOrdered(m, text);
    SectionsTight(text, Parse(m, SplitLines(text, 0), 0, [], []));
    PrefixTight(sec.headingPath);
    forall i | 0 <= i < |groups|
      ensures Fits(big, groups[i])
    {
      GroupsTight(groups, i);
      FullIs(prefix, groups[i]);
    }
    SectionChunksOptimal(m, text, soft, sec, groups);
  }

  /** The chunks of a document are those of its sections, in order. */
  lemma {:induction false} AllChunksAppend(soft: int, sections: seq<Section>, last: Section)
    ensures AllChunks(soft, sections + [last]) == AllChunks(soft, sections) + SectionChunks(soft, last)
  {
    var all := sections + [last];
    if sections == [] {
      assert all == [last] && all[1..] == [];
    } else {
      assert all[0] == sections[0] && all[1..] == sections[1..] + [last];
      AllChunksAppend(soft, sections[1..], last);
      Associates(SectionChunks(soft, sections[0]), AllChunks(soft, sections[1..]), SectionChunks(soft, last));
    }
  }
}
