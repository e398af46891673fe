/** What a parsed document looks like, told by its lines alone: fences, tables and paragraphs are cut
    where they end, every other line is a heading or blank, and there is no other such cutting. */
module SectionCuts {
  import opened Wrappers
  import opened Texts
  import opened Sections
  import opened Seqs

  // -- lines ------------------------------------------------------------------------------

  // No line end inside a line, but for a carriage return before its newline; and one at its end.
  predicate IsLine(line: string, last: bool) {
    && line != "" && (LineEnd(line[|line| - 1]) || last)
    && forall k :: 0 <= k < |line| - 1 && LineEnd(line[k]) ==> line[k] == '\r' && k == |line| - 2 && line[k + 1] == '\n'
  }

  lemma {:induction false} LineStopIs(text: string, i: nat)
    requires i < |text|
    ensures IsLine(text[i..LineStop(text, i)], LineStop(text, i) == |text|)
    ensures LineStop(text, i) < |text| && text[LineStop(text, i)] == '\n' ==> text[LineStop(text, i) - 1] != '\r'
    decreases |text| - i
  {
    var j := LineStop(text, i);
    if !(text[i] == '\r' && i + 1 < |text| && text[i + 1] == '\n') && !LineEnd(text[i]) && i + 1 != |text| {
      LineStopIs(text, i + 1);
      assert text[i..j] == [text[i]] + text[i + 1..j];
      forall k | 0 <= k < |text[i..j]| - 1 && LineEnd(text[i..j][k])
        ensures text[i..j][k] == '\r' && k == |text[i..j]| - 2 && text[i..j][k + 1] == '\n'
      {
        assert k > 0 && text[i + 1..j][k - 1] == text[i..j][k];
      }
    }
  }

  predicate AreLines(lines: seq<string>) {
    && (forall k :: 0 <= k < |lines| ==> IsLine(lines[k], k == |lines| - 1))
    && forall k :: 0 <= k < |lines| - 1 ==> !(lines[k][|lines[k]| - 1] == '\r' && lines[k + 1][0] == '\n')
  }

  /** The lines of a text: each ends at a line end, the last perhaps at the end of the text, there is
      no other line end in it, and no carriage return is parted from its newline. */
  lemma {:induction false} LinesAreLines(text: string, i: nat)
    requires i <= |text|
    ensures AreLines(SplitLines(text, i))
    decreases |text| - i
  {
    if i < |text| {
      var j := LineStop(text, i);
      LineStopIs(text, i);
      LinesAreLines(text, j);
      var rest := SplitLines(text, j);
      assert SplitLines(text, i) == [text[i..j]] + rest;
      if j < |text| {
        assert rest != [] && rest[0][0] == text[j];
      } else {
        assert rest == [];
      }
    }
  }

  // -- blocks -----------------------------------------------------------------------------

  // The line has a bar and is not blank.
  predicate BarLine(line: string) {
    var s := WithoutNewline(line);
    '|' in s && exists k :: 0 <= k < |s| && !Blank(s[k])
  }

  // A line with a bar, and a separator below it.
  predicate OpensTable(m: Matchers, lines: seq<string>, i: nat)
    requires i < |lines|
  {
    '|' in WithoutNewline(lines[i]) && i + 1 < |lines| && m.separator(WithoutNewline(lines[i + 1]))
  }

  predicate OnlyBlanks(line: string) {
    forall k :: 0 <= k < |line| ==> Blank(line[k])
  }

  predicate OpensOther(m: Matchers, lines: seq<string>, i: nat)
    requires i < |lines|
  {
    OnlyBlanks(lines[i]) || m.heading(WithoutNewline(lines[i])).Some? || m.fence(lines[i]).Some? || OpensTable(m, lines, i)
  }

  // From an opening fence to the next line that begins with it, or to the end.
  predicate FenceBlock(lines: seq<string>, fence: string, s: Span)
    requires s.first < s.next <= |lines|
  {
    && (forall k :: s.first < k < s.next - 1 ==> !(fence <= StripLeft(Blank, lines[k])))
    && (s.next < |lines| ==> s.first < s.next - 1)
    && (s.next < |lines| ==> fence <= StripLeft(Blank, lines[s.next - 1]))
  }

  // A header, its separator, and the lines with a bar below them, to the last.
  predicate TableBlock(lines: seq<string>, s: Span)
    requires s.first < s.next <= |lines|
  {
    && s.first + 2 <= s.next && (forall k :: s.first + 2 <= k < s.next ==> BarLine(lines[k]))
    && (s.next < |lines| ==> !BarLine(lines[s.next]))
  }

  // Up to the next line that opens something else, or is blank.
  predicate ParagraphBlock(m: Matchers, lines: seq<string>, s: Span)
    requires s.first < s.next <= |lines|
  {
    && (forall k :: s.first < k < s.next ==> !OpensOther(m, lines, k))
    && (s.next < |lines| ==> OpensOther(m, lines, s.next))
  }

  predicate IsBlock(m: Matchers, lines: seq<string>, s: Span) {
    && s.first < s.next <= |lines| && !OnlyBlanks(lines[s.first]) && m.heading(WithoutNewline(lines[s.first])).None?
    && match m.fence(lines[s.first])
       case Some(fence) => FenceBlock(lines, fence, s)
       case None => if OpensTable(m, lines, s.first) then TableBlock(lines, s) else ParagraphBlock(m, lines, s)
  }

  // -- the cutting ------------------------------------------------------------------------

  predicate InSome(spans: seq<Span>, k: nat) {
    exists a :: 0 <= a < |spans| && Within(spans[a], k)
  }

  // In order, from line i on.
  predicate InOrder(lines: seq<string>, i: nat, spans: seq<Span>) {
    && (spans == [] || i < |lines|)
    && (forall a :: 0 <= a < |spans| ==> i <= spans[a].first < spans[a].next <= |lines|)
    && forall a, b :: 0 <= a < b < |spans| ==> spans[a].next <= spans[b].first
  }

  predicate AllBlocks(m: Matchers, lines: seq<string>, spans: seq<Span>) {
    forall s {:trigger IsBlock(m, lines, s)} :: s in spans ==> IsBlock(m, lines, s)
  }

  predicate NoText(m: Matchers, line: string) {
    OnlyBlanks(line) || m.heading(WithoutNewline(line)).Some?
  }

  // What is in no block is a heading or blank.
  ghost predicate Covers(m: Matchers, lines: seq<string>, i: nat, spans: seq<Span>) {
    forall k: nat {:trigger InSome(spans, k)} :: i <= k < |lines| && !InSome(spans, k) ==> NoText(m, lines[k])
  }

  // The lines from i on, cut into blocks.
  ghost predicate IsCut(m: Matchers, lines: seq<string>, i: nat, spans: seq<Span>) {
    InOrder(lines, i, spans) && AllBlocks(m, lines, spans) && Covers(m, lines, i, spans)
  }

  lemma BlankIs(line: string)
    ensures BlankLine(line) <==> OnlyBlanks(line)
  {
    StripIs(Blank, line);
  }

  lemma RowIs(line: string)
    ensures TableRow(line) <==> BarLine(line)
  {
    StripIs(Blank, WithoutNewline(line));
  }

  lemma BreaksIs(m: Matchers, lines: seq<string>, i: nat)
    requires i < |lines|
    ensures Breaks(m, lines, i) <==> OpensOther(m, lines, i)
  {
    BlankIs(lines[i]);
  }

  lemma EndIsBlock(m: Matchers, lines: seq<string>, i: nat)
    requires i < |lines| && !Outside(m, lines[i])
    ensures IsBlock(m, lines, Span(i, BlockEnd(m, lines, i)))
  {
    BlankIs(lines[i]);
    var j := BlockEnd(m, lines, i);
    if m.fence(lines[i]).None? {
      if TableStart(m, lines, i) {
        forall k | i + 2 <= k <= j && k < |lines|
          ensures TableRow(lines[k]) <==> BarLine(lines[k])
        {
          RowIs(lines[k]);
        }
      } else {
        forall k | i < k <= j && k < |lines|
          ensures Breaks(m, lines, k) <==> OpensOther(m, lines, k)
        {
          BreaksIs(m, lines, k);
        }
      }
    }
  }

  // Two blocks that begin at the same line end at the same line.
  lemma OneEnd(m: Matchers, lines: seq<string>, a: Span, b: Span)
    requires IsBlock(m, lines, a) && IsBlock(m, lines, b) && a.first == b.first
    ensures a.next >= b.next
  {
    assert a.next < |lines| ==> lines[a.next] == lines[a.next];
  }

  // A heading or blank line in front of a cut.
  lemma CutSkips(m: Matchers, lines: seq<string>, i: nat, spans: seq<Span>)
    requires i < |lines| && NoText(m, lines[i]) && IsCut(m, lines, i + 1, spans)
    ensures IsCut(m, lines, i, spans)
  {
  }

  lemma InMore(s: Span, rest: seq<Span>, k: nat)
    ensures InSome([s] + rest, k) <==> Within(s, k) || InSome(rest, k)
  {
    var spans := [s] + rest;
    assert spans[0] == s;
    if InSome(rest, k) {
      var a :| 0 <= a < |rest| && Within(rest[a], k);
      assert Within(spans[a + 1], k);
    }
  }

  // A block in front of a cut.
  lemma CutTakes(m: Matchers, lines: seq<string>, s: Span, rest: seq<Span>)
    requires s.first < s.next <= |lines| && IsBlock(m, lines, s) && IsCut(m, lines, s.next, rest)
    ensures IsCut(m, lines, s.first, [s] + rest)
  {
    TakesInOrder(lines, s, rest);
    CoversMore(m, lines, s, rest);
    assert AllBlocks(m, lines, [s] + rest);
  }

  lemma TakesInOrder(lines: seq<string>, s: Span, rest: seq<Span>)
    requires s.first < s.next <= |lines| && InOrder(lines, s.next, rest)
    ensures InOrder(lines, s.first, [s] + rest)
  {
  }

  lemma CoversMore(m: Matchers, lines: seq<string>, s: Span, rest: seq<Span>)
    requires s.first < s.next
    ensures Covers(m, lines, s.first, [s] + rest) <== Covers(m, lines, s.next, rest)
    ensures Covers(m, lines, s.first, [s] + rest) && InOrder(lines, s.next, rest) ==> Covers(m, lines, s.next, rest)
  {
    forall k: nat
      ensures InSome([s] + rest, k) <==> Within(s, k) || InSome(rest, k)
    {
      InMore(s, rest, k);
    }
  }

  lemma {:induction false} SpansAreCut(m: Matchers, lines: seq<string>, i: nat)
    requires i <= |lines|
    ensures IsCut(m, lines, i, Spans(m, lines, i))
    decreases |lines| - i
  {
    if i < |lines| {
      BlankIs(lines[i]);
      if Outside(m, lines[i]) {
        SpansAreCut(m, lines, i + 1);
        CutSkips(m, lines, i, Spans(m, lines, i + 1));
      } else {
        EndIsBlock(m, lines, i);
        SpansAreCut(m, lines, BlockEnd(m, lines, i));
        CutTakes(m, lines, Span(i, BlockEnd(m, lines, i)), Spans(m, lines, BlockEnd(m, lines, i)));
      }
    }
  }

  // Where a cut begins at a line with text, its first block begins there.
  lemma CutStarts(m: Matchers, lines: seq<string>, i: nat, spans: seq<Span>)
    requires i < |lines| && !NoText(m, lines[i]) && InOrder(lines, i, spans) && Covers(m, lines, i, spans)
    ensures spans != [] && spans[0].first == i
  {
    assert InSome(spans, i);
    var a :| 0 <= a < |spans| && Within(spans[a], i);
    assert spans[0].first >= i;
  }

  lemma CutOpens(m: Matchers, lines: seq<string>, i: nat, spans: seq<Span>)
    requires i < |lines| && !Outside(m, lines[i]) && IsCut(m, lines, i, spans)
    ensures spans != [] && spans[0] == Span(i, BlockEnd(m, lines, i))
  {
    var s := Span(i, BlockEnd(m, lines, i));
    BlankIs(lines[i]);
    CutStarts(m, lines, i, spans);
    EndIsBlock(m, lines, i);
    assert IsBlock(m, lines, spans[0]);
    OneEnd(m, lines, spans[0], s);
    OneEnd(m, lines, s, spans[0]);
  }

  // Behind its first block a cut is a cut.
  lemma CutRests(m: Matchers, lines: seq<string>, s: Span, rest: seq<Span>)
    requires IsCut(m, lines, s.first, [s] + rest)
    ensures IsCut(m, lines, s.next, rest)
  {
    var spans := [s] + rest;
    assert spans[0] == s && spans[1..] == rest;
    assert forall a :: 0 <= a < |rest| ==> spans[a + 1] == rest[a];
    if rest != [] {
      assert s.next <= rest[0].first;
    }
    CoversMore(m, lines, s, rest);
  }

  // No block begins at a heading or a blank line.
  lemma CutPasses(m: Matchers, lines: seq<string>, i: nat, spans: seq<Span>)
    requires i < |lines| && NoText(m, lines[i]) && IsCut(m, lines, i, spans)
    ensures IsCut(m, lines, i + 1, spans)
  {
    forall a | 0 <= a < |spans|
      ensures i + 1 <= spans[a].first
    {
      assert IsBlock(m, lines, spans[a]);
    }
    if spans != [] {
      assert i + 1 <= spans[0].first;
    }
  }

  /** There is one cutting of the lines, and the parser finds it. */
  lemma {:induction false} CutIsUnique(m: Matchers, lines: seq<string>, i: nat, spans: seq<Span>)
    requires i <= |lines|
    ensures IsCut(m, lines, i, spans) <==> spans == Spans(m, lines, i)
    decreases |lines| - i
  {
    SpansAreCut(m, lines, i);
    if IsCut(m, lines, i, spans) {
      if i == |lines| {
        assert spans == [];
      } else if Outside(m, lines[i]) {
        BlankIs(lines[i]);
        CutPasses(m, lines, i, spans);
        CutIsUnique(m, lines, i + 1, spans);
      } else {
        CutOpens(m, lines, i, spans);
        assert spans == [spans[0]] + spans[1..];
        CutRests(m, lines, spans[0], spans[1..]);
        CutIsUnique(m, lines, spans[0].next, spans[1..]);
      }
    }
  }

  // -- the document -----------------------------------------------------------------------

  // The headings among the first n lines that stand in no block.
  function HeadingsBefore(m: Matchers, lines: seq<string>, spans: seq<Span>, n: nat): seq<Heading>
    requires n <= |lines|
  {
    if n == 0 then []
    else
      var h := m.heading(WithoutNewline(lines[n - 1]));
      HeadingsBefore(m, lines, spans, n - 1) + if h.Some? && !InSome(spans, n - 1) then [h.value] else []
  }

  // Lines within a block add no heading.
  lemma {:induction false} NoneWithin(m: Matchers, lines: seq<string>, spans: seq<Span>, s: Span, n: nat)
    requires s in spans && s.first <= n <= s.next <= |lines|
    ensures HeadingsBefore(m, lines, spans, n) == HeadingsBefore(m, lines, spans, s.first)
    decreases n
  {
    if n > s.first {
      var a :| 0 <= a < |spans| && spans[a] == s;
      assert Within(spans[a], n - 1);
      NoneWithin(m, lines, spans, s, n - 1);
    }
  }

  // For each block from line i on, the headings before it, given those seen so far.
  function SeenAt(m: Matchers, lines: seq<string>, i: nat, seen: seq<Heading>): seq<seq<Heading>>
    requires i <= |lines|
    decreases |lines| - i
  {
    if i == |lines| then []
    else
      match HeadingAt(m, lines[i])
      case Some(h) => SeenAt(m, lines, i + 1, seen + [h])
      case None =>
        if BlankLine(lines[i]) then SeenAt(m, lines, i + 1, seen) else [seen] + SeenAt(m, lines, BlockEnd(m, lines, i), seen)
  }

  lemma {:induction false} PathsAreSeen(m: Matchers, lines: seq<string>, i: nat, seen: seq<Heading>)
    requires i <= |lines|
    ensures |PathsAt(m, lines, i, seen)| == |SeenAt(m, lines, i, seen)|
    ensures forall k :: 0 <= k < |SeenAt(m, lines, i, seen)| ==> PathsAt(m, lines, i, seen)[k] == InForce(SeenAt(m, lines, i, seen)[k])
    decreases |lines| - i
  {
    if i < |lines| {
      if HeadingAt(m, lines[i]).Some? {
        PathsAreSeen(m, lines, i + 1, seen + [HeadingAt(m, lines[i]).value]);
      } else {
        PathsAreSeen(m, lines, if BlankLine(lines[i]) then i + 1 else BlockEnd(m, lines, i), seen);
      }
    }
  }

  // The blocks from line i on stand under the headings before them.
  ghost predicate SeenFrom(m: Matchers, lines: seq<string>, i: nat, spans: seq<Span>, from: nat)
    requires i <= |lines| && from <= |spans| && forall s :: s in spans ==> s.first <= |lines|
  {
    && |SeenAt(m, lines, i, HeadingsBefore(m, lines, spans, i))| == |spans| - from
    && forall k :: from <= k < |spans| ==>
         SeenAt(m, lines, i, HeadingsBefore(m, lines, spans, i))[k - from] == HeadingsBefore(m, lines, spans, spans[k].first)
  }

  lemma {:induction false} SeenAreFrom(m: Matchers, lines: seq<string>, i: nat, spans: seq<Span>, from: nat)
    requires i <= |lines| && from <= |spans| && spans[from..] == Spans(m, lines, i)
    requires (forall s :: s in spans ==> s.first < s.next <= |lines|) && forall a :: 0 <= a < from ==> spans[a].next <= i
    ensures SeenFrom(m, lines, i, spans, from)
    decreases |lines| - i
  {
    if i < |lines| {
      if Outside(m, lines[i]) {
        OutsideNone(m, lines, i, spans, from);
        SeenAreFrom(m, lines, i + 1, spans, from);
        SeenSkip(m, lines, i, spans);
      } else {
        var j := BlockEnd(m, lines, i);
        assert spans[from..][0] == Span(i, j) == spans[from];
        assert spans[from + 1..] == spans[from..][1..] == Spans(m, lines, j);
        SeenAreFrom(m, lines, j, spans, from + 1);
        SeenTake(m, lines, i, spans, from);
      }
    }
  }

  lemma SeenSkip(m: Matchers, lines: seq<string>, i: nat, spans: seq<Span>)
    requires i < |lines| && Outside(m, lines[i]) && !InSome(spans, i)
    ensures SeenAt(m, lines, i, HeadingsBefore(m, lines, spans, i)) == SeenAt(m, lines, i + 1, HeadingsBefore(m, lines, spans, i + 1))
  {
    if HeadingAt(m, lines[i]).None? {
      assert HeadingsBefore(m, lines, spans, i + 1) == HeadingsBefore(m, lines, spans, i) + [] == HeadingsBefore(m, lines, spans, i);
    }
  }

  lemma SeenTake(m: Matchers, lines: seq<string>, i: nat, spans: seq<Span>, from: nat)
    requires i < |lines| && !Outside(m, lines[i]) && from < |spans| && spans[from] == Span(i, BlockEnd(m, lines, i))
    requires (forall s :: s in spans ==> s.first <= |lines|) && SeenFrom(m, lines, BlockEnd(m, lines, i), spans, from + 1)
    ensures SeenFrom(m, lines, i, spans, from)
  {
    var j := BlockEnd(m, lines, i);
    NoneWithin(m, lines, spans, spans[from], j);
    var seen := HeadingsBefore(m, lines, spans, i);
    var rest := SeenAt(m, lines, j, seen);
    assert SeenAt(m, lines, i, seen) == [seen] + rest;
    forall k | from < k < |spans|
      ensures SeenAt(m, lines, i, seen)[k - from] == HeadingsBefore(m, lines, spans, spans[k].first)
    {
      assert rest[k - (from + 1)] == HeadingsBefore(m, lines, spans, spans[k].first);
    }
  }

  lemma OutsideNone(m: Matchers, lines: seq<string>, i: nat, spans: seq<Span>, from: nat)
    requires i < |lines| && from <= |spans| && spans[from..] == Spans(m, lines, i) && Outside(m, lines[i])
    requires forall a :: 0 <= a < from ==> spans[a].next <= i
    ensures !InSome(spans, i)
  {
    SpansCover(m, lines, i + 1);
    forall a | 0 <= a < |spans|
      ensures !Within(spans[a], i)
    {
      if a >= from {
        assert spans[a] == spans[from..][a - from];
        assert spans[a] in Spans(m, lines, i + 1);
      }
    }
  }

  lemma BlocksAreCut(m: Matchers, lines: seq<string>)
    ensures BlocksOf(Parse(m, lines, 0, [], [])) == BlocksAt(m, lines, 0) && PathsOf(Parse(m, lines, 0, [], [])) == PathsAt(m, lines, 0, [])
  {
    ParseKeepsBlocks(m, lines, 0, [], []);
    ParseKeepsPaths(m, lines, 0, [], []);
  }

  // -- where sections part ----------------------------------------------------------------

  function Times(x: nat, n: nat): seq<nat> {
    seq(n, _ => x)
  }

  // For each block, the number of its section.
  function SectionOf(sections: seq<Section>, from: nat): seq<nat> {
    if sections == [] then [] else Times(from, |sections[0].blocks|) + SectionOf(sections[1..], from + 1)
  }

  lemma {:induction false} SectionsBeyond(sections: seq<Section>, from: nat)
    ensures forall x :: x in SectionOf(sections, from) ==> x >= from
  {
    if sections != [] {
      SectionsBeyond(sections[1..], from + 1);
    }
  }

  lemma {:induction false} SeenBeyond(m: Matchers, lines: seq<string>, i: nat, seen: seq<Heading>)
    requires i <= |lines|
    ensures forall x :: x in SeenAt(m, lines, i, seen) ==> |x| >= |seen|
    decreases |lines| - i
  {
    if i < |lines| {
      if HeadingAt(m, lines[i]).Some? {
        SeenBeyond(m, lines, i + 1, seen + [HeadingAt(m, lines[i]).value]);
      } else {
        SeenBeyond(m, lines, if BlankLine(lines[i]) then i + 1 else BlockEnd(m, lines, i), seen);
      }
    }
  }

  // Two neighbours are the same in both sequences, or in neither.
  predicate PartAlike<A(==), B(==)>(xs: seq<A>, ys: seq<B>) {
    |xs| == |ys| && forall k :: 0 < k < |xs| ==> (xs[k - 1] == xs[k] <==> ys[k - 1] == ys[k])
  }

  function AllSeen(seen: seq<Heading>, n: nat): seq<seq<Heading>> {
    seq(n, _ => seen)
  }

  // n blocks of the open section, and then those of other sections, under more headings.
  lemma PartsThere(n: nat, from: nat, seen: seq<Heading>, xs: seq<nat>, ys: seq<seq<Heading>>)
    requires PartAlike(xs, ys) && (forall x :: x in xs ==> x > from) && forall y :: y in ys ==> |y| > |seen|
    ensures PartAlike(Times(from, n) + xs, AllSeen(seen, n) + ys)
  {
    var all, seens := Times(from, n) + xs, AllSeen(seen, n) + ys;
    forall k | 0 < k < |all|
      ensures all[k - 1] == all[k] <==> seens[k - 1] == seens[k]
    {
      if k == n {
        assert all[k] == xs[0] && xs[0] in xs && seens[k] == ys[0] && ys[0] in ys;
      } else if k > n {
        assert all[k] == xs[k - n] && all[k - 1] == xs[k - n - 1] && seens[k] == ys[k - n] && seens[k - 1] == ys[k - n - 1];
      }
    }
  }

  ghost predicate SectionsPart(m: Matchers, lines: seq<string>, i: nat, path: seq<Heading>, seen: seq<Heading>, blocks: seq<SectionBlock>, from: nat)
    requires i <= |lines|
  {
    PartAlike(SectionOf(Parse(m, lines, i, path, blocks), from), AllSeen(seen, |blocks|) + SeenAt(m, lines, i, seen))
  }

  lemma FlushedSections(path: seq<Heading>, blocks: seq<SectionBlock>, rest: seq<Section>, from: nat)
    ensures SectionOf(Flushed(path, blocks) + rest, from) ==
            if blocks == [] then SectionOf(rest, from) else Times(from, |blocks|) + SectionOf(rest, from + 1)
  {
    if blocks == [] {
      assert Flushed(path, blocks) + rest == rest;
    } else {
      assert (Flushed(path, blocks) + rest)[1..] == rest;
    }
  }

  lemma PartEnd(m: Matchers, lines: seq<string>, path: seq<Heading>, seen: seq<Heading>, blocks: seq<SectionBlock>, from: nat)
    ensures SectionsPart(m, lines, |lines|, path, seen, blocks, from)
  {
    FlushedSections(path, blocks, [], from);
    assert Flushed(path, blocks) + [] == Flushed(path, blocks);
    PartsThere(|blocks|, from, seen, [], []);
  }

  lemma PartHeading(m: Matchers, lines: seq<string>, i: nat, path: seq<Heading>, seen: seq<Heading>, blocks: seq<SectionBlock>, from: nat)
    requires i < |lines| && HeadingAt(m, lines[i]).Some?
    requires var h := HeadingAt(m, lines[i]).value;
             SectionsPart(m, lines, i + 1, PopTo(path, h.level) + [h], seen + [h], [], if blocks == [] then from else from + 1)
    ensures SectionsPart(m, lines, i, path, seen, blocks, from)
  {
    var h := HeadingAt(m, lines[i]).value;
    var rest := Parse(m, lines, i + 1, PopTo(path, h.level) + [h], []);
    var ys := SeenAt(m, lines, i + 1, seen + [h]);
    FlushedSections(path, blocks, rest, from);
    SeenBeyond(m, lines, i + 1, seen + [h]);
    assert AllSeen(seen + [h], 0) + ys == ys && AllSeen(seen, 0) + ys == ys;
    if blocks != [] {
      SectionsBeyond(rest, from + 1);
      PartsThere(|blocks|, from, seen, SectionOf(rest, from + 1), ys);
    }
  }

  lemma PartBlock(m: Matchers, lines: seq<string>, i: nat, path: seq<Heading>, seen: seq<Heading>, blocks: seq<SectionBlock>, from: nat)
    requires i < |lines| && !Outside(m, lines[i])
    requires SectionsPart(m, lines, BlockEnd(m, lines, i), path, seen, blocks + [BlockOf(lines, Span(i, BlockEnd(m, lines, i)))], from)
    ensures SectionsPart(m, lines, i, path, seen, blocks, from)
  {
    var rest := SeenAt(m, lines, BlockEnd(m, lines, i), seen);
    assert AllSeen(seen, |blocks| + 1) + rest == AllSeen(seen, |blocks|) + ([seen] + rest);
  }

  /** Two blocks in a row are in the same section exactly if no heading stands between them. */
  lemma {:induction false} SectionsPartAtHeadings(m: Matchers, lines: seq<string>, i: nat, path: seq<Heading>, seen: seq<Heading>,
                                                  blocks: seq<SectionBlock>, from: nat)
    requires i <= |lines|
    ensures SectionsPart(m, lines, i, path, seen, blocks, from)
    decreases |lines| - i
  {
    if i == |lines| {
      PartEnd(m, lines, path, seen, blocks, from);
    } else if HeadingAt(m, lines[i]).Some? {
      var h := HeadingAt(m, lines[i]).value;
      SectionsPartAtHeadings(m, lines, i + 1, PopTo(path, h.level) + [h], seen + [h], [], if blocks == [] then from else from + 1);
      PartHeading(m, lines, i, path, seen, blocks, from);
    } else if BlankLine(lines[i]) {
      SectionsPartAtHeadings(m, lines, i + 1, path, seen, blocks, from);
    } else {
      SectionsPartAtHeadings(m, lines, BlockEnd(m, lines, i), path, seen, blocks + [BlockOf(lines, Span(i, BlockEnd(m, lines, i)))], from);
      PartBlock(m, lines, i, path, seen, blocks, from);
    }
  }

  // Block k of the document is what stands in span k, under the headings in force there.
  ghost predicate HoldsBlock(m: Matchers, lines: seq<string>, spans: seq<Span>, blocks: seq<SectionBlock>, paths: seq<seq<Heading>>, k: nat)
    requires |blocks| == |paths| == |spans| && k < |spans| && spans[k].first < spans[k].next <= |lines|
  {
    && blocks[k] == SectionBlock(Strip(Blank, Concat(lines[spans[k].first..spans[k].next])),
                                 |Concat(lines[..spans[k].first])|, |Concat(lines[..spans[k].next])|)
    && paths[k] == InForce(HeadingsBefore(m, lines, spans, spans[k].first))
  }

  lemma SeenIs(m: Matchers, lines: seq<string>, spans: seq<Span>)
    requires spans == Spans(m, lines, 0)
    ensures |SeenAt(m, lines, 0, [])| == |spans|
    ensures forall k :: 0 <= k < |spans| ==> spans[k].first < spans[k].next <= |lines|
    ensures forall k :: 0 <= k < |spans| ==> SeenAt(m, lines, 0, [])[k] == HeadingsBefore(m, lines, spans, spans[k].first)
  {
    SpansCover(m, lines, 0);
    assert spans[0..] == spans;
    SeenAreFrom(m, lines, 0, spans, 0);
    forall k | 0 <= k < |spans|
      ensures SeenAt(m, lines, 0, [])[k] == HeadingsBefore(m, lines, spans, spans[k].first)
    {
      assert SeenAt(m, lines, 0, [])[k] == SeenAt(m, lines, 0, [])[k - 0];
    }
  }

  lemma BlocksHold(m: Matchers, lines: seq<string>, spans: seq<Span>, blocks: seq<SectionBlock>, paths: seq<seq<Heading>>)
    requires spans == Spans(m, lines, 0) && blocks == BlocksAt(m, lines, 0) && paths == PathsAt(m, lines, 0, [])
    ensures |blocks| == |paths| == |spans|
    ensures forall k :: 0 <= k < |spans| ==> spans[k].first < spans[k].next <= |lines| && HoldsBlock(m, lines, spans, blocks, paths, k)
  {
    SeenIs(m, lines, spans);
    BlocksAreSpans(m, lines, 0);
    PathsAreSeen(m, lines, 0, []);
  }

  lemma NumbersPart(m: Matchers, lines: seq<string>, spans: seq<Span>, numbers: seq<nat>)
    requires spans == Spans(m, lines, 0) && numbers == SectionOf(Parse(m, lines, 0, [], []), 0)
    ensures |numbers| == |spans| && forall k :: 0 <= k < |spans| ==> spans[k].first < spans[k].next <= |lines|
    ensures forall k :: 0 < k < |spans| ==>
              (numbers[k - 1] == numbers[k] <==>
               HeadingsBefore(m, lines, spans, spans[k - 1].first) == HeadingsBefore(m, lines, spans, spans[k].first))
  {
    SeenIs(m, lines, spans);
    SectionsPartAtHeadings(m, lines, 0, [], [], [], 0);
    assert AllSeen([], 0) + SeenAt(m, lines, 0, []) == SeenAt(m, lines, 0, []);
  }

  /** The sections of a document hold one block for each block of its cutting, in order: the lines of
      the block, stripped, between their offsets, under exactly the headings in force there; and a
      section goes on to the next block exactly if no heading stands between. */
  lemma SectionsAreCut(m: Matchers, lines: seq<string>, spans: seq<Span>)
    requires IsCut(m, lines, 0, spans)
    ensures var sections := Parse(m, lines, 0, [], []);
            var blocks, paths, numbers := BlocksOf(sections), PathsOf(sections), SectionOf(sections, 0);
            && |blocks| == |paths| == |numbers| == |spans|
            && (forall k :: 0 <= k < |spans| ==> spans[k].first < spans[k].next <= |lines| && HoldsBlock(m, lines, spans, blocks, paths, k))
            && forall k :: 0 < k < |spans| ==>
                 (numbers[k - 1] == numbers[k] <==>
                  HeadingsBefore(m, lines, spans, spans[k - 1].first) == HeadingsBefore(m, lines, spans, spans[k].first))
  {
    CutIsUnique(m, lines, 0, spans);
    BlocksAreCut(m, lines);
    BlocksHold(m, lines, spans, BlocksAt(m, lines, 0), PathsAt(m, lines, 0, []));
    NumbersPart(m, lines, spans, SectionOf(Parse(m, lines, 0, [], []), 0));
  }
}
