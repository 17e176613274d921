/** Markdown into blocks: a line-by-line state machine, proved to compute the one
    way of cutting the lines into maximal runs. The regular expressions for fences,
    headings and list items are parameters. */
module Markdown {
  import opened Basics
  import opened Text
  import opened Structural

  datatype Syntax = Syntax(
    isFence: string -> bool,
    heading: string -> Option<(int, string)>,
    item: string -> Option<string>)

  datatype Kind = Fence | TableLine | HeadingLine | ItemLine | BlankLine | TextLine

  predicate IsTableLine(line: string) {
    var s := Strip(line);
    s != "" && s[0] == '|' && '|' in s[1..]
  }

  /** The first pattern that matches decides. */
  function KindOf(syntax: Syntax, line: string): Kind {
    if syntax.isFence(line) then Fence
    else if IsTableLine(line) then TableLine
    else if syntax.heading(line).Some? then HeadingLine
    else if syntax.item(line).Some? then ItemLine
    else if Strip(line) == "" then BlankLine
    else TextLine
  }

  /** A run of lines that belong together; the closing fence may be missing at the
      end of the document. */
  datatype Segment =
    | CodeSegment(fence: string, body: seq<string>, close: Option<string>)
    | TableSegment(rows: seq<string>)
    | ProseSegment(text: seq<string>)
    | LineSegment(line: string)

  function LinesOf(s: Segment): seq<string> {
    match s
    case CodeSegment(fence, body, close) => [fence] + body + (if close.Some? then [close.value] else [])
    case TableSegment(rows) => rows
    case ProseSegment(text) => text
    case LineSegment(line) => [line]
  }

  function AllLines(segments: seq<Segment>): seq<string> {
    if segments == [] then [] else AllLines(segments[..|segments| - 1]) + LinesOf(segments[|segments| - 1])
  }

  // ---------------------------------------------------------------- tables

  function StripBars(s: string): string {
    if s != "" && s[0] == '|' then StripBars(s[1..])
    else if s != "" && s[|s| - 1] == '|' then StripBars(s[..|s| - 1])
    else s
  }

  function SplitBars(s: string): (cells: seq<string>)
    ensures cells != []
  {
    if s == "" then [""]
    else if s[0] == '|' then [""] + SplitBars(s[1..])
    else var rest := SplitBars(s[1..]); [[s[0]] + rest[0]] + rest[1..]
  }

  function Cells(line: string): seq<string> {
    var parts := SplitBars(StripBars(Strip(line)));
    seq(|parts|, i requires 0 <= i < |parts| => Strip(parts[i]))
  }

  predicate IsSeparator(cells: seq<string>) {
    forall i :: 0 <= i < |cells| ==>
      cells[i] != "" && forall j :: 0 <= j < |cells[i]| ==> cells[i][j] in {'-', ':', ' '}
  }

  function ParseTable(lines: seq<string>): seq<seq<string>> {
    if lines == [] then []
    else
      var cells := Cells(lines[|lines| - 1]);
      ParseTable(lines[..|lines| - 1]) + if IsSeparator(cells) then [] else [cells]
  }

  method ParseTableLines(lines: seq<string>) returns (rows: seq<seq<string>>)
    ensures rows == ParseTable(lines)
  {
    rows := [];
    var i := 0;
    while i < |lines|
      invariant 0 <= i <= |lines| && rows == ParseTable(lines[..i])
    {
      assert lines[..i + 1][..i] == lines[..i];
      var cells := Cells(lines[i]);
      if !IsSeparator(cells) {
        rows := rows + [cells];
      }
      i := i + 1;
    }
    assert lines[..i] == lines;
  }

  // ---------------------------------------------------------------- rendering

  function RenderRows(rows: seq<seq<string>>): string {
    Join(seq(|rows|, i requires 0 <= i < |rows| => Join(rows[i], " | ")), "\n")
  }

  function TableBlock(rows: seq<seq<string>>): Block { Block(TABLE, RenderRows(rows), None, None, rows) }

  function CodeBlock(body: seq<string>): Block { Block(CODE, Join(body, "\n"), None, None, []) }

  function JoinedProse(text: seq<string>): string {
    Strip(Join(seq(|text|, i requires 0 <= i < |text| => Strip(text[i])), " "))
  }

  /** The blocks of one segment: at most one. */
  function Render(syntax: Syntax, s: Segment): seq<Block> {
    match s
    case CodeSegment(_, body, close) => if close.Some? || body != [] then [CodeBlock(body)] else []
    case TableSegment(rows) => if ParseTable(rows) != [] then [TableBlock(ParseTable(rows))] else []
    case ProseSegment(text) =>
      if JoinedProse(text) != "" then [Block(PARAGRAPH, JoinedProse(text), None, None, [])] else []
    case LineSegment(line) =>
      match KindOf(syntax, line)
      case HeadingLine =>
        var (level, title) := syntax.heading(line).value;
        [Block(HEADING, Strip(title), Some(level), None, [])]
      case ItemLine => [Block(LIST_ITEM, Strip(syntax.item(line).value), None, None, [])]
      case _ => []
  }

  function RenderAll(syntax: Syntax, segments: seq<Segment>): seq<Block> {
    if segments == [] then []
    else RenderAll(syntax, segments[..|segments| - 1]) + Render(syntax, segments[|segments| - 1])
  }

  // ---------------------------------------------------------------- segmentation

  predicate AllOfKind(syntax: Syntax, lines: seq<string>, kind: Kind) {
    forall i :: 0 <= i < |lines| ==> KindOf(syntax, lines[i]) == kind
  }

  predicate NoFence(syntax: Syntax, lines: seq<string>) {
    forall i :: 0 <= i < |lines| ==> KindOf(syntax, lines[i]) != Fence
  }

  predicate Good(syntax: Syntax, s: Segment) {
    match s
    case CodeSegment(fence, body, close) =>
      KindOf(syntax, fence) == Fence && NoFence(syntax, body) && (close.Some? ==> KindOf(syntax, close.value) == Fence)
    case TableSegment(rows) => rows != [] && AllOfKind(syntax, rows, TableLine)
    case ProseSegment(text) => text != [] && AllOfKind(syntax, text, TextLine)
    case LineSegment(line) => KindOf(syntax, line) in {HeadingLine, ItemLine, BlankLine}
  }

  /** Runs are maximal, and only the last segment may lack its closing fence. */
  predicate Follows(a: Segment, b: Segment) {
    && !(a.TableSegment? && b.TableSegment?) && !(a.ProseSegment? && b.ProseSegment?)
    && !(a.CodeSegment? && a.close.None?)
  }

  predicate WellCut(syntax: Syntax, segments: seq<Segment>) {
    && (forall i :: 0 <= i < |segments| ==> Good(syntax, segments[i]))
    && (forall i :: 0 <= i < |segments| - 1 ==> Follows(segments[i], segments[i + 1]))
  }

  predicate CanFollow(segments: seq<Segment>, s: Segment) {
    segments != [] ==> Follows(segments[|segments| - 1], s)
  }

  lemma AppendSegment(syntax: Syntax, segments: seq<Segment>, s: Segment)
    requires WellCut(syntax, segments) && Good(syntax, s) && CanFollow(segments, s)
    ensures WellCut(syntax, segments + [s])
    ensures AllLines(segments + [s]) == AllLines(segments) + LinesOf(s)
    ensures RenderAll(syntax, segments + [s]) == RenderAll(syntax, segments) + Render(syntax, s)
  {
    assert (segments + [s])[..|segments|] == segments;
  }

  // ---------------------------------------------------------------- the state machine

  /** The three buffers: at most one of them is in use. `fence` is the line that
      opened the code being collected. */
  datatype Buffers = Buffers(prose: seq<string>, table: seq<string>, inCode: bool, fence: string, code: seq<string>)

  const NO_BUFFERS := Buffers([], [], false, "", [])

  function Pending(b: Buffers): seq<string> {
    if b.inCode then [b.fence] + b.code else if b.table != [] then b.table else b.prose
  }

  predicate OneBuffer(syntax: Syntax, b: Buffers) {
    && (b.prose == [] || b.table == []) && (b.inCode ==> b.prose == [] && b.table == []) && (!b.inCode ==> b.code == [])
    && AllOfKind(syntax, b.prose, TextLine) && AllOfKind(syntax, b.table, TableLine) && NoFence(syntax, b.code)
    && (b.inCode ==> KindOf(syntax, b.fence) == Fence)
  }

  /** The segments cut so far, the lines still pending and the blocks emitted. */
  ghost predicate Parsed(syntax: Syntax, lines: seq<string>, segments: seq<Segment>, b: Buffers, blocks: seq<Block>) {
    && OneBuffer(syntax, b) && WellCut(syntax, segments)
    && AllLines(segments) + Pending(b) == lines
    && RenderAll(syntax, segments) == blocks
    && (segments != [] ==>
          var last := segments[|segments| - 1];
          && (last.CodeSegment? ==> last.close.Some?)
          && (last.ProseSegment? ==> b.table != [] || b.inCode)
          && (last.TableSegment? ==> b.prose != [] || b.inCode))
  }

  /** The segment pending outside code, if any, closed. */
  ghost function Closed(segments: seq<Segment>, b: Buffers): seq<Segment> {
    if b.table != [] then segments + [TableSegment(b.table)]
    else if b.prose != [] then segments + [ProseSegment(b.prose)]
    else segments
  }

  /** The block of a paragraph, and of a table: none when there is nothing in it. */
  function ProseBlocks(prose: seq<string>): seq<Block> {
    if prose == [] || JoinedProse(prose) == "" then [] else [Block(PARAGRAPH, JoinedProse(prose), None, None, [])]
  }

  function TableBlocks(table: seq<string>): seq<Block> {
    if ParseTable(table) == [] then [] else [TableBlock(ParseTable(table))]
  }

  method FlushProse(prose: seq<string>, blocks: seq<Block>) returns (blocks': seq<Block>)
    ensures blocks' == blocks + ProseBlocks(prose)
  {
    blocks' := blocks;
    if prose != [] {
      var joined := JoinedProse(prose);
      if joined != "" {
        blocks' := blocks + [Block(PARAGRAPH, joined, None, None, [])];
      }
    }
  }

  method FlushTable(table: seq<string>, blocks: seq<Block>) returns (blocks': seq<Block>)
    ensures blocks' == blocks + TableBlocks(table)
  {
    blocks' := blocks;
    if table != [] {
      var rows := ParseTableLines(table);
      if rows != [] {
        blocks' := blocks + [TableBlock(rows)];
      }
    }
  }

  /** Closing what is pending accounts for its lines and blocks, and leaves a run that
      a line of another kind may follow. */
  lemma CloseKeeps(syntax: Syntax, lines: seq<string>, segments: seq<Segment>, b: Buffers, blocks: seq<Block>)
    requires Parsed(syntax, lines, segments, b, blocks) && !b.inCode
    ensures var closed := Closed(segments, b);
            && WellCut(syntax, closed) && AllLines(closed) == lines
            && (closed != [] ==>
                  var last := closed[|closed| - 1];
                  && (last.CodeSegment? ==> last.close.Some?)
                  && (last.ProseSegment? ==> b.prose != []) && (last.TableSegment? ==> b.table != []))
            && RenderAll(syntax, closed) == blocks + ProseBlocks(b.prose) + TableBlocks(b.table)
  {
    hide JoinedProse, KindOf, AllLines, RenderAll;
    if b.table != [] {
      AppendSegment(syntax, segments, TableSegment(b.table));
    } else if b.prose != [] {
      AppendSegment(syntax, segments, ProseSegment(b.prose));
    }
  }

  /** After closing, a whole segment, or the beginning of a new run, may come. */
  lemma CloseAndAdd(syntax: Syntax, lines: seq<string>, segments: seq<Segment>, b: Buffers, blocks: seq<Block>, s: Segment)
    requires WellCut(syntax, segments) && AllLines(segments) == lines && RenderAll(syntax, segments) == blocks
    requires segments != [] ==> segments[|segments| - 1].CodeSegment? ==> segments[|segments| - 1].close.Some?
    requires s.LineSegment? && Good(syntax, s)
    ensures Parsed(syntax, lines + LinesOf(s), segments + [s], NO_BUFFERS, blocks + Render(syntax, s))
  {
    hide WellCut, AllLines, LinesOf, RenderAll, Render, KindOf, Good;
    AppendSegment(syntax, segments, s);
    assert AllLines(segments + [s]) + Pending(NO_BUFFERS) == lines + LinesOf(s);
  }

  /** A fence opens a code block. */
  lemma BeginCode(syntax: Syntax, lines: seq<string>, segments: seq<Segment>, b: Buffers, blocks: seq<Block>, line: string)
    requires Parsed(syntax, lines, segments, b, blocks) && !b.inCode && KindOf(syntax, line) == Fence
    ensures Parsed(syntax, lines + [line], Closed(segments, b), NO_BUFFERS.(inCode := true, fence := line),
                   blocks + ProseBlocks(b.prose) + TableBlocks(b.table))
  {
    hide OneBuffer, WellCut, AllLines, RenderAll, KindOf, ProseBlocks, TableBlocks, Closed;
    CloseKeeps(syntax, lines, segments, b, blocks);
    hide Parsed;
    BeginRun(syntax, lines, Closed(segments, b), b, line);
  }

  /** A heading, an item or a blank line is a segment of its own. */
  lemma OneLine(syntax: Syntax, lines: seq<string>, segments: seq<Segment>, b: Buffers, blocks: seq<Block>, line: string)
    requires Parsed(syntax, lines, segments, b, blocks) && !b.inCode && KindOf(syntax, line) !in {Fence, TableLine, TextLine}
    ensures Parsed(syntax, lines + [line], Closed(segments, b) + [LineSegment(line)], NO_BUFFERS,
                   blocks + TableBlocks(b.table) + ProseBlocks(b.prose) + Render(syntax, LineSegment(line)))
  {
    hide WellCut, AllLines, RenderAll, Render, KindOf, Closed, ParseTable, JoinedProse;
    CloseKeeps(syntax, lines, segments, b, blocks);
    LineIsGood(syntax, line);
    OnlyOne(syntax, b);
    EmptyTable();
    var was := blocks + TableBlocks(b.table) + ProseBlocks(b.prose);
    assert was == RenderAll(syntax, Closed(segments, b));
    hide Parsed, Good;
    CloseAndAdd(syntax, lines, Closed(segments, b), b, was, LineSegment(line));
  }

  method MarkdownBlocks(syntax: Syntax, lines: seq<string>) returns (blocks: seq<Block>)
    ensures blocks == RenderAll(syntax, Segments(syntax, lines))
  {
    hide Parsed, WellCut, AllLines, RenderAll, Render, KindOf, ProseBlocks, TableBlocks, CodeBlock, Closed, Segments;
    blocks := [];
    var b := NO_BUFFERS;
    ghost var segments: seq<Segment> := [];
    var i := 0;
    NothingParsed(syntax);
    while i < |lines|
      invariant 0 <= i <= |lines| && Parsed(syntax, lines[..i], segments, b, blocks)
    {
      var line := lines[i];
      assert lines[..i + 1] == lines[..i] + [line];
      if KindOf(syntax, line) == Fence {
        if b.inCode {
          EndCode(syntax, lines[..i], segments, b, blocks, line);
          segments := segments + [CodeSegment(b.fence, b.code, Some(line))];
          blocks := blocks + [CodeBlock(b.code)];
          b := NO_BUFFERS;
        } else {
          BeginCode(syntax, lines[..i], segments, b, blocks, line);
          segments := Closed(segments, b);
          blocks := FlushProse(b.prose, blocks);
          blocks := FlushTable(b.table, blocks);
          b := NO_BUFFERS.(inCode := true, fence := line);
        }
      } else if b.inCode {
        MoreCode(syntax, lines[..i], segments, b, blocks, line);
        b := b.(code := b.code + [line]);
      } else if KindOf(syntax, line) == TableLine {
        MoreTable(syntax, lines[..i], segments, b, blocks, line);
        if b.prose != [] {
          segments := segments + [ProseSegment(b.prose)];
        }
        blocks := FlushProse(b.prose, blocks);
        b := b.(prose := [], table := b.table + [line]);
      } else if KindOf(syntax, line) == TextLine {
        MoreProse(syntax, lines[..i], segments, b, blocks, line);
        if b.table != [] {
          segments := segments + [TableSegment(b.table)];
        }
        blocks := FlushTable(b.table, blocks);
        b := b.(table := [], prose := b.prose + [line]);
      } else {
        OneLine(syntax, lines[..i], segments, b, blocks, line);
        segments := Closed(segments, b) + [LineSegment(line)];
        blocks := FlushTable(b.table, blocks);
        blocks := FlushProse(b.prose, blocks);
        blocks := blocks + EmitLine(syntax, line);
        b := NO_BUFFERS;
      }
      i := i + 1;
    }
    assert lines[..i] == lines;
    if b.inCode {
      LastCode(syntax, lines, segments, b, blocks);
      segments := segments + [CodeSegment(b.fence, b.code, None)];
      if b.code != [] {
        blocks := blocks + [CodeBlock(b.code)];
      }
    } else {
      CloseKeeps(syntax, lines, segments, b, blocks);
      segments := Closed(segments, b);
      blocks := FlushProse(b.prose, blocks);
      blocks := FlushTable(b.table, blocks);
    }
    OnlySegmentation(syntax, lines, segments);
  }

  /** The block of a heading or list item line; none for a blank one. */
  function EmitLine(syntax: Syntax, line: string): (blocks: seq<Block>)
    ensures blocks == Render(syntax, LineSegment(line))
  {
    if KindOf(syntax, line) == HeadingLine then
      var (level, title) := syntax.heading(line).value;
      [Block(HEADING, Strip(title), Some(level), None, [])]
    else if KindOf(syntax, line) == ItemLine then [Block(LIST_ITEM, Strip(syntax.item(line).value), None, None, [])]
    else []
  }

  lemma NothingParsed(syntax: Syntax)
    ensures Parsed(syntax, [], [], NO_BUFFERS, [])
  {
  }

  lemma OnlyOne(syntax: Syntax, b: Buffers)
    requires OneBuffer(syntax, b)
    ensures b.table == [] || b.prose == []
  {
  }

  lemma EmptyTable()
    ensures ParseTable([]) == []
  {
  }

  lemma LineIsGood(syntax: Syntax, line: string)
    requires KindOf(syntax, line) !in {Fence, TableLine, TextLine}
    ensures Good(syntax, LineSegment(line))
  {
  }

  lemma EndCode(syntax: Syntax, lines: seq<string>, segments: seq<Segment>, b: Buffers, blocks: seq<Block>, line: string)
    requires Parsed(syntax, lines, segments, b, blocks) && b.inCode && KindOf(syntax, line) == Fence
    ensures Parsed(syntax, lines + [line], segments + [CodeSegment(b.fence, b.code, Some(line))], NO_BUFFERS,
                   blocks + [CodeBlock(b.code)])
  {
    hide JoinedProse, ParseTable, KindOf, AllLines, RenderAll, WellCut;
    var code := CodeSegment(b.fence, b.code, Some(line));
    AppendSegment(syntax, segments, code);
    assert AllLines(segments) + ([b.fence] + b.code) + [line] == AllLines(segments) + LinesOf(code);
  }

  lemma LastCode(syntax: Syntax, lines: seq<string>, segments: seq<Segment>, b: Buffers, blocks: seq<Block>)
    requires Parsed(syntax, lines, segments, b, blocks) && b.inCode
    ensures var last := CodeSegment(b.fence, b.code, None);
            && WellCut(syntax, segments + [last]) && AllLines(segments + [last]) == lines
            && RenderAll(syntax, segments + [last]) == blocks + if b.code == [] then [] else [CodeBlock(b.code)]
  {
    hide JoinedProse, ParseTable, KindOf, AllLines, RenderAll, WellCut;
    AppendSegment(syntax, segments, CodeSegment(b.fence, b.code, None));
  }

  lemma BeginRun(syntax: Syntax, lines: seq<string>, segments: seq<Segment>, b: Buffers, line: string)
    requires WellCut(syntax, segments) && AllLines(segments) == lines && KindOf(syntax, line) == Fence
    requires segments != [] ==> segments[|segments| - 1].CodeSegment? ==> segments[|segments| - 1].close.Some?
    ensures Parsed(syntax, lines + [line], segments, NO_BUFFERS.(inCode := true, fence := line),
                   RenderAll(syntax, segments))
  {
    hide WellCut, AllLines, RenderAll, KindOf;
    assert AllLines(segments) + Pending(NO_BUFFERS.(inCode := true, fence := line)) == lines + [line];
  }

  lemma MoreCode(syntax: Syntax, lines: seq<string>, segments: seq<Segment>, b: Buffers, blocks: seq<Block>, line: string)
    requires Parsed(syntax, lines, segments, b, blocks) && b.inCode && KindOf(syntax, line) != Fence
    ensures Parsed(syntax, lines + [line], segments, b.(code := b.code + [line]), blocks)
  {
    hide WellCut, AllLines, RenderAll, KindOf;
    assert AllLines(segments) + ([b.fence] + (b.code + [line])) == AllLines(segments) + ([b.fence] + b.code) + [line];
  }

  lemma MoreTable(syntax: Syntax, lines: seq<string>, segments: seq<Segment>, b: Buffers, blocks: seq<Block>, line: string)
    requires Parsed(syntax, lines, segments, b, blocks) && !b.inCode && KindOf(syntax, line) == TableLine
    ensures Parsed(syntax, lines + [line], if b.prose != [] then segments + [ProseSegment(b.prose)] else segments,
                   b.(prose := [], table := b.table + [line]),
                   blocks + ProseBlocks(b.prose))
  {
    hide JoinedProse, KindOf, AllLines, RenderAll;
    if b.prose != [] {
      AppendSegment(syntax, segments, ProseSegment(b.prose));
    }
  }

  lemma MoreProse(syntax: Syntax, lines: seq<string>, segments: seq<Segment>, b: Buffers, blocks: seq<Block>, line: string)
    requires Parsed(syntax, lines, segments, b, blocks) && !b.inCode && KindOf(syntax, line) == TextLine
    ensures Parsed(syntax, lines + [line], if b.table != [] then segments + [TableSegment(b.table)] else segments,
                   b.(table := [], prose := b.prose + [line]),
                   blocks + TableBlocks(b.table))
  {
    hide KindOf, ParseTable, AllLines, RenderAll;
    EmptyTable();
    if b.table != [] {
      AppendSegment(syntax, segments, TableSegment(b.table));
    }
  }

  // ---------------------------------------------------------------- there is one way to cut

  /** How many lines from the start are of this kind, or are no fences. */
  function RunOf(syntax: Syntax, lines: seq<string>, kind: Kind): (n: nat)
    ensures n <= |lines| && AllOfKind(syntax, lines[..n], kind)
    ensures n < |lines| ==> KindOf(syntax, lines[n]) != kind
  {
    if lines != [] && KindOf(syntax, lines[0]) == kind then
      var n := RunOf(syntax, lines[1..], kind);
      assert forall i :: 1 <= i <= n ==> lines[i] == lines[1..][..n][i - 1];
      n + 1
    else 0
  }

  function UpToFence(syntax: Syntax, lines: seq<string>): (n: nat)
    ensures n <= |lines| && NoFence(syntax, lines[..n])
    ensures n < |lines| ==> KindOf(syntax, lines[n]) == Fence
  {
    if lines != [] && KindOf(syntax, lines[0]) != Fence then
      var n := UpToFence(syntax, lines[1..]);
      assert forall i :: 1 <= i <= n ==> lines[i] == lines[1..][..n][i - 1];
      n + 1
    else 0
  }

  function FirstSegment(syntax: Syntax, lines: seq<string>): (s: Segment)
    requires lines != []
    ensures LinesOf(s) != [] && LinesOf(s) <= lines
  {
    match KindOf(syntax, lines[0])
    case Fence =>
      var n := UpToFence(syntax, lines[1..]);
      CodeSegment(lines[0], lines[1..][..n], if n + 1 < |lines| then Some(lines[n + 1]) else None)
    case TableLine => TableSegment(lines[..RunOf(syntax, lines, TableLine)])
    case TextLine => ProseSegment(lines[..RunOf(syntax, lines, TextLine)])
    case _ => LineSegment(lines[0])
  }

  /** Cut the longest segment off the front, again and again. */
  function Segments(syntax: Syntax, lines: seq<string>): seq<Segment>
    decreases |lines|
  {
    if lines == [] then []
    else var s := FirstSegment(syntax, lines); [s] + Segments(syntax, lines[|LinesOf(s)|..])
  }

  lemma {:induction false} AllLinesCons(s: Segment, rest: seq<Segment>)
    ensures AllLines([s] + rest) == LinesOf(s) + AllLines(rest)
  {
    hide LinesOf;
    if rest == [] {
      assert [s] + rest == [s] && [s][..0] == [];
    } else {
      var n := |rest| - 1;
      AllLinesCons(s, rest[..n]);
      calc {
        AllLines([s] + rest);
        { assert ([s] + rest)[..n + 1] == [s] + rest[..n]; }
        AllLines([s] + rest[..n]) + LinesOf(rest[n]);
        LinesOf(s) + AllLines(rest[..n]) + LinesOf(rest[n]);
        LinesOf(s) + (AllLines(rest[..n]) + LinesOf(rest[n]));
      }
    }
  }

  /** In a well-cut document the first segment is the longest one. */
  lemma FirstIsForced(syntax: Syntax, segments: seq<Segment>)
    requires segments != [] && WellCut(syntax, segments)
    ensures var lines := AllLines(segments);
            lines != [] && segments[0] == FirstSegment(syntax, lines)
  {
    hide AllLines, KindOf;
    var s, lines := segments[0], AllLines(segments);
    AfterFirst(syntax, segments);
    assert Good(syntax, s);
    match s
    case LineSegment(_) =>
    case TableSegment(rows) => LongestRun(syntax, lines, rows, TableLine);
    case ProseSegment(text) => LongestRun(syntax, lines, text, TextLine);
    case CodeSegment(_, _, _) => LongestCode(syntax, lines, s);
  }

  /** What comes after the first segment does not continue it. */
  lemma AfterFirst(syntax: Syntax, segments: seq<Segment>)
    requires segments != [] && WellCut(syntax, segments)
    ensures var s, lines := segments[0], AllLines(segments);
            var n := |LinesOf(s)|;
            && n > 0 && LinesOf(s) <= lines
            && (s.CodeSegment? && s.close.None? ==> LinesOf(s) == lines)
            && (n < |lines| ==> && (s.TableSegment? ==> KindOf(syntax, lines[n]) != TableLine)
                                && (s.ProseSegment? ==> KindOf(syntax, lines[n]) != TextLine))
  {
    hide AllLines, KindOf;
    var s, rest := segments[0], segments[1..];
    assert segments == [s] + rest && Good(syntax, s);
    AllLinesCons(s, rest);
    NoLines();
    if rest != [] {
      assert rest == [rest[0]] + rest[1..];
      AllLinesCons(rest[0], rest[1..]);
      assert Good(syntax, segments[1]) && Follows(s, segments[1]);
    }
  }

  lemma NoLines()
    ensures AllLines([]) == []
  {
  }

  lemma LongestRun(syntax: Syntax, lines: seq<string>, run: seq<string>, kind: Kind)
    requires run != [] && run <= lines && AllOfKind(syntax, run, kind)
    requires |run| < |lines| ==> KindOf(syntax, lines[|run|]) != kind
    ensures RunOf(syntax, lines, kind) == |run| && lines[..RunOf(syntax, lines, kind)] == run
  {
    var n := RunOf(syntax, lines, kind);
    assert forall i :: 0 <= i < |run| ==> lines[i] == run[i];
    assert forall i :: 0 <= i < n ==> lines[i] == lines[..n][i];
  }

  lemma FenceAt(syntax: Syntax, lines: seq<string>, n: nat)
    requires n <= |lines| && NoFence(syntax, lines[..n]) && (n < |lines| ==> KindOf(syntax, lines[n]) == Fence)
    ensures UpToFence(syntax, lines) == n
  {
    hide KindOf;
    var m := UpToFence(syntax, lines);
    assert forall i :: 0 <= i < n ==> lines[..n][i] == lines[i];
    assert forall i :: 0 <= i < m ==> lines[..m][i] == lines[i];
  }

  lemma LongestCode(syntax: Syntax, lines: seq<string>, s: Segment)
    requires s.CodeSegment? && Good(syntax, s) && LinesOf(s) <= lines && (s.close.None? ==> LinesOf(s) == lines)
    ensures lines != [] && FirstSegment(syntax, lines) == s
  {
    hide NoFence, UpToFence;
    var rest, n := lines[1..], |s.body|;
    assert lines[0] == s.fence;
    assert rest[..n] == LinesOf(s)[1..n + 1] == s.body;
    assert s.close.Some? ==> rest[n] == LinesOf(s)[n + 1] == s.close.value;
    FenceAt(syntax, rest, n);
  }

  /** A well-cut sequence of segments is determined by its lines. */
  lemma {:induction false} OnlySegmentation(syntax: Syntax, lines: seq<string>, segments: seq<Segment>)
    requires WellCut(syntax, segments) && AllLines(segments) == lines
    ensures segments == Segments(syntax, lines)
    decreases |segments|
  {
    if segments == [] {
    } else {
      var s, rest := segments[0], segments[1..];
      FirstIsForced(syntax, segments);
      assert segments == [s] + rest;
      AllLinesCons(s, rest);
      assert lines[|LinesOf(s)|..] == AllLines(rest);
      OnlySegmentation(syntax, AllLines(rest), rest);
    }
  }

  /** Cutting accounts for every line once, in order. */
  lemma {:induction false} SegmentsCoverLines(syntax: Syntax, lines: seq<string>)
    ensures AllLines(Segments(syntax, lines)) == lines
    decreases |lines|
  {
    if lines == [] {
    } else {
      var s := FirstSegment(syntax, lines);
      SegmentsCoverLines(syntax, lines[|LinesOf(s)|..]);
      AllLinesCons(s, Segments(syntax, lines[|LinesOf(s)|..]));
    }
  }

  lemma FirstIsGood(syntax: Syntax, lines: seq<string>)
    requires lines != []
    ensures Good(syntax, FirstSegment(syntax, lines))
    ensures var s := FirstSegment(syntax, lines);
            var n := |LinesOf(s)|;
            && n <= |lines| && (n < |lines| && s.TableSegment? ==> KindOf(syntax, lines[n]) != TableLine)
            && (n < |lines| && s.ProseSegment? ==> KindOf(syntax, lines[n]) != TextLine)
            && (s.CodeSegment? && s.close.None? ==> n == |lines|)
  {
    hide IsTableLine;
    var kind := KindOf(syntax, lines[0]);
    assert kind == TableLine || kind == TextLine ==> RunOf(syntax, lines, kind) > 0;
  }

  lemma KindOfFirst(syntax: Syntax, lines: seq<string>)
    requires lines != []
    ensures FirstSegment(syntax, lines).TableSegment? <==> KindOf(syntax, lines[0]) == TableLine
    ensures FirstSegment(syntax, lines).ProseSegment? <==> KindOf(syntax, lines[0]) == TextLine
  {
    hide KindOf, RunOf, UpToFence;
  }

  /** The cut is well-formed: together with its being the only one, every document has
      exactly one segmentation. */
  lemma {:induction false} SegmentsAreWellCut(syntax: Syntax, lines: seq<string>)
    ensures WellCut(syntax, Segments(syntax, lines))
    decreases |lines|
  {
    hide FirstSegment, Good, KindOf, WellCut, LinesOf;
    if lines == [] {
      NothingIsWellCut(syntax);
    } else {
      var s := FirstSegment(syntax, lines);
      var left := lines[|LinesOf(s)|..];
      var rest := Segments(syntax, left);
      FirstIsGood(syntax, lines);
      SegmentsAreWellCut(syntax, left);
      if left != [] {
        assert rest[0] == FirstSegment(syntax, left);
        KindOfFirst(syntax, left);
      }
      hide Segments;
      WellCutCons(syntax, s, rest);
    }
  }

  lemma NothingIsWellCut(syntax: Syntax)
    ensures WellCut(syntax, [])
  {
  }

  lemma WellCutCons(syntax: Syntax, s: Segment, rest: seq<Segment>)
    requires Good(syntax, s) && WellCut(syntax, rest) && (rest != [] ==> Follows(s, rest[0]))
    ensures WellCut(syntax, [s] + rest)
  {
    hide Good, Follows;
    assert forall i :: 0 < i < |[s] + rest| ==> ([s] + rest)[i] == rest[i - 1];
  }

  lemma InkOfStripped(s: string)
    requires Strip(s) != ""
    ensures Ink(Strip(s)) != ""
  {
    InkStrip(s);
  }

  lemma InkOfJoin(parts: seq<string>, separator: string)
    requires parts != [] && Ink(parts[0]) != ""
    ensures Ink(Join(parts, separator)) != ""
  {
    if |parts| > 1 {
      InkConcat(parts[0] + separator, Join(parts[1..], separator));
      InkConcat(parts[0], separator);
    }
  }

  /** A run of text lines always makes a paragraph. */
  lemma ProseHasText(syntax: Syntax, text: seq<string>)
    requires text != [] && AllOfKind(syntax, text, TextLine)
    ensures JoinedProse(text) != ""
  {
    var parts := seq(|text|, i requires 0 <= i < |text| => Strip(text[i]));
    assert KindOf(syntax, text[0]) == TextLine;
    InkOfStripped(text[0]);
    InkOfJoin(parts, " ");
    InkStrip(Join(parts, " "));
  }

  /** The only segments without a block are blank lines, tables of nothing but
      separators, and an unclosed fence with nothing after it. */
  lemma SilentSegments(syntax: Syntax, s: Segment)
    requires Good(syntax, s)
    ensures Render(syntax, s) == [] <==>
            match s
            case CodeSegment(_, body, close) => body == [] && close.None?
            case TableSegment(rows) => forall i :: 0 <= i < |rows| ==> IsSeparator(Cells(rows[i]))
            case ProseSegment(_) => false
            case LineSegment(line) => KindOf(syntax, line) == BlankLine
  {
    hide JoinedProse, Cells, IsSeparator;
    match s
    case TableSegment(rows) => OnlySeparators(rows);
    case ProseSegment(text) => ProseHasText(syntax, text);
    case _ =>
  }

  /** Line k of the segment is part of the segment's block: a fence marker is not. */
  predicate Reaches(syntax: Syntax, s: Segment, k: nat) {
    Render(syntax, s) != [] && (s.CodeSegment? ==> 1 <= k <= |s.body|)
  }

  /** Segment j of the document has line i of the document as its line k. */
  predicate Holds(segments: seq<Segment>, lines: seq<string>, i: nat, j: nat, k: nat) {
    && i < |lines| && j < |segments| && k < |LinesOf(segments[j])|
    && |AllLines(segments[..j])| + k == i && LinesOf(segments[j])[k] == lines[i]
  }

  lemma {:induction false} FindLine(segments: seq<Segment>, lines: seq<string>, i: nat) returns (j: nat, k: nat)
    requires AllLines(segments) == lines && i < |lines|
    ensures Holds(segments, lines, i, j, k)
  {
    var init, last := segments[..|segments| - 1], segments[|segments| - 1];
    if i < |AllLines(init)| {
      j, k := FindLine(init, AllLines(init), i);
      assert segments[..j] == init[..j];
    } else {
      j, k := |segments| - 1, i - |AllLines(init)|;
    }
  }

  /** Of the whole document: a line reaches no block if and only if it is a fence
      marker, a blank line outside code, or in a table of nothing but separators. */
  lemma LinesWithoutBlock(syntax: Syntax, lines: seq<string>, i: nat) returns (j: nat, k: nat)
    requires i < |lines|
    ensures Holds(Segments(syntax, lines), lines, i, j, k)
    ensures var s := Segments(syntax, lines)[j];
            !Reaches(syntax, s, k) <==>
            || KindOf(syntax, lines[i]) == Fence
            || (KindOf(syntax, lines[i]) == BlankLine && !s.CodeSegment?)
            || (s.TableSegment? && forall r :: 0 <= r < |s.rows| ==> IsSeparator(Cells(s.rows[r])))
  {
    hide Segments, Render, KindOf, Cells, IsSeparator;
    SegmentsCoverLines(syntax, lines);
    SegmentsAreWellCut(syntax, lines);
    j, k := FindLine(Segments(syntax, lines), lines, i);
    SilentSegments(syntax, Segments(syntax, lines)[j]);
  }

  lemma {:induction false} OnlySeparators(lines: seq<string>)
    ensures ParseTable(lines) == [] <==> forall i :: 0 <= i < |lines| ==> IsSeparator(Cells(lines[i]))
  {
    hide Cells, IsSeparator;
    if lines == [] {
    } else {
      var n := |lines| - 1;
      OnlySeparators(lines[..n]);
      assert forall i :: 0 <= i < n ==> lines[..n][i] == lines[i];
    }
  }
}
