/** What the Markdown blocks say: nothing of a document's text is lost on the way, in
    what order it comes, and how the lines of a block are put together. */
module MarkdownContent {
  import opened Basics
  import opened Text
  import opened Packing
  import opened Structural
  import opened Markdown

  // ---------------------------------------------------------------- the text of a document

  /** A text without its bars. */
  function Unbarred(s: string): string {
    if s == "" then "" else (if s[0] == '|' then "" else [s[0]]) + Unbarred(s[1..])
  }

  /** What a line contributes: all of it, but for white space, the bars of a table, and
      what the heading and item patterns remove; nothing for fences and separators. */
  function LineInk(syntax: Syntax, line: string, inCode: bool): string {
    if KindOf(syntax, line) == Fence then ""
    else if inCode then Ink(line)
    else if KindOf(syntax, line) == TableLine then (if IsSeparator(Cells(line)) then "" else Unbarred(Ink(line)))
    else if KindOf(syntax, line) == HeadingLine then Ink(syntax.heading(line).value.1)
    else if KindOf(syntax, line) == ItemLine then Ink(syntax.item(line).value)
    else Ink(line)
  }

  /** Every fence line begins or ends code. */
  function CodeAfter(syntax: Syntax, lines: seq<string>, inCode: bool): bool {
    if lines == [] then inCode
    else var before := CodeAfter(syntax, lines[..|lines| - 1], inCode);
         if KindOf(syntax, lines[|lines| - 1]) == Fence then !before else before
  }

  /** The text of a document, line by line. */
  function DocumentInk(syntax: Syntax, lines: seq<string>, inCode: bool): string {
    if lines == [] then ""
    else
      var init := lines[..|lines| - 1];
      DocumentInk(syntax, init, inCode) + LineInk(syntax, lines[|lines| - 1], CodeAfter(syntax, init, inCode))
  }

  /** The text of a block; the bars of a table are its own. */
  function BlockInk(b: Block): string { if b.kind.TABLE? then Unbarred(Ink(b.text)) else Ink(b.text) }

  function BlocksInk(blocks: seq<Block>): string {
    if blocks == [] then "" else BlocksInk(blocks[..|blocks| - 1]) + BlockInk(blocks[|blocks| - 1])
  }

  lemma {:induction false} BlocksInkAppend(a: seq<Block>, b: seq<Block>)
    ensures BlocksInk(a + b) == BlocksInk(a) + BlocksInk(b)
    decreases |b|
  {
    hide BlockInk;
    if b == [] {
      assert a + b == a;
    } else {
      assert (a + b)[..|a + b| - 1] == a + b[..|b| - 1];
      BlocksInkAppend(a, b[..|b| - 1]);
    }
  }

  lemma BlocksInkOne(b: Block)
    ensures BlocksInk([b]) == BlockInk(b) && BlocksInk([]) == ""
  {
    hide BlockInk;
    assert [b][..0] == [];
  }

  lemma {:induction false} DocumentInkAppend(syntax: Syntax, a: seq<string>, b: seq<string>, inCode: bool)
    ensures CodeAfter(syntax, a + b, inCode) == CodeAfter(syntax, b, CodeAfter(syntax, a, inCode))
    ensures DocumentInk(syntax, a + b, inCode)
            == DocumentInk(syntax, a, inCode) + DocumentInk(syntax, b, CodeAfter(syntax, a, inCode))
    decreases |b|
  {
    hide LineInk, KindOf;
    if b == [] {
      assert a + b == a;
    } else {
      assert (a + b)[..|a + b| - 1] == a + b[..|b| - 1];
      DocumentInkAppend(syntax, a, b[..|b| - 1], inCode);
    }
  }

  lemma DocumentInkOne(syntax: Syntax, line: string, inCode: bool)
    ensures DocumentInk(syntax, [line], inCode) == LineInk(syntax, line, inCode)
    ensures CodeAfter(syntax, [line], inCode) == if KindOf(syntax, line) == Fence then !inCode else inCode
    ensures DocumentInk(syntax, [], inCode) == "" && CodeAfter(syntax, [], inCode) == inCode
  {
    hide LineInk, KindOf;
    assert [line][..0] == [];
  }

  // ---------------------------------------------------------------- the kinds of lines

  /** Stripping takes white space off both ends, all there is and nothing else. */
  lemma StripIs(s: string) returns (a: nat, b: nat)
    ensures a <= b <= |s| && Strip(s) == s[a..b]
    ensures (forall k :: 0 <= k < a ==> IsSpace(s[k])) && (forall k :: b <= k < |s| ==> IsSpace(s[k]))
    ensures a < b ==> !IsSpace(s[a]) && !IsSpace(s[b - 1])
  {
    hide IsSpace;
    a := LeftIs(s);
    var n := RightIs(s[a..]);
    b := a + n;
    assert s[a..][..n] == s[a..b];
    assert forall k :: b <= k < |s| ==> s[k] == s[a..][k - a];
  }

  lemma {:induction false} LeftIs(s: string) returns (a: nat)
    ensures a <= |s| && StripLeft(s) == s[a..] && (forall k :: 0 <= k < a ==> IsSpace(s[k])) && (a < |s| ==> !IsSpace(s[a]))
  {
    hide IsSpace;
    if s != "" && IsSpace(s[0]) {
      var rest := LeftIs(s[1..]);
      a := rest + 1;
      assert forall k :: 1 <= k < a ==> s[k] == s[1..][k - 1];
    } else {
      a := 0;
    }
  }

  lemma {:induction false} RightIs(s: string) returns (n: nat)
    ensures n <= |s| && StripRight(s) == s[..n] && (forall k :: n <= k < |s| ==> IsSpace(s[k])) && (n > 0 ==> !IsSpace(s[n - 1]))
  {
    hide IsSpace;
    if s != "" && IsSpace(s[|s| - 1]) {
      n := RightIs(s[..|s| - 1]);
      assert s[..|s| - 1][..n] == s[..n];
    } else {
      n := |s|;
      assert s[..n] == s;
    }
  }

  /** The line begins, after white space, with a bar, and has another. */
  ghost predicate BeginsWithBars(line: string) {
    exists i, j :: 0 <= i < j < |line| && line[i] == '|' && line[j] == '|' && forall k :: 0 <= k < i ==> IsSpace(line[k])
  }

  ghost predicate IsBlank(line: string) { forall k :: 0 <= k < |line| ==> IsSpace(line[k]) }

  lemma TableLinesBeginWithBars(line: string)
    ensures IsTableLine(line) <==> BeginsWithBars(line)
    ensures Strip(line) == "" <==> IsBlank(line)
  {
    hide Strip, IsSpace;
    var a, b := StripIs(line);
    BarIsText();
    var s := line[a..b];
    BarsInside(line, a, b);
    if a < b {
      assert !IsSpace(line[a]);
    }
  }

  lemma BarsInside(line: string, a: nat, b: nat)
    requires a <= b <= |line| && !IsSpace('|') && (a < b ==> !IsSpace(line[a]))
    requires (forall k :: 0 <= k < a ==> IsSpace(line[k])) && (forall k :: b <= k < |line| ==> IsSpace(line[k]))
    ensures var s := line[a..b]; (s != "" && s[0] == '|' && '|' in s[1..]) <==> BeginsWithBars(line)
  {
    hide IsSpace;
    var s := line[a..b];
    if s != "" && s[0] == '|' && '|' in s[1..] {
      var j :| 0 <= j < |s[1..]| && s[1..][j] == '|';
      assert line[a] == '|' && line[a + 1 + j] == '|';
    }
    if BeginsWithBars(line) {
      var i, j :| 0 <= i < j < |line| && line[i] == '|' && line[j] == '|' && forall k :: 0 <= k < i ==> IsSpace(line[k]);
      assert i == a && j < b;
      assert s[1..][j - a - 1] == '|';
    }
  }

  lemma BarIsText()
    ensures !IsSpace('|')
  {
  }

  /** What a line is, by the first test that holds: a fence, bars at its beginning, the
      heading pattern, the item pattern, and whether there is anything on it. */
  lemma KindsExactly(syntax: Syntax, line: string)
    ensures var kind, marked := KindOf(syntax, line), syntax.isFence(line) || BeginsWithBars(line);
            && (kind == Fence <==> syntax.isFence(line))
            && (kind == TableLine <==> !syntax.isFence(line) && BeginsWithBars(line))
            && (kind == HeadingLine <==> !marked && syntax.heading(line).Some?)
            && (kind == ItemLine <==> !marked && syntax.heading(line).None? && syntax.item(line).Some?)
            && (kind == BlankLine <==> !marked && syntax.heading(line).None? && syntax.item(line).None? && IsBlank(line))
            && (kind == TextLine <==> !marked && syntax.heading(line).None? && syntax.item(line).None? && !IsBlank(line))
  {
    hide IsTableLine, BeginsWithBars, IsBlank, Strip;
    TableLinesBeginWithBars(line);
  }

  // ---------------------------------------------------------------- bars

  lemma {:induction false} UnbarredAppend(a: string, b: string)
    ensures Unbarred(a + b) == Unbarred(a) + Unbarred(b)
  {
    if a == "" {
      assert a + b == b;
    } else {
      assert (a + b)[1..] == a[1..] + b;
      UnbarredAppend(a[1..], b);
    }
  }

  lemma {:induction false} UnbarredInk(s: string)
    ensures Unbarred(Ink(s)) == Ink(Unbarred(s))
  {
    if s != "" {
      UnbarredInk(s[1..]);
      var first := if IsSpace(s[0]) then "" else [s[0]];
      UnbarredAppend(first, Ink(s[1..]));
      InkConcat(if s[0] == '|' then "" else [s[0]], Unbarred(s[1..]));
      OneChar(s[0]);
    }
  }

  lemma OneChar(c: char)
    ensures Ink([c]) == (if IsSpace(c) then "" else [c]) && Unbarred([c]) == (if c == '|' then "" else [c])
    ensures Ink("") == "" && Unbarred("") == ""
  {
    assert [c][1..] == "";
  }

  lemma {:induction false} UnbarredStripBars(s: string)
    ensures Unbarred(StripBars(s)) == Unbarred(s)
    decreases |s|
  {
    if s != "" && s[0] == '|' {
      UnbarredStripBars(s[1..]);
    } else if s != "" && s[|s| - 1] == '|' {
      UnbarredStripBars(s[..|s| - 1]);
      assert s == s[..|s| - 1] + ['|'];
      UnbarredAppend(s[..|s| - 1], ['|']);
      OneChar('|');
    }
  }

  lemma WidenFirst(c: char, parts: seq<string>, separator: string)
    requires parts != []
    ensures Join([[c] + parts[0]] + parts[1..], separator) == [c] + Join(parts, separator)
    ensures Flatten([[c] + parts[0]] + parts[1..]) == [c] + Flatten(parts)
  {
    var wider := [[c] + parts[0]] + parts[1..];
    assert wider[1..] == parts[1..];
    if |parts| > 1 {
      assert [c] + parts[0] + separator + Join(parts[1..], separator) == [c] + (parts[0] + separator + Join(parts[1..], separator));
    }
    assert [c] + parts[0] + Flatten(parts[1..]) == [c] + (parts[0] + Flatten(parts[1..]));
  }

  lemma EmptyFirst(parts: seq<string>, separator: string)
    requires parts != []
    ensures Join([""] + parts, separator) == separator + Join(parts, separator) && Flatten([""] + parts) == Flatten(parts)
  {
    assert ([""] + parts)[1..] == parts;
    assert "" + separator == separator;
  }

  /** Splitting at the bars takes nothing but the bars away, and leaves none. */
  lemma {:induction false} SplitAtBars(s: string)
    ensures Flatten(SplitBars(s)) == Unbarred(s) && Join(SplitBars(s), "|") == s
    ensures forall i :: 0 <= i < |SplitBars(s)| ==> '|' !in SplitBars(s)[i]
  {
    hide Join, Flatten;
    if s == "" {
      FlattenOne("");
      JoinOne("");
    } else {
      var rest := SplitBars(s[1..]);
      SplitAtBars(s[1..]);
      assert s == [s[0]] + s[1..];
      if s[0] == '|' {
        EmptyFirst(rest, "|");
      } else {
        WidenFirst(s[0], rest, "|");
        assert '|' !in [s[0]] + rest[0];
      }
    }
  }

  lemma JoinOne(s: string)
    ensures forall separator :: Join([s], separator) == s
  {
  }

  lemma {:induction false} InkMembers(s: string, c: char)
    ensures c in Ink(s) <==> c in s && !IsSpace(c)
  {
    hide IsSpace;
    if s != "" {
      InkMembers(s[1..], c);
      assert s == [s[0]] + s[1..];
    }
  }

  /** A separator: every cell has text, of dashes and colons, with blanks in between at
      most. */
  lemma SeparatorsExactly(line: string)
    ensures IsSeparator(Cells(line)) <==>
            forall i :: 0 <= i < |Cells(line)| ==>
              var cell := Cells(line)[i];
              && Ink(cell) != "" && (forall c :: c in Ink(cell) ==> c == '-' || c == ':')
              && (forall c :: c in cell && IsSpace(c) ==> c == ' ')
  {
    hide Strip, Ink, IsSpace, SplitBars, StripBars;
    var cells := Cells(line);
    forall i | 0 <= i < |cells|
      ensures (cells[i] != "" && forall j :: 0 <= j < |cells[i]| ==> cells[i][j] in {'-', ':', ' '})
              <==> Ink(cells[i]) != "" && (forall c :: c in Ink(cells[i]) ==> c == '-' || c == ':')
                   && (forall c :: c in cells[i] && IsSpace(c) ==> c == ' ')
    {
      var raw := SplitBars(StripBars(Strip(line)))[i];
      assert cells[i] == Strip(raw);
      SeparatorCell(raw);
    }
  }

  lemma SeparatorCell(raw: string)
    ensures var cell := Strip(raw);
            (cell != "" && forall j :: 0 <= j < |cell| ==> cell[j] in {'-', ':', ' '})
            <==> Ink(cell) != "" && (forall c :: c in Ink(cell) ==> c == '-' || c == ':')
                 && (forall c :: c in cell && IsSpace(c) ==> c == ' ')
  {
    hide Strip, Ink;
    var cell := Strip(raw);
    InkStrip(raw);
    forall c ensures c in Ink(cell) <==> c in cell && !IsSpace(c) {
      InkMembers(cell, c);
    }
    if cell != "" {
      assert cell[0] in cell && cell[0] in Ink(cell);
    } else {
      NothingInk();
    }
    if forall j :: 0 <= j < |cell| ==> cell[j] in {'-', ':', ' '} {
      assert forall c :: c in cell ==> c in {'-', ':', ' '};
    }
    if forall c :: c in cell ==> c == '-' || c == ':' || c == ' ' {
      assert forall j :: 0 <= j < |cell| ==> cell[j] in cell;
    }
  }

  // ---------------------------------------------------------------- one segment

  function Stripped(lines: seq<string>): (parts: seq<string>)
    ensures |parts| == |lines|
  {
    seq(|lines|, i requires 0 <= i < |lines| => Strip(lines[i]))
  }

  lemma {:induction false} StrippedInk(lines: seq<string>)
    ensures Ink(Flatten(Stripped(lines))) == Ink(Flatten(lines))
  {
    hide Ink, Strip;
    if lines != [] {
      assert Stripped(lines)[1..] == Stripped(lines[1..]);
      StrippedInk(lines[1..]);
      InkStrip(lines[0]);
      InkConcat(lines[0], Flatten(lines[1..]));
      InkConcat(Strip(lines[0]), Flatten(Stripped(lines[1..])));
    }
  }

  lemma InkOf(c: char)
    requires IsSpace(c)
    ensures Ink([c]) == "" && Ink("") == ""
  {
  }

  lemma ProseInk(text: seq<string>)
    ensures Ink(JoinedProse(text)) == Ink(Flatten(text))
  {
    hide Ink, Strip, Join, Flatten;
    var parts := Stripped(text);
    assert JoinedProse(text) == Strip(Join(parts, " "));
    InkStrip(Join(parts, " "));
    InkOf(' ');
    InkJoin(parts, " ");
    StrippedInk(text);
  }

  /** A row joined from the cells of a line says what the line says. */
  lemma RowInk(line: string)
    ensures Unbarred(Ink(Join(Cells(line), " | "))) == Unbarred(Ink(line))
  {
    hide Ink, Strip, Join, Flatten, SplitBars, StripBars, Unbarred;
    var raw := SplitBars(StripBars(Strip(line)));
    assert Cells(line) == Stripped(raw);
    JoinBars(Cells(line));
    StrippedInk(raw);
    SplitAtBars(StripBars(Strip(line)));
    UnbarredStripBars(Strip(line));
    UnbarredInk(Flatten(raw));
    UnbarredInk(Strip(line));
    UnbarredTwice(StripBars(Strip(line)));
    InkStrip(line);
  }

  lemma {:induction false} UnbarredTwice(s: string)
    ensures Unbarred(Unbarred(s)) == Unbarred(s)
  {
    if s != "" {
      UnbarredTwice(s[1..]);
      UnbarredAppend(if s[0] == '|' then "" else [s[0]], Unbarred(s[1..]));
      OneChar(s[0]);
    }
  }

  lemma {:induction false} JoinBars(parts: seq<string>)
    ensures Unbarred(Ink(Join(parts, " | "))) == Unbarred(Ink(Flatten(parts)))
  {
    hide Ink, Unbarred;
    if |parts| == 1 {
      assert parts == [parts[0]];
      FlattenOne(parts[0]);
    } else if |parts| > 1 {
      var rest := parts[1..];
      JoinBars(rest);
      InkConcat(parts[0] + " | ", Join(rest, " | "));
      InkConcat(parts[0], " | ");
      InkConcat(parts[0], Flatten(rest));
      BarInk();
      UnbarredAppend(Ink(parts[0]) + "|", Ink(Join(rest, " | ")));
      UnbarredAppend(Ink(parts[0]), "|");
      UnbarredAppend(Ink(parts[0]), Ink(Flatten(rest)));
      assert Unbarred(Ink(parts[0])) + "" == Unbarred(Ink(parts[0]));
    }
  }

  lemma BarInk()
    ensures Ink(" | ") == "|" && Unbarred("|") == ""
  {
    assert " | "[1..] == "| " && " | "[1..][1..] == " " && " | "[1..][1..][1..] == "";
    OneChar('|');
  }

  lemma RowsSnoc(rows: seq<seq<string>>, row: seq<string>)
    ensures RenderRows(rows + [row]) == (if rows == [] then Join(row, " | ") else RenderRows(rows) + "\n" + Join(row, " | "))
  {
    hide Join;
    var texts := seq(|rows|, i requires 0 <= i < |rows| => Join(rows[i], " | "));
    var all := rows + [row];
    assert seq(|all|, i requires 0 <= i < |all| => Join(all[i], " | ")) == texts + [Join(row, " | ")];
    JoinSnoc(texts, Join(row, " | "), "\n");
  }

  lemma {:induction false} TableInk(syntax: Syntax, rows: seq<string>)
    requires AllOfKind(syntax, rows, TableLine)
    ensures Unbarred(Ink(RenderRows(ParseTable(rows)))) == DocumentInk(syntax, rows, false)
    ensures !CodeAfter(syntax, rows, false)
  {
    hide Ink, Unbarred, KindOf, Cells, IsSeparator, Join, RenderRows;
    if rows == [] {
      NoRows();
    } else {
      var init, line := rows[..|rows| - 1], rows[|rows| - 1];
      TableInk(syntax, init);
      if !IsSeparator(Cells(line)) {
        RowsSnoc(ParseTable(init), Cells(line));
        RowInk(line);
        TableRowInk(ParseTable(init), Cells(line));
      } else {
        assert ParseTable(init) + [] == ParseTable(init);
      }
    }
  }

  lemma NoRows()
    ensures RenderRows([]) == "" && Unbarred(Ink("")) == ""
  {
  }

  lemma TableRowInk(rows: seq<seq<string>>, row: seq<string>)
    ensures Unbarred(Ink(RenderRows(rows + [row]))) == Unbarred(Ink(RenderRows(rows))) + Unbarred(Ink(Join(row, " | ")))
  {
    hide Ink, Unbarred, Join, RenderRows;
    var text, last := RenderRows(rows), Join(row, " | ");
    RowsSnoc(rows, row);
    if rows == [] {
      NoRows();
    } else {
      InkConcat(text + "\n", last);
      InkConcat(text, "\n");
      InkOf('\n');
      assert Ink(text) + "" == Ink(text);
      UnbarredAppend(Ink(text), Ink(last));
    }
  }

  lemma {:induction false} LinesInk(syntax: Syntax, lines: seq<string>, inCode: bool)
    requires if inCode then NoFence(syntax, lines) else AllOfKind(syntax, lines, TextLine)
    ensures DocumentInk(syntax, lines, inCode) == Ink(Flatten(lines)) && CodeAfter(syntax, lines, inCode) == inCode
  {
    hide Ink, KindOf, Flatten;
    if lines == [] {
      NothingInk();
    } else {
      var init, line := lines[..|lines| - 1], lines[|lines| - 1];
      LinesInk(syntax, init, inCode);
      assert lines == init + [line];
      FlattenAppend(init, [line]);
      FlattenOne(line);
      InkConcat(Flatten(init), line);
    }
  }

  lemma NothingInk()
    ensures Ink("") == "" && Flatten([]) == ""
  {
  }

  lemma CodeInk(syntax: Syntax, s: Segment)
    requires s.CodeSegment? && Good(syntax, s)
    ensures BlocksInk(Render(syntax, s)) == DocumentInk(syntax, LinesOf(s), false)
    ensures CodeAfter(syntax, LinesOf(s), false) == s.close.None?
  {
    hide Ink, KindOf, Flatten, Join, DocumentInk, CodeAfter, BlocksInk;
    var last := if s.close.Some? then [s.close.value] else [];
    DocumentInkAppend(syntax, [s.fence] + s.body, last, false);
    DocumentInkAppend(syntax, [s.fence], s.body, false);
    DocumentInkOne(syntax, s.fence, false);
    DocumentInkOne(syntax, if s.close.Some? then s.close.value else "", true);
    LinesInk(syntax, s.body, true);
    InkOf('\n');
    InkJoin(s.body, "\n");
    BlocksInkOne(CodeBlock(s.body));
    NothingInk();
    var text := Ink(Flatten(s.body));
    assert "" + text == text && text + "" == text && "" + "" == "";
  }

  /** The block of a segment says what its lines say. */
  lemma SegmentInk(syntax: Syntax, s: Segment)
    requires Good(syntax, s)
    ensures BlocksInk(Render(syntax, s)) == DocumentInk(syntax, LinesOf(s), false)
    ensures CodeAfter(syntax, LinesOf(s), false) == (s.CodeSegment? && s.close.None?)
  {
    match s
    case CodeSegment(_, _, _) => CodeInk(syntax, s);
    case TableSegment(rows) =>
      hide Ink, Unbarred, KindOf, DocumentInk, CodeAfter, BlocksInk, RenderRows, ParseTable;
      TableInk(syntax, rows);
      BlocksInkOne(TableBlock(ParseTable(rows)));
      NoRows();
    case ProseSegment(text) =>
      hide Ink, KindOf, DocumentInk, CodeAfter, BlocksInk, JoinedProse, Flatten;
      LinesInk(syntax, text, false);
      ProseInk(text);
      BlocksInkOne(Block(PARAGRAPH, JoinedProse(text), None, None, []));
      NothingInk();
    case LineSegment(line) => OneLineInk(syntax, line);
  }

  lemma OneLineInk(syntax: Syntax, line: string)
    requires Good(syntax, LineSegment(line))
    ensures BlocksInk(Render(syntax, LineSegment(line))) == DocumentInk(syntax, [line], false)
    ensures !CodeAfter(syntax, [line], false)
  {
    DocumentInkOne(syntax, line, false);
    if KindOf(syntax, line) == HeadingLine {
      var (level, title) := syntax.heading(line).value;
      BlocksInkOne(Block(HEADING, Strip(title), Some(level), None, []));
      InkStrip(title);
    } else if KindOf(syntax, line) == ItemLine {
      BlocksInkOne(Block(LIST_ITEM, Strip(syntax.item(line).value), None, None, []));
      InkStrip(syntax.item(line).value);
    } else {
      BlocksInkOne(CodeBlock([]));
      InkStrip(line);
      NothingInk();
    }
  }

  // ---------------------------------------------------------------- the whole document

  lemma {:induction false} SegmentsInk(syntax: Syntax, segments: seq<Segment>)
    requires WellCut(syntax, segments)
    ensures BlocksInk(RenderAll(syntax, segments)) == DocumentInk(syntax, AllLines(segments), false)
    ensures segments != [] ==>
              var last := segments[|segments| - 1];
              CodeAfter(syntax, AllLines(segments), false) == (last.CodeSegment? && last.close.None?)
  {
    hide BlocksInk, DocumentInk, CodeAfter, Good, Render, LinesOf;
    if segments == [] {
      BlocksInkOne(CodeBlock([]));
      DocumentInkOne(syntax, "", false);
    } else {
      var init, last := segments[..|segments| - 1], segments[|segments| - 1];
      SegmentsInk(syntax, init);
      SegmentInk(syntax, last);
      BlocksInkAppend(RenderAll(syntax, init), Render(syntax, last));
      DocumentInkAppend(syntax, AllLines(init), LinesOf(last), false);
      DocumentInkOne(syntax, "", false);
      assert init != [] ==> Follows(init[|init| - 1], last);
    }
  }

  /** Nothing is lost: the text of all blocks, in order, is the text of all lines, but
      for white space and what marks the structure. */
  lemma NothingIsLost(syntax: Syntax, lines: seq<string>)
    ensures BlocksInk(RenderAll(syntax, Segments(syntax, lines))) == DocumentInk(syntax, lines, false)
  {
    hide BlocksInk, DocumentInk, WellCut, RenderAll, Segments;
    SegmentsAreWellCut(syntax, lines);
    SegmentsInk(syntax, Segments(syntax, lines));
    SegmentsCoverLines(syntax, lines);
  }

  // ---------------------------------------------------------------- headings, items and rows

  /** What a document is made of besides running text. */
  datatype Piece = Title(level: Option<int>, text: string) | Item(text: string) | Row(cells: seq<string>)

  function AsRows(rows: seq<seq<string>>): (pieces: seq<Piece>)
    ensures |pieces| == |rows|
  {
    seq(|rows|, i requires 0 <= i < |rows| => Row(rows[i]))
  }

  function BlockPieces(b: Block): seq<Piece> {
    match b.kind
    case HEADING => [Title(b.level, b.text)]
    case LIST_ITEM => [Item(b.text)]
    case TABLE => AsRows(b.rows)
    case _ => []
  }

  function BlocksPieces(blocks: seq<Block>): seq<Piece> {
    if blocks == [] then [] else BlocksPieces(blocks[..|blocks| - 1]) + BlockPieces(blocks[|blocks| - 1])
  }

  function LinePieces(syntax: Syntax, line: string, inCode: bool): seq<Piece> {
    if KindOf(syntax, line) == Fence || inCode then []
    else if KindOf(syntax, line) == TableLine then (if IsSeparator(Cells(line)) then [] else [Row(Cells(line))])
    else if KindOf(syntax, line) == HeadingLine then
      [Title(Some(syntax.heading(line).value.0), Strip(syntax.heading(line).value.1))]
    else if KindOf(syntax, line) == ItemLine then [Item(Strip(syntax.item(line).value))]
    else []
  }

  function DocumentPieces(syntax: Syntax, lines: seq<string>, inCode: bool): seq<Piece> {
    if lines == [] then []
    else
      var init := lines[..|lines| - 1];
      DocumentPieces(syntax, init, inCode) + LinePieces(syntax, lines[|lines| - 1], CodeAfter(syntax, init, inCode))
  }

  lemma {:induction false} BlocksPiecesAppend(a: seq<Block>, b: seq<Block>)
    ensures BlocksPieces(a + b) == BlocksPieces(a) + BlocksPieces(b)
    decreases |b|
  {
    hide BlockPieces;
    if b == [] {
      assert a + b == a;
    } else {
      assert (a + b)[..|a + b| - 1] == a + b[..|b| - 1];
      BlocksPiecesAppend(a, b[..|b| - 1]);
    }
  }

  lemma BlocksPiecesOne(b: Block)
    ensures BlocksPieces([b]) == BlockPieces(b) && BlocksPieces([]) == []
  {
    hide BlockPieces;
    assert [b][..0] == [];
  }

  lemma DocumentPiecesSnoc(syntax: Syntax, lines: seq<string>, line: string, inCode: bool)
    ensures DocumentPieces(syntax, lines + [line], inCode)
            == DocumentPieces(syntax, lines, inCode) + LinePieces(syntax, line, CodeAfter(syntax, lines, inCode))
  {
    hide LinePieces, CodeAfter;
    assert (lines + [line])[..|lines|] == lines;
  }

  lemma {:induction false} DocumentPiecesAppend(syntax: Syntax, a: seq<string>, b: seq<string>, inCode: bool)
    ensures DocumentPieces(syntax, a + b, inCode)
            == DocumentPieces(syntax, a, inCode) + DocumentPieces(syntax, b, CodeAfter(syntax, a, inCode))
    decreases |b|
  {
    hide LinePieces, CodeAfter, DocumentPieces;
    var after := CodeAfter(syntax, a, inCode);
    if b == [] {
      DocumentPiecesOne(syntax, "", after);
      AppendNothing(a);
      AppendNothing(DocumentPieces(syntax, a, inCode));
    } else {
      var init, last := b[..|b| - 1], b[|b| - 1];
      DocumentPiecesAppend(syntax, a, init, inCode);
      DocumentInkAppend(syntax, a, init, inCode);
      AppendLast(a, b);
      DocumentPiecesSnoc(syntax, a + init, last, inCode);
      DocumentPiecesSnoc(syntax, init, last, after);
      AppendTwice(DocumentPieces(syntax, a, inCode), DocumentPieces(syntax, init, after), LinePieces(syntax, last, CodeAfter(syntax, init, after)));
    }
  }

  lemma AppendNothing<T>(a: seq<T>)
    ensures a + [] == a
  {
  }

  lemma AppendLast<T>(a: seq<T>, b: seq<T>)
    requires b != []
    ensures a + b == (a + b[..|b| - 1]) + [b[|b| - 1]] && b == b[..|b| - 1] + [b[|b| - 1]]
  {
  }

  lemma AppendTwice<T>(a: seq<T>, b: seq<T>, c: seq<T>)
    ensures (a + b) + c == a + (b + c)
  {
  }

  lemma DocumentPiecesOne(syntax: Syntax, line: string, inCode: bool)
    ensures DocumentPieces(syntax, [line], inCode) == LinePieces(syntax, line, inCode)
    ensures DocumentPieces(syntax, [], inCode) == []
  {
    hide LinePieces, KindOf;
    assert [line][..0] == [];
  }

  lemma {:induction false} PlainLinesHaveNoPieces(syntax: Syntax, lines: seq<string>, inCode: bool)
    requires if inCode then NoFence(syntax, lines) else AllOfKind(syntax, lines, TextLine)
    ensures DocumentPieces(syntax, lines, inCode) == []
  {
    hide KindOf;
    if lines != [] {
      PlainLinesHaveNoPieces(syntax, lines[..|lines| - 1], inCode);
      LinesInk(syntax, lines[..|lines| - 1], inCode);
    }
  }

  lemma {:induction false} TablePieces(syntax: Syntax, rows: seq<string>)
    requires AllOfKind(syntax, rows, TableLine)
    ensures DocumentPieces(syntax, rows, false) == AsRows(ParseTable(rows))
  {
    hide KindOf, Cells, IsSeparator, DocumentPieces, CodeAfter;
    DocumentPiecesOne(syntax, "", false);
    if rows != [] {
      var init, line := rows[..|rows| - 1], rows[|rows| - 1];
      TablePieces(syntax, init);
      TableInk(syntax, init);
      assert rows == init + [line];
      DocumentPiecesSnoc(syntax, init, line, false);
      hide ParseTable;
      OneRowMore(init, line);
    }
  }

  lemma OneRowMore(rows: seq<string>, line: string)
    ensures AsRows(ParseTable(rows + [line])) == AsRows(ParseTable(rows)) + if IsSeparator(Cells(line)) then [] else [Row(Cells(line))]
  {
    hide Cells, IsSeparator;
    assert (rows + [line])[..|rows|] == rows;
  }

  lemma CodeHasNoPieces(syntax: Syntax, s: Segment)
    requires s.CodeSegment? && Good(syntax, s)
    ensures BlocksPieces(Render(syntax, s)) == DocumentPieces(syntax, LinesOf(s), false) == []
  {
    hide KindOf, DocumentPieces, CodeAfter, BlocksPieces, Join;
    var last := if s.close.Some? then [s.close.value] else [];
    DocumentPiecesAppend(syntax, [s.fence] + s.body, last, false);
    DocumentPiecesAppend(syntax, [s.fence], s.body, false);
    DocumentPiecesOne(syntax, s.fence, false);
    DocumentInkOne(syntax, s.fence, false);
    var after := CodeAfter(syntax, [s.fence] + s.body, false);
    DocumentPiecesOne(syntax, if s.close.Some? then s.close.value else "", after);
    PlainLinesHaveNoPieces(syntax, s.body, true);
    BlocksPiecesOne(CodeBlock(s.body));
  }

  lemma TableSegmentPieces(syntax: Syntax, rows: seq<string>)
    requires AllOfKind(syntax, rows, TableLine)
    ensures BlocksPieces(Render(syntax, TableSegment(rows))) == DocumentPieces(syntax, rows, false)
  {
    hide KindOf, DocumentPieces, BlocksPieces, RenderRows, ParseTable;
    TablePieces(syntax, rows);
    BlocksPiecesOne(TableBlock(ParseTable(rows)));
  }

  lemma ProseSegmentPieces(syntax: Syntax, text: seq<string>)
    requires AllOfKind(syntax, text, TextLine)
    ensures BlocksPieces(Render(syntax, ProseSegment(text))) == DocumentPieces(syntax, text, false)
  {
    hide KindOf, DocumentPieces, BlocksPieces, JoinedProse;
    PlainLinesHaveNoPieces(syntax, text, false);
    BlocksPiecesOne(Block(PARAGRAPH, JoinedProse(text), None, None, []));
  }

  lemma LineSegmentPieces(syntax: Syntax, line: string)
    requires Good(syntax, LineSegment(line))
    ensures BlocksPieces(Render(syntax, LineSegment(line))) == DocumentPieces(syntax, [line], false)
  {
    hide DocumentPieces, BlocksPieces, IsTableLine, Strip;
    var blocks := Render(syntax, LineSegment(line));
    DocumentPiecesOne(syntax, line, false);
    BlocksPiecesOne(if blocks == [] then CodeBlock([]) else blocks[0]);
    assert blocks != [] ==> blocks == [blocks[0]];
  }

  lemma SegmentPieces(syntax: Syntax, s: Segment)
    requires Good(syntax, s)
    ensures BlocksPieces(Render(syntax, s)) == DocumentPieces(syntax, LinesOf(s), false)
  {
    hide KindOf, Render, DocumentPieces, BlocksPieces;
    match s
    case CodeSegment(_, _, _) => CodeHasNoPieces(syntax, s);
    case TableSegment(rows) => TableSegmentPieces(syntax, rows);
    case ProseSegment(text) => ProseSegmentPieces(syntax, text);
    case LineSegment(line) => LineSegmentPieces(syntax, line);
  }

  lemma {:induction false} SegmentsPieces(syntax: Syntax, segments: seq<Segment>)
    requires WellCut(syntax, segments)
    ensures BlocksPieces(RenderAll(syntax, segments)) == DocumentPieces(syntax, AllLines(segments), false)
  {
    hide BlocksPieces, DocumentPieces, CodeAfter, Good, Render, LinesOf;
    if segments == [] {
      BlocksPiecesOne(CodeBlock([]));
      DocumentPiecesOne(syntax, "", false);
    } else {
      var init, last := segments[..|segments| - 1], segments[|segments| - 1];
      SegmentsPieces(syntax, init);
      SegmentPieces(syntax, last);
      SegmentsInk(syntax, init);
      BlocksPiecesAppend(RenderAll(syntax, init), Render(syntax, last));
      DocumentPiecesAppend(syntax, AllLines(init), LinesOf(last), false);
      DocumentInkOne(syntax, "", false);
      assert init != [] ==> Follows(init[|init| - 1], last);
    }
  }

  /** And the structure is kept: the headings with their levels, the list items and the
      table rows with their cells are those of the lines outside code, in order. */
  lemma StructureIsKept(syntax: Syntax, lines: seq<string>)
    ensures BlocksPieces(RenderAll(syntax, Segments(syntax, lines))) == DocumentPieces(syntax, lines, false)
  {
    hide BlocksPieces, DocumentPieces, WellCut, RenderAll, Segments;
    SegmentsAreWellCut(syntax, lines);
    SegmentsPieces(syntax, Segments(syntax, lines));
    SegmentsCoverLines(syntax, lines);
  }

  // ---------------------------------------------------------------- how lines are put together

  lemma {:induction false} JoinedIsTrimmed(parts: seq<string>)
    requires parts != [] && forall i :: 0 <= i < |parts| ==> parts[i] != "" && Trimmed(parts[i])
    ensures Join(parts, " ") != "" && Trimmed(Join(parts, " "))
  {
    if |parts| > 1 {
      JoinedIsTrimmed(parts[1..]);
      var rest := Join(parts[1..], " ");
      assert Join(parts, " ")[0] == parts[0][0];
      assert Join(parts, " ")[|Join(parts, " ")| - 1] == rest[|rest| - 1];
    }
  }

  lemma TextIsTrimmed(syntax: Syntax, line: string)
    requires KindOf(syntax, line) == TextLine
    ensures Strip(line) != "" && Trimmed(Strip(line))
  {
    InkStrip(line);
  }

  /** The lines of a paragraph are stripped and set one space apart. */
  lemma ParagraphText(syntax: Syntax, text: seq<string>)
    requires text != [] && AllOfKind(syntax, text, TextLine)
    ensures JoinedProse(text) == Join(Stripped(text), " ")
    ensures |text| > 1 ==>
              var init, last := text[..|text| - 1], text[|text| - 1];
              JoinedProse(text) == JoinedProse(init) + " " + Strip(last)
    ensures |text| == 1 ==> JoinedProse(text) == Strip(text[0])
  {
    hide KindOf, Strip, Join;
    WholeParagraph(syntax, text);
    JoinOne(Strip(text[0]));
    if |text| > 1 {
      var init, last := text[..|text| - 1], text[|text| - 1];
      WholeParagraph(syntax, init);
      assert Stripped(text) == Stripped(init) + [Strip(last)];
      JoinSnoc(Stripped(init), Strip(last), " ");
    } else {
      assert Stripped(text) == [Strip(text[0])];
    }
  }

  lemma WholeParagraph(syntax: Syntax, text: seq<string>)
    requires text != [] && AllOfKind(syntax, text, TextLine)
    ensures JoinedProse(text) == Join(Stripped(text), " ")
  {
    hide KindOf, Strip, Join, Trimmed;
    var parts := Stripped(text);
    forall i | 0 <= i < |parts| ensures parts[i] != "" && Trimmed(parts[i]) {
      TextIsTrimmed(syntax, text[i]);
    }
    JoinedIsTrimmed(parts);
    TrimmedIsFixed(Join(parts, " "));
    assert JoinedProse(text) == Strip(Join(parts, " "));
  }

  /** Code lines are kept as they are, and rows too: one to a line. */
  lemma CodeAndTableText(body: seq<string>, line: string, rows: seq<seq<string>>, row: seq<string>)
    ensures CodeBlock(body + [line]).text == if body == [] then line else CodeBlock(body).text + "\n" + line
    ensures TableBlock(rows + [row]).text
            == if rows == [] then Join(row, " | ") else TableBlock(rows).text + "\n" + Join(row, " | ")
  {
    JoinSnoc(body, line, "\n");
    RowsSnoc(rows, row);
  }
}
