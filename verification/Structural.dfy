/** Structure-aware chunking: every chunk knows the section it is in, and every row
    of a table is a chunk of its own. */
module Structural {
  import opened Basics
  import opened Text
  import opened Packing

  datatype BlockType = HEADING | PARAGRAPH | LIST_ITEM | TABLE | CODE

  datatype Block = Block(kind: BlockType, text: string, level: Option<int>, page: Option<int>, rows: seq<seq<string>>)

  datatype ChunkMeta = ChunkMeta(sectionPath: seq<string>, blockType: BlockType, page: Option<int>)

  datatype Chunk = Chunk(text: string, meta: ChunkMeta)

  /** An open heading: its level and title. */
  datatype Open = Open(level: int, title: string)

  /** Both an absent level and level zero count as one. */
  function Level(b: Block): int {
    if b.level == None || b.level == Some(0) then 1 else b.level.value
  }

  // ---------------------------------------------------------------- sections, declaratively

  /** The heading at h still encloses position n: no heading in between is as shallow. */
  predicate Encloses(blocks: seq<Block>, h: nat, n: nat)
    requires h < n <= |blocks|
  {
    blocks[h].kind.HEADING? &&
    forall k :: h < k < n && blocks[k].kind.HEADING? ==> Level(blocks[k]) > Level(blocks[h])
  }

  /** The headings from h on that enclose position n. */
  function Enclosing(blocks: seq<Block>, h: nat, n: nat): seq<Open>
    requires h <= n <= |blocks|
    decreases n - h
  {
    if h == n then []
    else (if Encloses(blocks, h, n) then [Open(Level(blocks[h]), blocks[h].text)] else []) + Enclosing(blocks, h + 1, n)
  }

  function Titles(headings: seq<Open>): (t: seq<string>)
    ensures |t| == |headings|
  {
    seq(|headings|, i requires 0 <= i < |headings| => headings[i].title)
  }

  /** The section path at position n. */
  function PathAt(blocks: seq<Block>, n: nat): seq<string>
    requires n <= |blocks|
  {
    Titles(Enclosing(blocks, 0, n))
  }

  // ---------------------------------------------------------------- the stack computes it

  function PopTo(stack: seq<Open>, level: int): seq<Open> {
    if stack != [] && stack[|stack| - 1].level >= level then PopTo(stack[..|stack| - 1], level) else stack
  }

  function Shallower(stack: seq<Open>, level: int): seq<Open> {
    if stack == [] then []
    else (if stack[0].level < level then [stack[0]] else []) + Shallower(stack[1..], level)
  }

  predicate Deepening(stack: seq<Open>) {
    forall i, j :: 0 <= i < j < |stack| ==> stack[i].level < stack[j].level
  }

  predicate HeadingWithLevel(blocks: seq<Block>, h: nat, n: nat, level: int)
    requires h <= n <= |blocks|
  {
    exists k :: h <= k < n && blocks[k].kind.HEADING? && Level(blocks[k]) == level
  }

  lemma {:induction false} EnclosingHasLevels(blocks: seq<Block>, h: nat, n: nat)
    requires h <= n <= |blocks|
    ensures forall o :: o in Enclosing(blocks, h, n) ==> HeadingWithLevel(blocks, h, n, o.level)
    decreases n - h
  {
    hide HeadingWithLevel;
    if h < n {
      EnclosingHasLevels(blocks, h + 1, n);
      forall o | o in Enclosing(blocks, h, n) ensures HeadingWithLevel(blocks, h, n, o.level) {
        AHeadingMore(blocks, h, n, o.level);
      }
    }
  }

  lemma AHeadingMore(blocks: seq<Block>, h: nat, n: nat, level: int)
    requires h < n <= |blocks|
    ensures HeadingWithLevel(blocks, h, n, level)
            <==> HeadingWithLevel(blocks, h + 1, n, level) || (blocks[h].kind.HEADING? && Level(blocks[h]) == level)
  {
  }

  lemma AboveTheRest(blocks: seq<Block>, h: nat, n: nat, level: int)
    requires h < n <= |blocks| && Encloses(blocks, h, n) && HeadingWithLevel(blocks, h + 1, n, level)
    ensures Level(blocks[h]) < level
  {
  }

  lemma {:induction false} EnclosingDeepens(blocks: seq<Block>, h: nat, n: nat)
    requires h <= n <= |blocks|
    ensures Deepening(Enclosing(blocks, h, n))
    decreases n - h
  {
    hide HeadingWithLevel, Encloses;
    if h < n {
      EnclosingDeepens(blocks, h + 1, n);
      EnclosingHasLevels(blocks, h + 1, n);
      var rest := Enclosing(blocks, h + 1, n);
      if Encloses(blocks, h, n) {
        forall j | 0 <= j < |rest| ensures Level(blocks[h]) < rest[j].level {
          AboveTheRest(blocks, h, n, rest[j].level);
        }
      }
    }
  }

  lemma EnclosesStep(blocks: seq<Block>, h: nat, n: nat)
    requires h < n < |blocks|
    ensures Encloses(blocks, h, n + 1) <==>
            Encloses(blocks, h, n) && (blocks[n].kind.HEADING? ==> Level(blocks[h]) < Level(blocks[n]))
  {
  }

  /** One more block: a heading leaves the shallower ones open, others change nothing. */
  lemma {:induction false} EnclosingStep(blocks: seq<Block>, h: nat, n: nat)
    requires h <= n < |blocks|
    ensures Enclosing(blocks, h, n + 1)
            == if blocks[n].kind.HEADING?
               then Shallower(Enclosing(blocks, h, n), Level(blocks[n])) + [Open(Level(blocks[n]), blocks[n].text)]
               else Enclosing(blocks, h, n)
    decreases n - h
  {
    hide Encloses, Enclosing, Shallower;
    if h < n {
      EnclosingStep(blocks, h + 1, n);
      EnclosesStep(blocks, h, n);
      EnclosingUnfold(blocks, h, n);
      EnclosingUnfold(blocks, h, n + 1);
      var me, last := Open(Level(blocks[h]), blocks[h].text), Open(Level(blocks[n]), blocks[n].text);
      var rest := Enclosing(blocks, h + 1, n);
      ShallowerCons(me, rest, last.level);
      assert [] + Shallower(rest, last.level) == Shallower(rest, last.level);
      Associate([me], Shallower(rest, last.level), [last]);
    } else {
      EnclosingBase(blocks, n);
    }
  }

  lemma EnclosingBase(blocks: seq<Block>, n: nat)
    requires n < |blocks|
    ensures Enclosing(blocks, n, n) == [] && forall level :: Shallower(Enclosing(blocks, n, n), level) == []
    ensures Enclosing(blocks, n, n + 1)
            == if blocks[n].kind.HEADING? then [Open(Level(blocks[n]), blocks[n].text)] else []
  {
    assert Encloses(blocks, n, n + 1) <==> blocks[n].kind.HEADING?;
    assert Enclosing(blocks, n + 1, n + 1) == [];
  }

  lemma Associate(a: seq<Open>, b: seq<Open>, c: seq<Open>)
    ensures a + (b + c) == (a + b) + c
  {
  }

  lemma EnclosingUnfold(blocks: seq<Block>, h: nat, n: nat)
    requires h < n <= |blocks|
    ensures var rest := Enclosing(blocks, h + 1, n);
            Enclosing(blocks, h, n)
            == if Encloses(blocks, h, n) then [Open(Level(blocks[h]), blocks[h].text)] + rest else rest
  {
    hide Encloses;
  }

  lemma ShallowerCons(first: Open, rest: seq<Open>, level: int)
    ensures Shallower([first] + rest, level) == (if first.level < level then [first] else []) + Shallower(rest, level)
  {
    assert ([first] + rest)[1..] == rest;
  }

  lemma {:induction false} ShallowerSnoc(stack: seq<Open>, last: Open, level: int)
    ensures Shallower(stack + [last], level) == Shallower(stack, level) + if last.level < level then [last] else []
  {
    if stack == [] {
      assert stack + [last] == [last];
    } else {
      assert (stack + [last])[1..] == stack[1..] + [last];
      ShallowerSnoc(stack[1..], last, level);
    }
  }

  lemma {:induction false} AllShallower(stack: seq<Open>, level: int)
    requires forall i :: 0 <= i < |stack| ==> stack[i].level < level
    ensures Shallower(stack, level) == stack
  {
    if stack == [] {
    } else {
      AllShallower(stack[1..], level);
    }
  }

  /** On a deepening stack, popping from the top is filtering. */
  lemma {:induction false} PopIsFilter(stack: seq<Open>, level: int)
    requires Deepening(stack)
    ensures PopTo(stack, level) == Shallower(stack, level)
  {
    if stack == [] {
      assert Shallower(stack, level) == [];
    } else {
      hide Shallower;
      var init, last := stack[..|stack| - 1], stack[|stack| - 1];
      assert stack == init + [last];
      ShallowerSnoc(init, last, level);
      if last.level >= level {
        PopIsFilter(init, level);
      } else {
        AllShallower(init, level);
      }
    }
  }

  // ---------------------------------------------------------------- chunks, declaratively

  predicate IsProse(b: Block) { !b.kind.HEADING? && !b.kind.TABLE? }

  /** Where the run of prose blocks that ends at n begins. */
  function RunStart(blocks: seq<Block>, n: nat): (s: nat)
    requires n <= |blocks|
    ensures s <= n && (forall k :: s <= k < n ==> IsProse(blocks[k]))
    ensures s == 0 || !IsProse(blocks[s - 1])
  {
    if n > 0 && IsProse(blocks[n - 1]) then RunStart(blocks, n - 1) else n
  }

  /** The stripped texts of blocks s..n that are not blank. */
  function Contents(blocks: seq<Block>, s: nat, n: nat): seq<string>
    requires s <= n <= |blocks|
  {
    if s == n then []
    else
      var text := Strip(blocks[n - 1].text);
      Contents(blocks, s, n - 1) + if text == "" then [] else [text]
  }

  function Stamp(texts: seq<string>, meta: ChunkMeta): (chunks: seq<Chunk>)
    ensures |chunks| == |texts|
  {
    seq(|texts|, i requires 0 <= i < |texts| => Chunk(texts[i], meta))
  }

  function ProseChunks(split: string -> seq<string>, contents: seq<string>, path: seq<string>): seq<Chunk> {
    if contents == [] then []
    else Stamp(Packed(split(Join(contents, GAP))), ChunkMeta(path, PARAGRAPH, None))
  }

  predicate BlankRow(row: seq<string>) { forall i :: 0 <= i < |row| ==> Strip(row[i]) == "" }

  function SolidRows(rows: seq<seq<string>>): seq<seq<string>> {
    if rows == [] then [] else (if BlankRow(rows[0]) then [] else [rows[0]]) + SolidRows(rows[1..])
  }

  function Prefix(path: seq<string>): string {
    if path == [] then "" else "[" + Join(path, " > ") + "] "
  }

  function RowText(path: seq<string>, header: Option<seq<string>>, row: seq<string>): string {
    match header
    case None => Prefix(path) + Join(row, " | ")
    case Some(h) => Prefix(path) + Join(h, " | ") + "\n" + Join(row, " | ")
  }

  /** The first solid row is the header, unless it is the only one. */
  function TableChunks(b: Block, path: seq<string>): seq<Chunk> {
    var rows := SolidRows(b.rows);
    var meta := ChunkMeta(path, TABLE, b.page);
    if rows == [] then []
    else if |rows| == 1 then [Chunk(RowText(path, None, rows[0]), meta)]
    else seq(|rows| - 1, k requires 0 <= k < |rows| - 1 => Chunk(RowText(path, Some(rows[0]), rows[k + 1]), meta))
  }

  /** The chunks due at position n: the prose that ends there, then the table there. */
  function DueAt(split: string -> seq<string>, blocks: seq<Block>, n: nat): seq<Chunk>
    requires n <= |blocks|
  {
    (if n == |blocks| || !IsProse(blocks[n])
     then ProseChunks(split, Contents(blocks, RunStart(blocks, n), n), PathAt(blocks, RunStart(blocks, n)))
     else [])
    + (if n < |blocks| && blocks[n].kind.TABLE? then TableChunks(blocks[n], PathAt(blocks, n)) else [])
  }

  function DueBefore(split: string -> seq<string>, blocks: seq<Block>, n: nat): seq<Chunk>
    requires n <= |blocks| + 1
  {
    if n == 0 then [] else DueBefore(split, blocks, n - 1) + DueAt(split, blocks, n - 1)
  }

  /** All chunks of a document, each with the section of the blocks it came from. */
  function ChunksOf(split: string -> seq<string>, blocks: seq<Block>): seq<Chunk> {
    DueBefore(split, blocks, |blocks| + 1)
  }

  /** Prose is flushed late, but still in the section in which its run began. */
  lemma {:induction false} SameSection(blocks: seq<Block>, s: nat, n: nat)
    requires s <= n <= |blocks| && forall k :: s <= k < n ==> !blocks[k].kind.HEADING?
    ensures Enclosing(blocks, 0, s) == Enclosing(blocks, 0, n)
    decreases n - s
  {
    if s < n {
      EnclosingStep(blocks, 0, s);
      SameSection(blocks, s + 1, n);
    }
  }

  // ---------------------------------------------------------------- the methods

  predicate Aligned(texts: seq<string>, metas: seq<ChunkMeta>, chunks: seq<Chunk>) {
    |texts| == |metas| == |chunks| && forall i :: 0 <= i < |chunks| ==> chunks[i] == Chunk(texts[i], metas[i])
  }

  lemma AlignedMore(texts: seq<string>, metas: seq<ChunkMeta>, chunks: seq<Chunk>, chunk: Chunk)
    requires Aligned(texts, metas, chunks)
    ensures Aligned(texts + [chunk.text], metas + [chunk.meta], chunks + [chunk])
  {
  }

  /** The table's chunks, one for each data row. */
  lemma TableChunksAre(b: Block, path: seq<string>)
    ensures var rows, due := SolidRows(b.rows), TableChunks(b, path);
            var header := if |rows| > 1 then Some(rows[0]) else None;
            var data := if |rows| > 1 then rows[1..] else rows;
            && |due| == |data|
            && forall i :: 0 <= i < |due| ==> due[i] == Chunk(RowText(path, header, data[i]), ChunkMeta(path, TABLE, b.page))
  {
    hide SolidRows, RowText;
  }

  method EmitTable(b: Block, path: seq<string>, texts: seq<string>, metas: seq<ChunkMeta>, ghost chunks: seq<Chunk>)
    returns (texts': seq<string>, metas': seq<ChunkMeta>)
    requires Aligned(texts, metas, chunks)
    ensures Aligned(texts', metas', chunks + TableChunks(b, path))
  {
    hide Aligned, TableChunks, SolidRows, RowText;
    texts', metas' := texts, metas;
    var rows := SolidRows(b.rows);
    ghost var due := TableChunks(b, path);
    TableChunksAre(b, path);
    assert chunks + due[..0] == chunks;
    if rows == [] {
      return;
    }
    var hasHeader := |rows| > 1;
    var header := if hasHeader then Some(rows[0]) else None;
    var data := if hasHeader then rows[1..] else rows;
    var i := 0;
    while i < |data|
      invariant 0 <= i <= |data|
      invariant Aligned(texts', metas', chunks + due[..i])
    {
      AlignedMore(texts', metas', chunks + due[..i], due[i]);
      assert due[..i + 1] == due[..i] + [due[i]];
      assert chunks + due[..i + 1] == (chunks + due[..i]) + [due[i]];
      texts' := texts' + [RowText(path, header, data[i])];
      metas' := metas' + [ChunkMeta(path, TABLE, b.page)];
      i := i + 1;
    }
    assert due[..i] == due;
  }

  method FlushProse(split: string -> seq<string>, prose: seq<string>, path: seq<string>,
                    texts: seq<string>, metas: seq<ChunkMeta>, ghost chunks: seq<Chunk>)
    returns (texts': seq<string>, metas': seq<ChunkMeta>)
    requires Aligned(texts, metas, chunks)
    ensures Aligned(texts', metas', chunks + ProseChunks(split, prose, path))
  {
    hide Aligned, Packed, Join;
    texts', metas' := texts, metas;
    ghost var due := ProseChunks(split, prose, path);
    assert chunks + due[..0] == chunks;
    if prose == [] {
      return;
    }
    var pieces := Pack(split(Join(prose, GAP)));
    assert due == Stamp(pieces, ChunkMeta(path, PARAGRAPH, None));
    hide ProseChunks;
    var i := 0;
    while i < |pieces|
      invariant 0 <= i <= |pieces|
      invariant Aligned(texts', metas', chunks + due[..i])
    {
      AlignedMore(texts', metas', chunks + due[..i], due[i]);
      assert due[..i + 1] == due[..i] + [due[i]];
      assert chunks + due[..i + 1] == (chunks + due[..i]) + [due[i]];
      texts' := texts' + [pieces[i]];
      metas' := metas' + [ChunkMeta(path, PARAGRAPH, None)];
      i := i + 1;
    }
    assert due[..i] == due;
  }

  /** What is due at a heading, at a table, at prose, and at the end. */
  lemma DueSteps(split: string -> seq<string>, blocks: seq<Block>, n: nat)
    requires n <= |blocks|
    ensures var prose := ProseChunks(split, Contents(blocks, RunStart(blocks, n), n), PathAt(blocks, n));
            && (n == |blocks| ==> DueAt(split, blocks, n) == prose)
            && (n < |blocks| && blocks[n].kind.HEADING? ==> DueAt(split, blocks, n) == prose)
            && (n < |blocks| && blocks[n].kind.TABLE? ==>
                  DueAt(split, blocks, n) == prose + TableChunks(blocks[n], PathAt(blocks, n)))
            && (n < |blocks| && IsProse(blocks[n]) ==> DueAt(split, blocks, n) == [])
            && DueBefore(split, blocks, n + 1) == DueBefore(split, blocks, n) + DueAt(split, blocks, n)
  {
    hide ProseChunks, TableChunks, Enclosing, Contents;
    SameSection(blocks, RunStart(blocks, n), n);
  }

  lemma ContentsStep(blocks: seq<Block>, n: nat)
    requires n < |blocks|
    ensures Contents(blocks, RunStart(blocks, n + 1), n + 1)
            == if !IsProse(blocks[n]) then []
               else Contents(blocks, RunStart(blocks, n), n) + if Strip(blocks[n].text) == "" then [] else [Strip(blocks[n].text)]
  {
  }

  method ChunkBlocks(split: string -> seq<string>, blocks: seq<Block>)
    returns (texts: seq<string>, metas: seq<ChunkMeta>)
    ensures Aligned(texts, metas, ChunksOf(split, blocks))
  {
    hide Enclosing, Contents, RunStart, ProseChunks, TableChunks, DueAt, Strip, PopTo, Shallower, Aligned;
    texts, metas := [], [];
    var stack: seq<Open> := [];
    var prose: seq<string> := [];
    var i := 0;
    NothingYet(blocks);
    while i < |blocks|
      invariant 0 <= i <= |blocks|
      invariant stack == Enclosing(blocks, 0, i)
      invariant prose == Contents(blocks, RunStart(blocks, i), i)
      invariant Aligned(texts, metas, DueBefore(split, blocks, i))
    {
      var b := blocks[i];
      ghost var chunks := DueBefore(split, blocks, i);
      EnclosingStep(blocks, 0, i);
      DueSteps(split, blocks, i);
      ContentsStep(blocks, i);
      if b.kind.HEADING? {
        texts, metas := FlushProse(split, prose, Titles(stack), texts, metas, chunks);
        prose := [];
        stack := Climb(stack, Level(b), blocks, i);
        stack := stack + [Open(Level(b), b.text)];
      } else if b.kind.TABLE? {
        texts, metas := FlushProse(split, prose, Titles(stack), texts, metas, chunks);
        chunks := chunks + ProseChunks(split, prose, Titles(stack));
        prose := [];
        texts, metas := EmitTable(b, Titles(stack), texts, metas, chunks);
        assert chunks + TableChunks(b, Titles(stack)) == DueBefore(split, blocks, i + 1);
      } else {
        var content := Strip(b.text);
        if content != "" {
          prose := prose + [content];
        }
        assert DueBefore(split, blocks, i + 1) == chunks;
      }
      i := i + 1;
    }
    DueSteps(split, blocks, i);
    texts, metas := FlushProse(split, prose, Titles(stack), texts, metas, DueBefore(split, blocks, i));
  }

  lemma NothingYet(blocks: seq<Block>)
    ensures Enclosing(blocks, 0, 0) == [] && Contents(blocks, RunStart(blocks, 0), 0) == []
    ensures Aligned([], [], [])
  {
  }

  /** The inner loop: headings at least as deep as the new one are closed. */
  method Climb(stack: seq<Open>, level: int, ghost blocks: seq<Block>, ghost n: nat) returns (rest: seq<Open>)
    requires n <= |blocks| && stack == Enclosing(blocks, 0, n)
    ensures rest == Shallower(stack, level)
  {
    EnclosingDeepens(blocks, 0, n);
    PopIsFilter(stack, level);
    rest := stack;
    while rest != [] && rest[|rest| - 1].level >= level
      invariant PopTo(rest, level) == PopTo(stack, level)
    {
      rest := rest[..|rest| - 1];
    }
  }

  // ---------------------------------------------------------------- consequences

  /** A title is in the path exactly when its heading encloses the position, and the
      path goes from shallow to deep. */
  lemma {:induction false} PathIsEnclosingHeadings(blocks: seq<Block>, h: nat, n: nat, heading: Open)
    requires h <= n <= |blocks|
    ensures heading in Enclosing(blocks, h, n) <==>
            exists k :: h <= k < n && Encloses(blocks, k, n) && heading == Open(Level(blocks[k]), blocks[k].text)
    ensures Deepening(Enclosing(blocks, h, n))
    decreases n - h
  {
    EnclosingDeepens(blocks, h, n);
    if h < n {
      PathIsEnclosingHeadings(blocks, h + 1, n, heading);
      if heading in Enclosing(blocks, h + 1, n) {
        var k :| h + 1 <= k < n && Encloses(blocks, k, n) && heading == Open(Level(blocks[k]), blocks[k].text);
      }
      if exists k :: h <= k < n && Encloses(blocks, k, n) && heading == Open(Level(blocks[k]), blocks[k].text) {
        var k :| h <= k < n && Encloses(blocks, k, n) && heading == Open(Level(blocks[k]), blocks[k].text);
        assert k == h || heading in Enclosing(blocks, h + 1, n);
      }
    }
  }

  /** `at` lists the places of the non-blank rows, first to last. */
  ghost predicate SolidPlaces(rows: seq<seq<string>>, at: seq<nat>) {
    && (forall k :: 0 <= k < |at| ==> at[k] < |rows| && !BlankRow(rows[at[k]]))
    && (forall j, k :: 0 <= j < k < |at| ==> at[j] < at[k])
    && (forall m :: 0 <= m < |rows| && !BlankRow(rows[m]) ==> m in at)
  }

  function Places(rows: seq<seq<string>>, i: nat): seq<nat>
    requires i <= |rows|
    decreases |rows| - i
  {
    if i == |rows| then [] else (if BlankRow(rows[i]) then [] else [i]) + Places(rows, i + 1)
  }

  lemma {:induction false} PlacesAreSolid(rows: seq<seq<string>>, i: nat)
    requires i <= |rows|
    ensures forall k :: 0 <= k < |Places(rows, i)| ==> i <= Places(rows, i)[k] < |rows| && !BlankRow(rows[Places(rows, i)[k]])
    ensures forall j, k :: 0 <= j < k < |Places(rows, i)| ==> Places(rows, i)[j] < Places(rows, i)[k]
    decreases |rows| - i
  {
    hide BlankRow;
    if i == |rows| {
      assert Places(rows, i) == [];
    } else {
      PlacesAreSolid(rows, i + 1);
    }
  }

  lemma {:induction false} PlacesAreAll(rows: seq<seq<string>>, i: nat, m: nat)
    requires i <= m < |rows| && !BlankRow(rows[m])
    ensures m in Places(rows, i)
    decreases |rows| - i
  {
    hide BlankRow;
    if i < m {
      PlacesAreAll(rows, i + 1, m);
    }
  }

  lemma {:induction false} RowsAtPlaces(rows: seq<seq<string>>, i: nat)
    requires i <= |rows|
    ensures |SolidRows(rows[i..])| == |Places(rows, i)|
    ensures forall k :: 0 <= k < |Places(rows, i)| ==> Places(rows, i)[k] < |rows| && SolidRows(rows[i..])[k] == rows[Places(rows, i)[k]]
    decreases |rows| - i
  {
    hide BlankRow;
    if i < |rows| {
      var rest, tail := Places(rows, i + 1), SolidRows(rows[i + 1..]);
      RowsAtPlaces(rows, i + 1);
      assert rows[i..][0] == rows[i] && rows[i..][1..] == rows[i + 1..];
      assert Places(rows, i) == (if BlankRow(rows[i]) then rest else [i] + rest);
      assert SolidRows(rows[i..]) == (if BlankRow(rows[i]) then tail else [rows[i]] + tail);
    }
  }

  /** The rows kept are exactly the non-blank ones, in their order. */
  lemma SolidRowsAreTheSolidOnes(rows: seq<seq<string>>) returns (at: seq<nat>)
    ensures SolidPlaces(rows, at) && |at| == |SolidRows(rows)|
    ensures forall k :: 0 <= k < |at| ==> SolidRows(rows)[k] == rows[at[k]]
  {
    hide BlankRow, Places, SolidRows;
    at := Places(rows, 0);
    PlacesAreSolid(rows, 0);
    RowsAtPlaces(rows, 0);
    assert rows[0..] == rows;
    forall m | 0 <= m < |rows| && !BlankRow(rows[m]) ensures m in at {
      PlacesAreAll(rows, 0, m);
    }
  }

  /** And each is kept as often as it occurs. */
  lemma {:induction false} SolidRowsKeepCounts(rows: seq<seq<string>>, r: seq<string>)
    ensures multiset(SolidRows(rows))[r] == if BlankRow(r) then 0 else multiset(rows)[r]
  {
    hide BlankRow;
    if rows == [] {
      assert SolidRows(rows) == [];
    } else {
      SolidRowsKeepCounts(rows[1..], r);
      assert rows == [rows[0]] + rows[1..];
    }
  }

  /** Each non-blank data row is one chunk of its own, in order, with the header row in
      front; a table of a single non-blank row is one chunk without a header. */
  lemma TableRowsAreChunks(b: Block, path: seq<string>) returns (at: seq<nat>)
    ensures SolidPlaces(b.rows, at)
    ensures var chunks := TableChunks(b, path);
            && |chunks| == (if |at| > 1 then |at| - 1 else |at|)
            && (forall k :: 0 <= k < |chunks| ==> chunks[k].meta == ChunkMeta(path, TABLE, b.page))
            && (|at| > 1 ==> forall k :: 0 <= k < |chunks| ==>
                  chunks[k].text == Prefix(path) + Join(b.rows[at[0]], " | ") + "\n" + Join(b.rows[at[k + 1]], " | "))
            && (|at| == 1 ==> chunks[0].text == Prefix(path) + Join(b.rows[at[0]], " | "))
  {
    hide SolidRows, Prefix, Join, BlankRow;
    at := SolidRowsAreTheSolidOnes(b.rows);
    var rows, chunks := SolidRows(b.rows), TableChunks(b, path);
    if |rows| > 1 {
      forall k | 0 <= k < |chunks|
        ensures chunks[k].text == Prefix(path) + Join(b.rows[at[0]], " | ") + "\n" + Join(b.rows[at[k + 1]], " | ")
      {
        assert chunks[k] == Chunk(RowText(path, Some(rows[0]), rows[k + 1]), ChunkMeta(path, TABLE, b.page));
      }
    }
  }
}
