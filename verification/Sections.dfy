/** What the chunks of a document say, in terms of the blocks' own fields: the section
    path by heading levels, the text before a table row, and that no prose is lost. */
module Sections {
  import opened Basics
  import opened Text
  import opened Packing
  import opened Structural

  // ---------------------------------------------------------------- the section path

  /** The heading is of this level; an absent level and zero count as one. */
  predicate IsLevel(b: Block, level: int) {
    if b.level.Some? && b.level.value != 0 then b.level == Some(level) else level == 1
  }

  /** Heading h is open at position n: no heading after it is as shallow as it is. */
  ghost predicate OpenAt(blocks: seq<Block>, h: nat, n: nat) {
    && h < n <= |blocks| && blocks[h].kind.HEADING?
    && forall k, i, j :: h < k < n && blocks[k].kind.HEADING? && IsLevel(blocks[h], i) && IsLevel(blocks[k], j) ==> i < j
  }

  lemma EnclosesIsOpen(blocks: seq<Block>, h: nat, n: nat)
    requires h < n <= |blocks|
    ensures Encloses(blocks, h, n) <==> OpenAt(blocks, h, n)
  {
    if OpenAt(blocks, h, n) {
      forall k | h < k < n && blocks[k].kind.HEADING? ensures Level(blocks[k]) > Level(blocks[h]) {
        assert IsLevel(blocks[h], Level(blocks[h])) && IsLevel(blocks[k], Level(blocks[k]));
      }
    }
  }

  /** The places of the headings from h on that are open at n. */
  ghost function OpenPlaces(blocks: seq<Block>, h: nat, n: nat): seq<nat>
    requires h <= n <= |blocks|
    decreases n - h
  {
    if h == n then [] else (if OpenAt(blocks, h, n) then [h] else []) + OpenPlaces(blocks, h + 1, n)
  }

  lemma {:induction false} OpenPlacesAre(blocks: seq<Block>, h: nat, n: nat)
    requires h <= n <= |blocks|
    ensures forall k: nat :: k in OpenPlaces(blocks, h, n) <==> h <= k && OpenAt(blocks, k, n)
    ensures Rising(OpenPlaces(blocks, h, n))
    decreases n - h
  {
    hide OpenAt;
    if h < n {
      var rest := OpenPlaces(blocks, h + 1, n);
      OpenPlacesAre(blocks, h + 1, n);
      assert forall i :: 0 <= i < |rest| ==> rest[i] in rest;
      assert OpenAt(blocks, h, n) ==> OpenPlaces(blocks, h, n) == [h] + rest;
      assert !OpenAt(blocks, h, n) ==> OpenPlaces(blocks, h, n) == rest;
    } else {
      OpenIsBefore(blocks, n);
    }
  }

  lemma OpenIsBefore(blocks: seq<Block>, n: nat)
    ensures forall k: nat :: OpenAt(blocks, k, n) ==> k < n
  {
  }

  predicate Rising(at: seq<nat>) { forall i, j :: 0 <= i < j < |at| ==> at[i] < at[j] }

  lemma {:induction false} TitlesAtPlaces(blocks: seq<Block>, h: nat, n: nat)
    requires h <= n <= |blocks|
    ensures var at, headings := OpenPlaces(blocks, h, n), Enclosing(blocks, h, n);
            |headings| == |at| && forall i :: 0 <= i < |at| ==> h <= at[i] < n && headings[i].title == blocks[at[i]].text
    decreases n - h
  {
    hide OpenAt, Encloses, Level;
    if h < n {
      EnclosesIsOpen(blocks, h, n);
      TitlesAtPlaces(blocks, h + 1, n);
      var at, headings := OpenPlaces(blocks, h + 1, n), Enclosing(blocks, h + 1, n);
      if OpenAt(blocks, h, n) {
        assert OpenPlaces(blocks, h, n) == [h] + at;
        assert Enclosing(blocks, h, n) == [Open(Level(blocks[h]), blocks[h].text)] + headings;
      } else {
        assert OpenPlaces(blocks, h, n) == at && Enclosing(blocks, h, n) == headings;
      }
    }
  }

  /** The section path at n: the titles, in document order, of exactly the headings
      before n after which no heading is as shallow. */
  lemma PathIsByLevels(blocks: seq<Block>, n: nat) returns (at: seq<nat>)
    requires n <= |blocks|
    ensures Rising(at) && forall h: nat :: h in at <==> OpenAt(blocks, h, n)
    ensures |PathAt(blocks, n)| == |at|
    ensures forall i :: 0 <= i < |at| ==> at[i] < |blocks| && PathAt(blocks, n)[i] == blocks[at[i]].text
  {
    hide OpenAt;
    at := OpenPlaces(blocks, 0, n);
    OpenPlacesAre(blocks, 0, n);
    TitlesAtPlaces(blocks, 0, n);
  }

  /** The text before a table row names the path from the outside in. */
  lemma PrefixByParts(path: seq<string>, title: string)
    ensures Prefix([]) == "" && Prefix([title]) == "[" + title + "] "
    ensures path != [] ==> Prefix(path) == "[" + Join(path, " > ") + "] " && Prefix(path + [title]) == "[" + Join(path, " > ") + " > " + title + "] "
  {
    JoinSnoc(path, title, " > ");
  }

  // ---------------------------------------------------------------- no prose is lost

  /** A splitter that drops at most white space. */
  ghost predicate KeepsInk(split: string -> seq<string>) {
    forall text :: Ink(Flatten(split(text))) == Ink(text)
  }

  /** The ink of the prose blocks from s up to n. */
  function ProseInk(blocks: seq<Block>, s: nat, n: nat): string
    requires s <= n <= |blocks|
  {
    if s == n then "" else ProseInk(blocks, s, n - 1) + if IsProse(blocks[n - 1]) then Ink(blocks[n - 1].text) else ""
  }

  /** The texts of the prose chunks. */
  function ProseTexts(chunks: seq<Chunk>): seq<string> {
    if chunks == [] then []
    else
      var init, last := ProseTexts(chunks[..|chunks| - 1]), chunks[|chunks| - 1];
      if last.meta.blockType.PARAGRAPH? then init + [last.text] else init
  }

  lemma {:induction false} ProseTextsAppend(a: seq<Chunk>, b: seq<Chunk>)
    ensures ProseTexts(a + b) == ProseTexts(a) + ProseTexts(b)
    decreases |b|
  {
    if b == [] {
      assert a + b == a;
    } else {
      assert (a + b)[..|a + b| - 1] == a + b[..|b| - 1];
      ProseTextsAppend(a, b[..|b| - 1]);
    }
  }

  lemma {:induction false} ProseTextsOfStamp(texts: seq<string>, meta: ChunkMeta)
    requires meta.blockType.PARAGRAPH?
    ensures ProseTexts(Stamp(texts, meta)) == texts
  {
    if texts != [] {
      var init := texts[..|texts| - 1];
      assert Stamp(texts, meta)[..|texts| - 1] == Stamp(init, meta);
      ProseTextsOfStamp(init, meta);
    }
  }

  lemma {:induction false} NoProseInTables(chunks: seq<Chunk>)
    requires forall i :: 0 <= i < |chunks| ==> chunks[i].meta.blockType.TABLE?
    ensures ProseTexts(chunks) == []
  {
    if chunks != [] {
      NoProseInTables(chunks[..|chunks| - 1]);
    }
  }

  lemma TableChunksAreTables(b: Block, path: seq<string>)
    ensures ProseTexts(TableChunks(b, path)) == []
  {
    hide SolidRows, RowText;
    NoProseInTables(TableChunks(b, path));
  }

  lemma {:induction false} ContentsInk(blocks: seq<Block>, s: nat, n: nat)
    requires s <= n <= |blocks| && forall k :: s <= k < n ==> IsProse(blocks[k])
    ensures Ink(Flatten(Contents(blocks, s, n))) == ProseInk(blocks, s, n)
    decreases n
  {
    hide Ink, Strip, Flatten;
    if s == n {
      NoInk();
    } else {
      var text := Strip(blocks[n - 1].text);
      ContentsInk(blocks, s, n - 1);
      InkStrip(blocks[n - 1].text);
      OneMoreInk(Contents(blocks, s, n - 1), text);
    }
  }

  lemma OneMoreInk(parts: seq<string>, text: string)
    ensures Ink(Flatten(parts + if text == "" then [] else [text])) == Ink(Flatten(parts)) + Ink(text)
  {
    hide Ink, Flatten;
    NoInk();
    FlattenAppend(parts, if text == "" then [] else [text]);
    FlattenOne(text);
    InkConcat(Flatten(parts), text);
    assert Flatten(parts) + "" == Flatten(parts) && Ink(Flatten(parts)) + "" == Ink(Flatten(parts));
  }

  lemma NoInk()
    ensures Ink("") == "" && Flatten([]) == ""
  {
  }

  lemma ProseChunksInk(split: string -> seq<string>, contents: seq<string>, path: seq<string>)
    requires KeepsInk(split)
    ensures Ink(Flatten(ProseTexts(ProseChunks(split, contents, path)))) == Ink(Flatten(contents))
  {
    hide Ink, Packed, Join, Flatten, ProseTexts;
    if contents == [] {
      NoProseInTables([]);
    } else {
      var pieces := split(Join(contents, GAP));
      ProseTextsOfStamp(Packed(pieces), ChunkMeta(path, PARAGRAPH, None));
      PackedKeepsInk(pieces);
      InkOfGap();
      InkJoin(contents, GAP);
    }
  }

  lemma {:induction false} ProseInkSplit(blocks: seq<Block>, s: nat, m: nat, n: nat)
    requires s <= m <= n <= |blocks|
    ensures ProseInk(blocks, s, n) == ProseInk(blocks, s, m) + ProseInk(blocks, m, n)
    decreases n
  {
    hide Ink, IsProse;
    if m < n {
      ProseInkSplit(blocks, s, m, n - 1);
    }
  }

  /** Before position n the chunks carry all prose but that of the run still open. */
  lemma {:induction false} DueInk(split: string -> seq<string>, blocks: seq<Block>, n: nat)
    requires KeepsInk(split) && n <= |blocks|
    ensures Ink(Flatten(ProseTexts(DueBefore(split, blocks, n)))) == ProseInk(blocks, 0, RunStart(blocks, n))
    decreases n
  {
    hide Ink, Flatten, ProseTexts, Contents, ProseChunks, TableChunks, PathAt, ProseInk, KeepsInk;
    if n == 0 {
      NothingDue(split, blocks);
    } else {
      DueInk(split, blocks, n - 1);
      DueAtInk(split, blocks, n - 1);
      var before, at := DueBefore(split, blocks, n - 1), DueAt(split, blocks, n - 1);
      ProseTextsAppend(before, at);
      FlattenAppend(ProseTexts(before), ProseTexts(at));
      InkConcat(Flatten(ProseTexts(before)), Flatten(ProseTexts(at)));
      RunsMeet(blocks, n);
    }
  }

  lemma NothingDue(split: string -> seq<string>, blocks: seq<Block>)
    ensures Ink(Flatten(ProseTexts(DueBefore(split, blocks, 0)))) == ProseInk(blocks, 0, RunStart(blocks, 0)) == ""
  {
  }

  /** What is due at n is the prose of the run that ends there. */
  lemma DueAtInk(split: string -> seq<string>, blocks: seq<Block>, n: nat)
    requires KeepsInk(split) && n <= |blocks|
    ensures Ink(Flatten(ProseTexts(DueAt(split, blocks, n))))
            == if n == |blocks| || !IsProse(blocks[n]) then ProseInk(blocks, RunStart(blocks, n), n) else ""
  {
    hide Ink, Flatten, ProseTexts, Contents, ProseChunks, TableChunks, PathAt, ProseInk, KeepsInk;
    var s := RunStart(blocks, n);
    var prose := if n == |blocks| || !IsProse(blocks[n]) then ProseChunks(split, Contents(blocks, s, n), PathAt(blocks, s)) else [];
    var table := if n < |blocks| && blocks[n].kind.TABLE? then TableChunks(blocks[n], PathAt(blocks, n)) else [];
    assert DueAt(split, blocks, n) == prose + table;
    ProseTextsAppend(prose, table);
    if n < |blocks| && blocks[n].kind.TABLE? {
      TableChunksAreTables(blocks[n], PathAt(blocks, n));
    }
    NoProseInTables([]);
    assert ProseTexts(prose) + [] == ProseTexts(prose);
    ProseChunksInk(split, Contents(blocks, s, n), PathAt(blocks, s));
    ContentsInk(blocks, s, n);
    NoInk();
  }

  lemma RunsMeet(blocks: seq<Block>, n: nat)
    requires 0 < n <= |blocks|
    ensures ProseInk(blocks, 0, RunStart(blocks, n))
            == ProseInk(blocks, 0, RunStart(blocks, n - 1))
               + if !IsProse(blocks[n - 1]) then ProseInk(blocks, RunStart(blocks, n - 1), n - 1) else ""
  {
    if !IsProse(blocks[n - 1]) {
      ProseInkSplit(blocks, 0, RunStart(blocks, n - 1), n - 1);
    }
  }

  /** All prose of a document, and nothing else, is in its prose chunks, in order. */
  lemma ProseIsKept(split: string -> seq<string>, blocks: seq<Block>)
    requires KeepsInk(split)
    ensures Ink(Flatten(ProseTexts(ChunksOf(split, blocks)))) == ProseInk(blocks, 0, |blocks|)
  {
    hide Ink, Flatten, ProseTexts, DueAt, ProseInk, KeepsInk;
    var n := |blocks|;
    DueInk(split, blocks, n);
    DueAtInk(split, blocks, n);
    ProseTextsAppend(DueBefore(split, blocks, n), DueAt(split, blocks, n));
    FlattenAppend(ProseTexts(DueBefore(split, blocks, n)), ProseTexts(DueAt(split, blocks, n)));
    InkConcat(Flatten(ProseTexts(DueBefore(split, blocks, n))), Flatten(ProseTexts(DueAt(split, blocks, n))));
    ProseInkSplit(blocks, 0, RunStart(blocks, n), n);
  }
}
