/** Packing pieces of text into chunks: small pieces are joined, large ones cut. */
module Packing {
  import opened Text

  const MAX_CHUNK := 1600
  const MIN_CHUNK := 200
  const GAP := "\n\n"

  /** The chunks finished so far and the one being filled. */
  datatype Packer = Packer(chunks: seq<string>, buffer: string)

  function Heads(piece: string): seq<string>
    decreases |piece|
  {
    if |piece| > MAX_CHUNK then [piece[..MAX_CHUNK]] + Heads(piece[MAX_CHUNK..]) else []
  }

  function Tail(piece: string): string
    decreases |piece|
  {
    if |piece| > MAX_CHUNK then Tail(piece[MAX_CHUNK..]) else piece
  }

  function Candidate(buffer: string, piece: string): string {
    if buffer != "" then Strip(buffer + GAP + piece) else piece
  }

  function Add(p: Packer, raw: string): Packer {
    var piece := Strip(raw);
    if piece == "" then p
    else if |Candidate(p.buffer, piece)| <= MAX_CHUNK then p.(buffer := Candidate(p.buffer, piece))
    else Packer(p.chunks + (if p.buffer != "" then [p.buffer] else []) + Heads(piece), Tail(piece))
  }

  function AddAll(pieces: seq<string>): Packer {
    if pieces == [] then Packer([], "") else Add(AddAll(pieces[..|pieces| - 1]), pieces[|pieces| - 1])
  }

  function Flush(p: Packer): seq<string> {
    p.chunks + if p.buffer != "" then [p.buffer] else []
  }

  /** A very small rest joins the chunk before it. */
  function MergeRest(chunks: seq<string>): seq<string> {
    var n := |chunks|;
    if n >= 2 && |chunks[n - 1]| < MIN_CHUNK then chunks[..n - 2] + [chunks[n - 2] + GAP + chunks[n - 1]] else chunks
  }

  function Packed(pieces: seq<string>): seq<string> {
    MergeRest(Flush(AddAll(pieces)))
  }

  method Pack(pieces: seq<string>) returns (chunks: seq<string>)
    ensures chunks == Packed(pieces)
  {
    hide Strip, AddAll;
    AddAllEmpty();
    chunks := [];
    var buffer := "";
    var i := 0;
    while i < |pieces|
      invariant 0 <= i <= |pieces| && Packer(chunks, buffer) == AddAll(pieces[..i])
    {
      AddAllNext(pieces, i);
      var piece := Strip(pieces[i]);
      i := i + 1;
      if piece == "" {
        continue;
      }
      var candidate := if buffer != "" then Strip(buffer + GAP + piece) else piece;
      if |candidate| <= MAX_CHUNK {
        buffer := candidate;
        continue;
      }
      if buffer != "" {
        chunks := chunks + [buffer];
      }
      ghost var before, whole := chunks, piece;
      while |piece| > MAX_CHUNK
        invariant chunks + Heads(piece) == before + Heads(whole) && Tail(piece) == Tail(whole)
        decreases |piece|
      {
        chunks := chunks + [piece[..MAX_CHUNK]];
        piece := piece[MAX_CHUNK..];
      }
      assert chunks == before + Heads(whole) && before == Flush(AddAll(pieces[..i - 1]));
      buffer := piece;
    }
    assert pieces[..i] == pieces;
    if buffer != "" {
      chunks := chunks + [buffer];
    }
    var n := |chunks|;
    if n >= 2 && |chunks[n - 1]| < MIN_CHUNK {
      chunks := chunks[n - 2 := chunks[n - 2] + GAP + chunks[n - 1]];
      chunks := chunks[..n - 1];
    }
  }

  lemma AddAllEmpty()
    ensures AddAll([]) == Packer([], "")
  {
  }

  lemma AddAllNext(pieces: seq<string>, i: nat)
    requires i < |pieces|
    ensures AddAll(pieces[..i + 1]) == Add(AddAll(pieces[..i]), pieces[i])
  {
    assert pieces[..i + 1][..i] == pieces[..i];
  }

  // ---------------------------------------------------------------- nothing is lost

  lemma {:induction false} CutKeepsText(piece: string)
    ensures Flatten(Heads(piece)) + Tail(piece) == piece
    decreases |piece|
  {
    if |piece| > MAX_CHUNK {
      CutKeepsText(piece[MAX_CHUNK..]);
      assert piece == piece[..MAX_CHUNK] + piece[MAX_CHUNK..];
    }
  }

  lemma InkOfGap()
    ensures Ink(GAP) == ""
  {
    assert GAP[1..] == "\n" && GAP[1..][1..] == "";
  }

  lemma InkAround(a: string, b: string)
    ensures Ink(a + GAP + b) == Ink(a) + Ink(b)
  {
    InkOfGap();
    InkConcat(a, GAP);
    InkConcat(a + GAP, b);
  }

  lemma FlushInk(chunks: seq<string>, buffer: string)
    ensures Ink(Flatten(Flush(Packer(chunks, buffer)))) == Ink(Flatten(chunks)) + Ink(buffer)
  {
    if buffer != "" {
      FlattenAppend(chunks, [buffer]);
      FlattenOne(buffer);
      InkConcat(Flatten(chunks), buffer);
    } else {
      assert chunks + [] == chunks;
    }
  }

  lemma AddKeepsInk(p: Packer, raw: string)
    ensures Ink(Flatten(Flush(Add(p, raw)))) == Ink(Flatten(Flush(p))) + Ink(raw)
  {
    hide Strip, Ink, Flatten;
    var piece := Strip(raw);
    InkStrip(raw);
    FlushInk(p.chunks, p.buffer);
    InkConcat("", "");
    if piece == "" {
      assert Ink(raw) == "" by { InkOfEmpty(); }
    } else if |Candidate(p.buffer, piece)| <= MAX_CHUNK {
      FlushInk(p.chunks, Candidate(p.buffer, piece));
      InkStrip(p.buffer + GAP + piece);
      InkAround(p.buffer, piece);
      InkOfEmpty();
    } else {
      FlushInk(Flush(p) + Heads(piece), Tail(piece));
      FlattenAppend(Flush(p), Heads(piece));
      InkConcat(Flatten(Flush(p)), Flatten(Heads(piece)));
      InkConcat(Flatten(Heads(piece)), Tail(piece));
      CutKeepsText(piece);
    }
  }

  lemma InkOfEmpty()
    ensures Ink("") == ""
  {
  }

  lemma {:induction false} AddAllKeepsInk(pieces: seq<string>)
    ensures Ink(Flatten(Flush(AddAll(pieces)))) == Ink(Flatten(pieces))
  {
    if pieces == [] {
    } else {
      var init, last := pieces[..|pieces| - 1], pieces[|pieces| - 1];
      AddAllKeepsInk(init);
      AddKeepsInk(AddAll(init), last);
      FlattenAppend(init, [last]);
      FlattenOne(last);
      assert init + [last] == pieces;
      InkConcat(Flatten(init), last);
    }
  }

  lemma MergeKeepsInk(chunks: seq<string>)
    ensures Ink(Flatten(MergeRest(chunks))) == Ink(Flatten(chunks))
  {
    hide Ink, Flatten;
    var n := |chunks|;
    if n >= 2 && |chunks[n - 1]| < MIN_CHUNK {
      var start, a, b := chunks[..n - 2], chunks[n - 2], chunks[n - 1];
      assert chunks == start + [a] + [b];
      FlattenAppend(start + [a], [b]);
      FlattenAppend(start, [a]);
      FlattenAppend(start, [a + GAP + b]);
      FlattenOne(a);
      FlattenOne(b);
      FlattenOne(a + GAP + b);
      InkConcat(Flatten(start), a);
      InkConcat(Flatten(start) + a, b);
      InkConcat(Flatten(start), a + GAP + b);
      InkAround(a, b);
    }
  }

  /** The chunks hold the pieces' text, in order, up to white space. */
  lemma PackedKeepsInk(pieces: seq<string>)
    ensures Ink(Flatten(Packed(pieces))) == Ink(Flatten(pieces))
  {
    AddAllKeepsInk(pieces);
    MergeKeepsInk(Flush(AddAll(pieces)));
  }

  // ---------------------------------------------------------------- sizes

  predicate GoodSize(chunk: string) { 1 <= |chunk| <= MAX_CHUNK }

  lemma {:induction false} CutSizes(piece: string)
    ensures forall i :: 0 <= i < |Heads(piece)| ==> |Heads(piece)[i]| == MAX_CHUNK
    ensures |Tail(piece)| <= MAX_CHUNK && (piece != "" ==> Tail(piece) != "")
    decreases |piece|
  {
    if |piece| > MAX_CHUNK {
      CutSizes(piece[MAX_CHUNK..]);
    }
  }

  lemma {:induction false} AddAllSizes(pieces: seq<string>)
    ensures var p := AddAll(pieces);
            |p.buffer| <= MAX_CHUNK && forall i :: 0 <= i < |p.chunks| ==> GoodSize(p.chunks[i])
  {
    if pieces == [] {
    } else {
      AddAllSizes(pieces[..|pieces| - 1]);
      CutSizes(Strip(pieces[|pieces| - 1]));
    }
  }

  /** No chunk is empty or longer than the maximum, except that the last may have
      taken in a rest shorter than the minimum. */
  lemma PackedSizes(pieces: seq<string>)
    ensures var chunks := Packed(pieces);
            && (forall i :: 0 <= i < |chunks| - 1 ==> GoodSize(chunks[i]))
            && (chunks != [] ==> 1 <= |chunks[|chunks| - 1]| <= MAX_CHUNK + |GAP| + MIN_CHUNK - 1)
  {
    AddAllSizes(pieces);
  }

  /** Neighbouring chunks are too long to have been one. */
  predicate TooLongTogether(chunks: seq<string>) {
    forall i :: 0 <= i < |chunks| - 1 ==> |chunks[i]| + |GAP| + |chunks[i + 1]| > MAX_CHUNK
  }

  lemma {:induction false} HeadsAreFull(piece: string)
    ensures forall i :: 0 <= i < |Heads(piece)| ==> |Heads(piece)[i]| == MAX_CHUNK
    ensures |piece| > MAX_CHUNK <==> Heads(piece) != []
    ensures |piece| <= MAX_CHUNK ==> Tail(piece) == piece
    decreases |piece|
  {
    if |piece| > MAX_CHUNK {
      HeadsAreFull(piece[MAX_CHUNK..]);
    }
  }

  predicate Trimmed(s: string) { s == "" || (!IsSpace(s[0]) && !IsSpace(s[|s| - 1])) }

  lemma TrimmedIsFixed(s: string)
    requires Trimmed(s)
    ensures Strip(s) == s
  {
  }

  /** The buffer does not fit behind the last chunk; and unless that one is full, the
      buffer begins and ends with text. */
  predicate Greedy(p: Packer) {
    && TooLongTogether(p.chunks)
    && (p.chunks != [] ==>
          var last := p.chunks[|p.chunks| - 1];
          p.buffer != "" && |last| + |GAP| + |p.buffer| > MAX_CHUNK && (|last| == MAX_CHUNK || Trimmed(p.buffer)))
    && (p.chunks == [] ==> Trimmed(p.buffer))
  }

  lemma GreedyStep(p: Packer, raw: string)
    requires Greedy(p)
    ensures Greedy(Add(p, raw))
  {
    hide Trimmed, Strip, Heads, Tail, TooLongTogether;
    var piece := Strip(raw);
    StripIsTrimmed(raw);
    if piece != "" {
      if |Candidate(p.buffer, piece)| <= MAX_CHUNK {
        CandidateGrows(p.buffer, piece);
      } else {
        CandidateFits(p.buffer, piece);
        HeadsAreFull(piece);
        TailIsThere(piece);
        Flushed(p, piece);
      }
    }
  }

  lemma StripIsTrimmed(raw: string)
    ensures Trimmed(Strip(raw))
  {
    InkStrip(raw);
  }

  lemma {:induction false} TailIsThere(piece: string)
    requires piece != ""
    ensures Tail(piece) != ""
    decreases |piece|
  {
    if |piece| > MAX_CHUNK {
      TailIsThere(piece[MAX_CHUNK..]);
    }
  }

  lemma CandidateFits(buffer: string, piece: string)
    ensures |Candidate(buffer, piece)| <= |buffer| + (if buffer != "" then |GAP| else 0) + |piece|
  {
    InkStrip(buffer + GAP + piece);
  }

  lemma CandidateGrows(buffer: string, piece: string)
    requires piece != "" && Trimmed(piece)
    ensures Candidate(buffer, piece) != "" && Trimmed(Candidate(buffer, piece))
    ensures Trimmed(buffer) ==> |Candidate(buffer, piece)| >= |buffer|
  {
    if buffer != "" {
      var whole := buffer + GAP + piece;
      StripIsTrimmed(whole);
      assert whole[|whole| - 1] == piece[|piece| - 1];
      if Trimmed(buffer) {
        assert whole[0] == buffer[0];
        TrimmedIsFixed(whole);
      }
      InkStrip(whole);
      InkConcat(buffer + GAP, piece);
      LastInk(piece);
    }
  }

  lemma LastInk(piece: string)
    requires piece != "" && Trimmed(piece)
    ensures Ink(piece) != ""
  {
  }

  /** The buffer and the full heads of a piece that did not fit go to the chunks. */
  lemma Flushed(p: Packer, piece: string)
    requires Greedy(p) && piece != "" && Trimmed(piece) && Tail(piece) != ""
    requires |p.buffer| + (if p.buffer != "" then |GAP| else 0) + |piece| > MAX_CHUNK
    requires forall i :: 0 <= i < |Heads(piece)| ==> |Heads(piece)[i]| == MAX_CHUNK
    requires (|piece| > MAX_CHUNK <==> Heads(piece) != []) && (|piece| <= MAX_CHUNK ==> Tail(piece) == piece)
    ensures Greedy(Packer(p.chunks + (if p.buffer != "" then [p.buffer] else []) + Heads(piece), Tail(piece)))
  {
    hide Heads, Tail, Trimmed;
    var flushed := p.chunks + if p.buffer != "" then [p.buffer] else [];
    assert TooLongTogether(flushed);
    var all := flushed + Heads(piece);
    forall i | 0 <= i < |all| - 1 ensures |all[i]| + |GAP| + |all[i + 1]| > MAX_CHUNK {
      assert i + 1 < |flushed| ==> |flushed[i]| + |GAP| + |flushed[i + 1]| > MAX_CHUNK;
      assert i + 1 >= |flushed| ==> all[i + 1] == Heads(piece)[i + 1 - |flushed|];
    }
  }

  lemma {:induction false} AddAllIsGreedy(pieces: seq<string>)
    ensures Greedy(AddAll(pieces))
  {
    hide Greedy, Add;
    if pieces == [] {
      NothingIsGreedy();
    } else {
      AddAllIsGreedy(pieces[..|pieces| - 1]);
      GreedyStep(AddAll(pieces[..|pieces| - 1]), pieces[|pieces| - 1]);
    }
  }

  lemma NothingIsGreedy()
    ensures Greedy(Packer([], ""))
  {
  }

  /** No chunk is cut short: no two neighbours would have fitted into one. */
  lemma NeighboursDoNotFit(pieces: seq<string>)
    ensures TooLongTogether(Packed(pieces))
  {
    hide AddAll, Trimmed;
    AddAllIsGreedy(pieces);
    var chunks := Flush(AddAll(pieces));
    assert TooLongTogether(chunks);
    var n, merged := |chunks|, MergeRest(chunks);
    forall i | 0 <= i < |merged| - 1 ensures |merged[i]| + |GAP| + |merged[i + 1]| > MAX_CHUNK {
      assert |chunks[i]| + |GAP| + |chunks[i + 1]| > MAX_CHUNK;
    }
  }

  // ---------------------------------------------------------------- no needless cut

  /** The stripped pieces that are not blank. */
  function Solid(pieces: seq<string>): seq<string> {
    if pieces == [] then []
    else
      var last := Strip(pieces[|pieces| - 1]);
      Solid(pieces[..|pieces| - 1]) + if last == "" then [] else [last]
  }

  lemma {:induction false} FitsInOne(pieces: seq<string>)
    requires |Join(Solid(pieces), GAP)| <= MAX_CHUNK
    ensures AddAll(pieces) == Packer([], Join(Solid(pieces), GAP))
    ensures Trimmed(Join(Solid(pieces), GAP)) && (Solid(pieces) != [] ==> Join(Solid(pieces), GAP) != "")
  {
    if pieces == [] {
    } else {
      var init, last := pieces[..|pieces| - 1], Strip(pieces[|pieces| - 1]);
      InkStrip(pieces[|pieces| - 1]);
      if last != "" {
        JoinSnoc(Solid(init), last, GAP);
      } else {
        assert Solid(pieces) == Solid(init);
      }
      FitsInOne(init);
      if last != "" && Solid(init) != [] {
        TrimmedIsFixed(Join(Solid(init), GAP) + GAP + last);
      }
    }
  }

  /** Text that fits in one chunk makes one chunk: the pieces, stripped and joined. */
  lemma PackedWhenItFits(pieces: seq<string>)
    requires |Join(Solid(pieces), GAP)| <= MAX_CHUNK
    ensures Packed(pieces) == if Solid(pieces) == [] then [] else [Join(Solid(pieces), GAP)]
  {
    FitsInOne(pieces);
  }
}
