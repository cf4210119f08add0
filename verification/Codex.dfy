/** Applying the hunks of one Codex update section (`apply_codex` in patch.rs): every hunk is
    located in the original lines, then all replacements are spliced from the back. */
module Codex {
  import opened Errors
  import opened Seek
  import opened Sorting
  import opened Text
  import opened Wrappers

  datatype Chunk = Chunk(anchor: Option<string>, oldLines: seq<string>, newLines: seq<string>, eof: bool)

  // Replace `count` original lines from `start` by `new`.
  datatype Rep = Rep(start: nat, count: nat, newLines: seq<string>) {
    function End(): nat { start + count }
  }

  // The matcher's position: where the next search starts, the end of the last range, the work.
  datatype Matcher = Matcher(cursor: nat, lastEnd: nat, work: nat)

  function WithoutLast(s: seq<string>): seq<string> {
    if s != [] && s[|s| - 1] == "" then s[..|s| - 1] else s
  }

  // The lines of a text, as `apply_codex` counts them.
  function LinesOf(text: string): seq<string> {
    WithoutLast(Split(text))
  }

  function SeekAnchor(lines: seq<string>, chunk: Chunk, m: Matcher): Result<Matcher, ErrorCode> {
    if chunk.anchor.None? then Ok(m)
    else
      var f :- SeekLines(lines, [chunk.anchor.value], m.cursor, false, m.work);
      if f.at.None? then Err(InvalidArgument)
      else Ok(m.(cursor := f.at.value + 1, work := f.work))
  }

  // The range and the new lines for the old lines `old`, searched from the cursor.
  function Place(lines: seq<string>, oldLines: seq<string>, newLines: seq<string>, at: nat,
                 m: Matcher): Result<(Rep, Matcher), ErrorCode>
  {
    var end := at + |oldLines|;
    if at < m.cursor || at < m.lastEnd || end > |lines| then Err(InvalidArgument)
    else Ok((Rep(at, |oldLines|, newLines), Matcher(end, end, m.work)))
  }

  // A hunk with old lines: searched as they are, then without a trailing empty one.
  function LocateOld(lines: seq<string>, chunk: Chunk, m: Matcher): Result<(Rep, Matcher), ErrorCode>
    requires chunk.oldLines != []
  {
    var f :- SeekLines(lines, chunk.oldLines, m.cursor, chunk.eof, m.work);
    if f.at.Some? then Place(lines, chunk.oldLines, chunk.newLines, f.at.value, m.(work := f.work))
    else if chunk.oldLines[|chunk.oldLines| - 1] != "" then Err(InvalidArgument)
    else
      var oldLines := WithoutLast(chunk.oldLines);
      var g :- SeekLines(lines, oldLines, m.cursor, chunk.eof, f.work);
      if g.at.None? then Err(InvalidArgument)
      else Place(lines, oldLines, WithoutLast(chunk.newLines), g.at.value, m.(work := g.work))
  }

  function LocateChunk(lines: seq<string>, chunk: Chunk, m: Matcher): Result<(Rep, Matcher), ErrorCode> {
    var m1 :- SeekAnchor(lines, chunk, m);
    if chunk.oldLines == [] then Ok((Rep(|lines|, 0, chunk.newLines), m1))
    else LocateOld(lines, chunk, m1)
  }

  // All hunks in order; the replacements are in hunk order.
  function Locate(lines: seq<string>, chunks: seq<Chunk>, m: Matcher): Result<(seq<Rep>, nat), ErrorCode> {
    if chunks == [] then Ok(([], m.work))
    else
      var first :- LocateChunk(lines, chunks[0], m);
      var rest :- Locate(lines, chunks[1..], first.1);
      Ok(([first.0] + rest.0, rest.1))
  }

  // Ranges that do not overlap, from `pos` to `size`.
  ghost predicate Ordered(reps: seq<Rep>, pos: nat, size: nat) {
    if reps == [] then pos <= size
    else pos <= reps[0].start && reps[0].End() <= size && Ordered(reps[1..], reps[0].End(), size)
  }

  /** One forward pass over the original lines: copy up to the next range, write its new lines,
      skip the old ones. */
  ghost function Rewrite(lines: seq<string>, reps: seq<Rep>, pos: nat): seq<string>
    requires Ordered(reps, pos, |lines|)
  {
    if reps == [] then lines[pos..]
    else
      OrderedStart(reps, pos, |lines|);
      lines[pos..reps[0].start] + reps[0].newLines + Rewrite(lines, reps[1..], reps[0].End())
  }

  lemma {:induction false} OrderedStart(reps: seq<Rep>, pos: nat, size: nat)
    requires Ordered(reps, pos, size)
    ensures pos <= size
  {
    if reps != [] {
      OrderedStart(reps[1..], reps[0].End(), size);
    }
  }

  // In hunk order: a range at or after the end of the last one, or nothing at end of file.
  ghost predicate InHunkOrder(reps: seq<Rep>, last: nat, size: nat) {
    last <= size &&
    (reps != [] ==>
       && reps[0].End() <= size
       && (reps[0].start < size ==> last <= reps[0].start)
       && InHunkOrder(reps[1..], if reps[0].start < size then reps[0].End() else last, size))
  }

  lemma {:induction false} HunkOrderEarlier(reps: seq<Rep>, last: nat, earlier: nat, size: nat)
    requires InHunkOrder(reps, last, size) && earlier <= last
    ensures InHunkOrder(reps, earlier, size)
  {
    if reps != [] {
      if reps[0].start >= size {
        HunkOrderEarlier(reps[1..], last, earlier, size);
      }
    }
  }

  // `seek` never answers outside the lines.
  lemma {:induction false} TierInRange(hits: seq<bool>, i: nat, cost: nat, work: nat)
    ensures var r := SeekTier(hits, i, cost, work);
            r.Ok? && r.value.at.Some? ==> r.value.at.value < |hits| && hits[r.value.at.value]
    decreases |hits| - i
  {
    if i < |hits| && !hits[i] {
      TierInRange(hits, i + 1, cost, work + cost);
    }
  }

  lemma {:induction false} FromInRange(tiers: seq<seq<bool>>, begin: nat, cost: nat, work: nat)
    ensures var r := SeekFrom(tiers, begin, cost, work);
            r.Ok? && r.value.at.Some? ==>
              exists t :: 0 <= t < |tiers| && r.value.at.value < |tiers[t]| && tiers[t][r.value.at.value]
  {
    if tiers != [] {
      TierInRange(tiers[0], begin, cost, work);
      var f := SeekTier(tiers[0], begin, cost, work);
      if f.Ok? && f.value.at.None? {
        FromInRange(tiers[1..], begin, cost, f.value.work);
        assert forall t :: 0 <= t < |tiers| - 1 ==> tiers[1..][t] == tiers[t + 1];
      }
    }
  }

  lemma FoundMatches(lines: seq<string>, pattern: seq<string>, start: nat, eof: bool, work: nat)
    ensures var r := SeekLines(lines, pattern, start, eof, work);
            r.Ok? && r.value.at.Some? ==>
              r.value.at.value + |pattern| <= |lines|
              && exists tier :: 0 <= tier < 4 && WindowMatches(lines, pattern, r.value.at.value, tier)
  {
    if |pattern| <= |lines| {
      var begin := Begin(lines, pattern, start, eof);
      FromInRange(AllHits(lines, pattern), begin, |pattern|, work);
      var r := SeekLines(lines, pattern, start, eof, work);
      if r.Ok? && r.value.at.Some? {
        var t :| 0 <= t < 4 && r.value.at.value < |AllHits(lines, pattern)[t]|
        && AllHits(lines, pattern)[t][r.value.at.value];
        assert AllHits(lines, pattern)[t] == Hits(lines, pattern, t);
      }
    }
  }

  // What a located hunk writes: its new lines, or those without the empty one at the end.
  predicate WritesFor(chunk: Chunk, rep: Rep) {
    rep.newLines == chunk.newLines || rep.newLines == WithoutLast(chunk.newLines)
  }

  lemma ChunkInOrder(lines: seq<string>, chunk: Chunk, m: Matcher)
    requires m.lastEnd <= |lines| && LocateChunk(lines, chunk, m).Ok?
    ensures var (rep, m') := LocateChunk(lines, chunk, m).value;
            && WritesFor(chunk, rep) && rep.End() <= |lines|
            && (chunk.oldLines == [] ==> m'.lastEnd == m.lastEnd && rep == Rep(|lines|, 0, chunk.newLines))
            && (chunk.oldLines != [] ==> m.lastEnd <= rep.start && m'.lastEnd == rep.End())
  {
    var m1 := SeekAnchor(lines, chunk, m).value;
    if chunk.oldLines != [] {
      FoundMatches(lines, chunk.oldLines, m1.cursor, chunk.eof, m1.work);
      var f := SeekLines(lines, chunk.oldLines, m1.cursor, chunk.eof, m1.work).value;
      if f.at.None? {
        FoundMatches(lines, WithoutLast(chunk.oldLines), m1.cursor, chunk.eof, f.work);
      }
    }
  }

  /** In hunk order the ranges lie in the file and never run backwards. */
  lemma {:induction false} LocateInOrder(lines: seq<string>, chunks: seq<Chunk>, m: Matcher)
    requires m.lastEnd <= |lines| && Locate(lines, chunks, m).Ok?
    ensures var reps := Locate(lines, chunks, m).value.0;
            && |reps| == |chunks| && InHunkOrder(reps, m.lastEnd, |lines|)
            && forall i :: 0 <= i < |chunks| ==> WritesFor(chunks[i], reps[i])
  {
    if chunks != [] {
      ChunkInOrder(lines, chunks[0], m);
      var first := LocateChunk(lines, chunks[0], m).value;
      LocateInOrder(lines, chunks[1..], first.1);
      var rest := Locate(lines, chunks[1..], first.1).value.0;
      if first.0.start >= |lines| && m.lastEnd <= first.1.lastEnd {
        HunkOrderEarlier(rest, first.1.lastEnd, m.lastEnd, |lines|);
      }
      var reps := [first.0] + rest;
      assert reps[1..] == rest;
    }
  }

  // The best window for `pattern` from `from` on, or at the end of the file.
  ghost predicate BestFrom(lines: seq<string>, pattern: seq<string>, eof: bool, from: nat, at: nat) {
    exists tier :: Best(lines, pattern, Begin(lines, pattern, from, eof), at, tier)
  }

  // The search for a hunk starts at the cursor, or behind the best match of its anchor.
  ghost predicate Anchored(lines: seq<string>, chunk: Chunk, cursor: nat, from: nat) {
    if chunk.anchor.None? then from == cursor
    else from > 0 && BestFrom(lines, [chunk.anchor.value], false, cursor, from - 1)
  }

  ghost predicate Nowhere(lines: seq<string>, pattern: seq<string>, eof: bool, from: nat) {
    NoneAt(lines, pattern, Begin(lines, pattern, from, eof), 3)
  }

  // What a hunk searched for from `from` on is: an insertion at end of file; or its new lines for
  // the best window of its old lines; or, when there is none and the last old line is empty, the
  // same without that line, which then stands for the final newline.
  ghost predicate RepFrom(lines: seq<string>, chunk: Chunk, from: nat, rep: Rep) {
    var oldLines := chunk.oldLines;
    if oldLines == [] then rep == Rep(|lines|, 0, chunk.newLines)
    else
      || (rep == Rep(rep.start, |oldLines|, chunk.newLines) && BestFrom(lines, oldLines, chunk.eof, from, rep.start))
      || (oldLines[|oldLines| - 1] == "" && Nowhere(lines, oldLines, chunk.eof, from)
          && rep == Rep(rep.start, |oldLines| - 1, WithoutLast(chunk.newLines))
          && BestFrom(lines, WithoutLast(oldLines), chunk.eof, from, rep.start))
  }

  ghost predicate RepFor(lines: seq<string>, chunk: Chunk, cursor: nat, rep: Rep) {
    exists from: nat :: Anchored(lines, chunk, cursor, from) && RepFrom(lines, chunk, from, rep)
  }

  lemma OldMeaning(lines: seq<string>, chunk: Chunk, m: Matcher)
    requires chunk.oldLines != [] && m.work <= MAX_MATCH_WORK && LocateOld(lines, chunk, m).Ok?
    ensures var (rep, m') := LocateOld(lines, chunk, m).value;
            RepFrom(lines, chunk, m.cursor, rep) && m'.work <= MAX_MATCH_WORK
  {
    SeekMeaning(lines, chunk.oldLines, m.cursor, chunk.eof, m.work);
    var f := SeekLines(lines, chunk.oldLines, m.cursor, chunk.eof, m.work).value;
    if f.at.None? {
      SeekMeaning(lines, WithoutLast(chunk.oldLines), m.cursor, chunk.eof, f.work);
    }
  }

  lemma AnchorMeaning(lines: seq<string>, chunk: Chunk, m: Matcher)
    requires m.work <= MAX_MATCH_WORK && SeekAnchor(lines, chunk, m).Ok?
    ensures var m1 := SeekAnchor(lines, chunk, m).value;
            Anchored(lines, chunk, m.cursor, m1.cursor) && m1.work <= MAX_MATCH_WORK
  {
    if chunk.anchor.Some? {
      SeekMeaning(lines, [chunk.anchor.value], m.cursor, false, m.work);
    }
  }

  lemma LocateChunkMeaning(lines: seq<string>, chunk: Chunk, m: Matcher)
    requires m.work <= MAX_MATCH_WORK && LocateChunk(lines, chunk, m).Ok?
    ensures var (rep, m') := LocateChunk(lines, chunk, m).value;
            RepFor(lines, chunk, m.cursor, rep) && m'.work <= MAX_MATCH_WORK
  {
    AnchorMeaning(lines, chunk, m);
    var m1 := SeekAnchor(lines, chunk, m).value;
    if chunk.oldLines != [] {
      OldMeaning(lines, chunk, m1);
    }
  }

  // The matcher's cursor when hunk `i` is looked for.
  function CursorAt(lines: seq<string>, chunks: seq<Chunk>, m: Matcher, i: nat): nat
    decreases i
  {
    if i == 0 || chunks == [] || LocateChunk(lines, chunks[0], m).Err? then m.cursor
    else CursorAt(lines, chunks[1..], LocateChunk(lines, chunks[0], m).value.1, i - 1)
  }

  /** Every hunk is at the best window for it from the cursor on: the leftmost one of the strictest
      tier, behind the best match of its anchor. */
  lemma {:induction false} LocateMeaning(lines: seq<string>, chunks: seq<Chunk>, m: Matcher)
    requires m.work <= MAX_MATCH_WORK && Locate(lines, chunks, m).Ok?
    ensures var (reps, work) := Locate(lines, chunks, m).value;
            && |reps| == |chunks| && work <= MAX_MATCH_WORK
            && forall i :: 0 <= i < |chunks| ==> RepFor(lines, chunks[i], CursorAt(lines, chunks, m, i), reps[i])
  {
    if chunks != [] {
      LocateChunkMeaning(lines, chunks[0], m);
      var first := LocateChunk(lines, chunks[0], m).value;
      LocateMeaning(lines, chunks[1..], first.1);
      var reps := [first.0] + Locate(lines, chunks[1..], first.1).value.0;
      forall i | 0 <= i < |chunks|
        ensures RepFor(lines, chunks[i], CursorAt(lines, chunks, m, i), reps[i])
      {
        if i > 0 {
          assert chunks[i] == chunks[1..][i - 1];
        }
      }
    }
  }

  function StartOf(r: Rep): int {
    r.start
  }

  // The replacements inside the file, and those at its end, each in hunk order.
  function Inside(reps: seq<Rep>, size: nat): seq<Rep> {
    if reps == [] then []
    else (if reps[0].start < size then [reps[0]] else []) + Inside(reps[1..], size)
  }

  function AtEnd(reps: seq<Rep>, size: nat): seq<Rep> {
    if reps == [] then []
    else (if reps[0].start < size then [] else [reps[0]]) + AtEnd(reps[1..], size)
  }

  // The new lines of a list of replacements, one after the other.
  function NewLines(reps: seq<Rep>): seq<string> {
    if reps == [] then [] else reps[0].newLines + NewLines(reps[1..])
  }

  lemma PartsOfFirst(reps: seq<Rep>, size: nat)
    requires reps != []
    ensures var a, b := Inside(reps, size), AtEnd(reps, size);
            if reps[0].start < size
            then a != [] && a[0] == reps[0] && a[1..] == Inside(reps[1..], size) && b == AtEnd(reps[1..], size)
            else b != [] && b[0] == reps[0] && b[1..] == AtEnd(reps[1..], size) && a == Inside(reps[1..], size)
  {
  }

  lemma {:induction false} PartsAppend(reps: seq<Rep>, r: Rep, size: nat)
    ensures Inside(reps + [r], size) == if r.start < size then Inside(reps, size) + [r] else Inside(reps, size)
    ensures AtEnd(reps + [r], size) == if r.start < size then AtEnd(reps, size) else AtEnd(reps, size) + [r]
  {
    if reps == [] {
      assert reps + [r] == [r];
    } else {
      assert (reps + [r])[1..] == reps[1..] + [r];
      PartsAppend(reps[1..], r, size);
    }
  }

  lemma {:induction false} PartsBounds(reps: seq<Rep>, size: nat, bound: nat)
    requires forall i :: 0 <= i < |reps| ==> reps[i].start <= size && (reps[i].start < size ==> reps[i].start <= bound)
    ensures forall i :: 0 <= i < |Inside(reps, size)| ==> Inside(reps, size)[i].start <= bound
    ensures forall i :: 0 <= i < |AtEnd(reps, size)| ==> AtEnd(reps, size)[i].start == size
  {
    if reps != [] {
      PartsBounds(reps[1..], size, bound);
    }
  }

  // The ranges inside the file ascend.
  ghost predicate Apart(reps: seq<Rep>, size: nat) {
    && (forall i :: 0 <= i < |reps| ==> reps[i].start <= size)
    && (forall i, j :: 0 <= i < j < |reps| && reps[i].start < size && reps[j].start < size ==>
        reps[i].start <= reps[j].start)
  }

  lemma {:induction false} HunkOrderApart(reps: seq<Rep>, last: nat, size: nat)
    requires InHunkOrder(reps, last, size)
    ensures Apart(reps, size)
    ensures forall i :: 0 <= i < |reps| && reps[i].start < size ==> last <= reps[i].start
  {
    if reps != [] {
      HunkOrderApart(reps[1..], if reps[0].start < size then reps[0].End() else last, size);
      assert forall i :: 0 < i < |reps| ==> reps[i] == reps[1..][i - 1];
    }
  }

  lemma InsertPart(inside: seq<Rep>, atEnd: seq<Rep>, r: Rep, size: nat)
    requires r.start <= size
    requires forall i :: 0 <= i < |inside| ==> inside[i].start <= r.start
    requires forall i :: 0 <= i < |atEnd| ==> atEnd[i].start == size
    ensures Insert(inside + atEnd, r, StartOf) ==
            if r.start < size then inside + [r] + atEnd else inside + (atEnd + [r])
  {
    if r.start < size {
      InsertBetween(inside, atEnd, r, StartOf);
    } else {
      assert inside + atEnd + [r] == inside + (atEnd + [r]);
    }
  }

  lemma ApartFront(front: seq<Rep>, r: Rep, size: nat)
    requires Apart(front + [r], size)
    ensures Apart(front, size) && r.start <= size
    ensures forall i :: 0 <= i < |front| ==>
                          front[i].start <= size
                          && (front[i].start < size ==> front[i].start <= if r.start < size then r.start else size)
  {
    var all := front + [r];
    assert all[|front|] == r;
    assert forall i :: 0 <= i < |front| ==> front[i] == all[i];
  }

  /** The stable sort keeps the ranges in hunk order and moves the insertions at end of file
      behind them, in hunk order too. */
  lemma {:induction false} SortMovesInsertionsBack(reps: seq<Rep>, size: nat)
    requires Apart(reps, size)
    ensures StableSort(reps, StartOf) == Inside(reps, size) + AtEnd(reps, size)
  {
    if reps != [] {
      var front, r := reps[..|reps| - 1], reps[|reps| - 1];
      assert front + [r] == reps;
      ApartFront(front, r, size);
      SortMovesInsertionsBack(front, size);
      PartsAppend(front, r, size);
      SortLast(front, r, size);
      SortAppend(front, r, StartOf);
    }
  }

  lemma SortLast(front: seq<Rep>, r: Rep, size: nat)
    requires r.start <= size
    requires forall i :: 0 <= i < |front| ==>
                           front[i].start <= size
                           && (front[i].start < size ==> front[i].start <= if r.start < size then r.start else size)
    ensures Insert(Inside(front, size) + AtEnd(front, size), r, StartOf) ==
            if r.start < size then Inside(front, size) + [r] + AtEnd(front, size)
            else Inside(front, size) + (AtEnd(front, size) + [r])
  {
    PartsBounds(front, size, if r.start < size then r.start else size);
    InsertPart(Inside(front, size), AtEnd(front, size), r, size);
  }

  ghost predicate AllAtEnd(reps: seq<Rep>, size: nat) {
    forall i :: 0 <= i < |reps| ==> reps[i].start == size && reps[i].count == 0
  }

  lemma {:induction false} InsideOrdered(reps: seq<Rep>, last: nat, size: nat)
    requires InHunkOrder(reps, last, size)
    ensures Ordered(Inside(reps, size), last, size)
    ensures AllAtEnd(AtEnd(reps, size), size)
  {
    if reps != [] {
      InsideOrdered(reps[1..], if reps[0].start < size then reps[0].End() else last, size);
      PartsOfFirst(reps, size);
    }
  }

  lemma Assoc(a: seq<string>, b: seq<string>, c: seq<string>)
    ensures (a + b) + c == a + (b + c)
  {
  }

  lemma {:induction false} RewriteEnd(lines: seq<string>, more: seq<Rep>, pos: nat)
    requires AllAtEnd(more, |lines|) && pos <= |lines|
    ensures Ordered(more, pos, |lines|)
    ensures Rewrite(lines, more, pos) == lines[pos..] + NewLines(more)
  {
    if more != [] {
      var size := |lines|;
      RewriteEnd(lines, more[1..], size);
      var rest := NewLines(more[1..]);
      assert more[0].start == size && more[0].End() == size;
      assert Rewrite(lines, more[1..], size) == rest by {
        assert lines[size..] + rest == rest;
      }
      Assoc(lines[pos..size], more[0].newLines, rest);
      assert lines[pos..size] == lines[pos..];
    }
  }

  // Insertions at end of file behind ordered ranges: still ordered, and the rewrite only grows.
  lemma {:induction false} RewriteAppends(lines: seq<string>, reps: seq<Rep>, more: seq<Rep>, pos: nat)
    requires Ordered(reps, pos, |lines|) && AllAtEnd(more, |lines|)
    ensures Ordered(reps + more, pos, |lines|)
    ensures Rewrite(lines, reps + more, pos) == Rewrite(lines, reps, pos) + NewLines(more)
  {
    if reps == [] {
      assert reps + more == more;
      RewriteEnd(lines, more, pos);
    } else {
      assert (reps + more)[0] == reps[0] && (reps + more)[1..] == reps[1..] + more;
      RewriteAppends(lines, reps[1..], more, reps[0].End());
      OrderedStart(reps, pos, |lines|);
      Assoc(lines[pos..reps[0].start] + reps[0].newLines, Rewrite(lines, reps[1..], reps[0].End()), NewLines(more));
    }
  }

  lemma {:induction false} RewriteFrom(lines: seq<string>, reps: seq<Rep>, pos: nat)
    requires Ordered(reps, pos, |lines|)
    ensures pos <= |lines| && Ordered(reps, 0, |lines|)
    ensures Rewrite(lines, reps, 0) == lines[..pos] + Rewrite(lines, reps, pos)
  {
    OrderedStart(reps, pos, |lines|);
    if reps == [] {
      assert lines[0..] == lines[..pos] + lines[pos..];
    } else {
      assert lines[0..reps[0].start] == lines[..pos] + lines[pos..reps[0].start];
    }
  }

  // Splicing the range before those already spliced.
  lemma SpliceStep(lines: seq<string>, reps: seq<Rep>)
    requires reps != [] && Ordered(reps, 0, |lines|)
    ensures Ordered(reps[1..], 0, |lines|)
    ensures var cur := Rewrite(lines, reps[1..], 0);
            && reps[0].End() <= |cur|
            && cur[..reps[0].start] + reps[0].newLines + cur[reps[0].End()..] == Rewrite(lines, reps, 0)
  {
    var r := reps[0];
    RewriteFrom(lines, reps[1..], r.End());
    var tail := Rewrite(lines, reps[1..], r.End());
    var cur := lines[..r.End()] + tail;
    assert cur[..r.start] == lines[0..r.start] && cur[r.End()..] == tail;
  }

  // Back to front, each range removed and its new lines put in its place.
  method SpliceBackwards(lines: seq<string>, reps: seq<Rep>) returns (result: seq<string>)
    requires Ordered(reps, 0, |lines|)
    ensures result == Rewrite(lines, reps, 0)
  {
    result := lines;
    var k := |reps|;
    OrderedSuffix(reps, k, |lines|);
    assert reps[|reps|..] == [];
    while k > 0
      invariant 0 <= k <= |reps| && Ordered(reps[k..], 0, |lines|)
      invariant result == Rewrite(lines, reps[k..], 0)
    {
      k := k - 1;
      OrderedSuffix(reps, k, |lines|);
      assert reps[k..][1..] == reps[k + 1..];
      SpliceStep(lines, reps[k..]);
      result := result[..reps[k].start] + reps[k].newLines + result[reps[k].End()..];
    }
    assert reps[0..] == reps;
  }

  lemma {:induction false} OrderedSuffix(reps: seq<Rep>, k: nat, size: nat)
    requires Ordered(reps, 0, size) && k <= |reps|
    ensures Ordered(reps[k..], 0, size)
    decreases |reps|
  {
    if k == 0 {
      assert reps[0..] == reps;
    } else {
      OrderedEarlier(reps[1..], reps[0].End(), 0, size);
      OrderedSuffix(reps[1..], k - 1, size);
      assert reps[1..][k - 1..] == reps[k..];
    }
  }

  lemma {:induction false} OrderedEarlier(reps: seq<Rep>, pos: nat, earlier: nat, size: nat)
    requires Ordered(reps, pos, size) && earlier <= pos
    ensures Ordered(reps, earlier, size)
  {
    OrderedStart(reps, pos, size);
  }

  /** The rewritten lines: one forward pass for the ranges inside the file, then the insertions
      at its end in hunk order. */
  ghost function Rewritten(lines: seq<string>, reps: seq<Rep>): seq<string>
    requires InHunkOrder(reps, 0, |lines|)
  {
    InsideOrdered(reps, 0, |lines|);
    Rewrite(lines, Inside(reps, |lines|), 0) + NewLines(AtEnd(reps, |lines|))
  }

  // Closing the text: a last empty line stands for the final LF, and is added when missing.
  function Finished(lines: seq<string>): string {
    Join(if lines == [] || lines[|lines| - 1] != "" then lines + [""] else lines)
  }

  // What `apply_codex` makes of a text: the forward rewrite of its lines, unless some hunk cannot
  // be located.
  ghost function Applied(text: string, chunks: seq<Chunk>, work: nat): Result<(string, nat), ErrorCode> {
    var lines, start := LinesOf(text), Matcher(0, 0, work);
    var located := Locate(lines, chunks, start);
    if located.Err? then Err(located.error)
    else
      LocateInOrder(lines, chunks, start);
      Ok((Finished(Rewritten(lines, located.value.0)), located.value.1))
  }

  predicate EndsInLf(text: string) {
    text == "" || text[|text| - 1] == '\n'
  }

  /** `apply_codex`: locate every hunk in the original lines, sort, splice from the back. The
      result is the one forward rewrite of the original lines; it fails exactly when some hunk
      cannot be located in order. */
  method Apply(text: string, chunks: seq<Chunk>, work: nat) returns (r: Result<(string, nat), ErrorCode>)
    ensures r == Applied(text, chunks, work)
    ensures r.Ok? ==> EndsInLf(r.value.0)
  {
    var lines := Split(text);
    if lines[|lines| - 1] == "" {
      lines := lines[..|lines| - 1];
    }
    var located := LocateAll(lines, chunks, Matcher(0, 0, work));
    if located.Err? {
      return Err(located.error);
    }
    var (reps, spent) := located.value;
    LocateInOrder(lines, chunks, Matcher(0, 0, work));
    SortedRewrite(lines, reps);
    lines := SpliceBackwards(lines, StableSort(reps, StartOf));
    FinishedEndsInLf(lines);
    if lines == [] || lines[|lines| - 1] != "" {
      lines := lines + [""];
    }
    return Ok((Join(lines), spent));
  }

  // The hunk loop.
  method LocateAll(lines: seq<string>, chunks: seq<Chunk>, start: Matcher)
    returns (r: Result<(seq<Rep>, nat), ErrorCode>)
    ensures r == Locate(lines, chunks, start)
  {
    var reps: seq<Rep> := [];
    var m := start;
    ghost var all := Locate(lines, chunks, m);
    assert chunks[0..] == chunks && (all.Ok? ==> [] + all.value.0 == all.value.0);
    for n := 0 to |chunks|
      invariant all == Prepend(reps, Locate(lines, chunks[n..], m))
    {
      assert chunks[n..][0] == chunks[n] && chunks[n..][1..] == chunks[n + 1..];
      var located := LocateOne(lines, chunks[n], m);
      if located.Err? {
        return Err(located.error);
      }
      ghost var rest := Locate(lines, chunks[n + 1..], located.value.1);
      assert Locate(lines, chunks[n..], m) == Prepend([located.value.0], rest);
      PrependMore(reps, located.value.0, rest);
      reps := reps + [located.value.0];
      m := located.value.1;
    }
    assert chunks[|chunks|..] == [];
    assert reps + [] == reps;
    return Ok((reps, m.work));
  }

  ghost function Prepend(reps: seq<Rep>, rest: Result<(seq<Rep>, nat), ErrorCode>): Result<(seq<Rep>, nat), ErrorCode> {
    if rest.Err? then rest else Ok((reps + rest.value.0, rest.value.1))
  }

  lemma PrependMore(reps: seq<Rep>, r: Rep, rest: Result<(seq<Rep>, nat), ErrorCode>)
    ensures Prepend(reps, Prepend([r], rest)) == Prepend(reps + [r], rest)
  {
    if rest.Ok? {
      assert reps + ([r] + rest.value.0) == reps + [r] + rest.value.0;
    }
  }

  lemma SortedRewrite(lines: seq<string>, reps: seq<Rep>)
    requires InHunkOrder(reps, 0, |lines|)
    ensures Ordered(StableSort(reps, StartOf), 0, |lines|)
    ensures Rewrite(lines, StableSort(reps, StartOf), 0) == Rewritten(lines, reps)
  {
    HunkOrderApart(reps, 0, |lines|);
    SortMovesInsertionsBack(reps, |lines|);
    InsideOrdered(reps, 0, |lines|);
    RewriteAppends(lines, Inside(reps, |lines|), AtEnd(reps, |lines|), 0);
  }

  // One turn of the hunk loop.
  method LocateOne(lines: seq<string>, chunk: Chunk, m: Matcher) returns (r: Result<(Rep, Matcher), ErrorCode>)
    ensures r == LocateChunk(lines, chunk, m)
  {
    var anchored := RunAnchor(lines, chunk, m);
    if anchored.Err? {
      return Err(anchored.error);
    }
    if chunk.oldLines == [] {
      return Ok((Rep(|lines|, 0, chunk.newLines), anchored.value));
    }
    r := RunOld(lines, chunk, anchored.value);
  }

  method RunOld(lines: seq<string>, chunk: Chunk, m: Matcher) returns (r: Result<(Rep, Matcher), ErrorCode>)
    requires chunk.oldLines != []
    ensures r == LocateOld(lines, chunk, m)
  {
    var oldLines, newLines := chunk.oldLines, chunk.newLines;
    var found := Run(lines, oldLines, m.cursor, chunk.eof, m.work);
    if found.Ok? && found.value.at.None? && oldLines[|oldLines| - 1] == "" {
      oldLines := oldLines[..|oldLines| - 1];
      if newLines != [] && newLines[|newLines| - 1] == "" {
        newLines := newLines[..|newLines| - 1];
      }
      found := Run(lines, oldLines, m.cursor, chunk.eof, found.value.work);
    }
    if found.Err? {
      return Err(found.error);
    }
    if found.value.at.None? {
      return Err(InvalidArgument);
    }
    r := Place(lines, oldLines, newLines, found.value.at.value, m.(work := found.value.work));
  }

  method RunAnchor(lines: seq<string>, chunk: Chunk, m: Matcher) returns (r: Result<Matcher, ErrorCode>)
    ensures r == SeekAnchor(lines, chunk, m)
  {
    if chunk.anchor.None? {
      return Ok(m);
    }
    var f := Run(lines, [chunk.anchor.value], m.cursor, false, m.work);
    if f.Err? {
      return Err(f.error);
    }
    if f.value.at.None? {
      return Err(InvalidArgument);
    }
    return Ok(m.(cursor := f.value.at.value + 1, work := f.value.work));
  }

  function Removed(reps: seq<Rep>): nat {
    if reps == [] then 0 else reps[0].count + Removed(reps[1..])
  }

  lemma {:induction false} RewriteLength(lines: seq<string>, reps: seq<Rep>, pos: nat)
    requires Ordered(reps, pos, |lines|)
    ensures |Rewrite(lines, reps, pos)| + Removed(reps) + pos == |lines| + |NewLines(reps)|
  {
    OrderedStart(reps, pos, |lines|);
    if reps != [] {
      OrderedStart(reps[1..], reps[0].End(), |lines|);
      RewriteLength(lines, reps[1..], reps[0].End());
    }
  }

  lemma {:induction false} PartsConserve(reps: seq<Rep>, size: nat)
    ensures |NewLines(Inside(reps, size))| + |NewLines(AtEnd(reps, size))| == |NewLines(reps)|
    ensures Removed(Inside(reps, size)) + Removed(AtEnd(reps, size)) == Removed(reps)
  {
    if reps != [] {
      PartsConserve(reps[1..], size);
      PartsOfFirst(reps, size);
    }
  }

  lemma {:induction false} NothingRemoved(reps: seq<Rep>)
    requires forall i :: 0 <= i < |reps| ==> reps[i].count == 0
    ensures Removed(reps) == 0
  {
    if reps != [] {
      NothingRemoved(reps[1..]);
    }
  }

  /** Lines are conserved: what was there, minus what the hunks removed, plus what they added. */
  lemma LinesConserved(lines: seq<string>, reps: seq<Rep>)
    requires InHunkOrder(reps, 0, |lines|)
    ensures |Rewritten(lines, reps)| == |lines| - Removed(reps) + |NewLines(reps)|
  {
    InsideOrdered(reps, 0, |lines|);
    RewriteLength(lines, Inside(reps, |lines|), 0);
    PartsConserve(reps, |lines|);
    NothingRemoved(AtEnd(reps, |lines|));
  }

  // One empty last line, which the closing step takes for the final LF.
  lemma FinishedIsUnlines(lines: seq<string>)
    ensures Finished(lines) == Unlines(WithoutLast(lines))
  {
    if lines == [] || lines[|lines| - 1] != "" {
      JoinWithEmptyLast(lines);
    } else {
      assert WithoutLast(lines) + [""] == lines;
      JoinWithEmptyLast(WithoutLast(lines));
    }
  }

  lemma {:induction false} UnlinesEndsInLf(lines: seq<string>)
    ensures Unlines(lines) == "" || Unlines(lines)[|Unlines(lines)| - 1] == '\n'
  {
    if lines != [] {
      UnlinesEndsInLf(lines[1..]);
    }
  }

  lemma FinishedEndsInLf(lines: seq<string>)
    ensures EndsInLf(Finished(lines))
  {
    FinishedIsUnlines(lines);
    UnlinesEndsInLf(WithoutLast(lines));
  }

  lemma LinesOfUnlines(lines: seq<string>)
    requires LineList(lines)
    ensures LinesOf(Unlines(lines)) == lines
  {
    JoinWithEmptyLast(lines);
    SplitJoin(lines + [""]);
  }

  lemma FinishedReadsBack(lines: seq<string>)
    requires LineList(lines)
    ensures LinesOf(Finished(lines)) == WithoutLast(lines)
  {
    FinishedIsUnlines(lines);
    LinesOfUnlines(WithoutLast(lines));
  }

  // Line `i` is in the range of some hunk.
  ghost predicate Taken(reps: seq<Rep>, i: nat) {
    exists r :: r in reps && r.start <= i < r.End()
  }

  // A line from `pos` on that no hunk takes.
  ghost predicate Kept(lines: seq<string>, reps: seq<Rep>, pos: nat, line: string) {
    exists i: nat :: pos <= i < |lines| && !Taken(reps, i) && lines[i] == line
  }

  lemma {:induction false} OrderedBounds(reps: seq<Rep>, pos: nat, size: nat)
    requires Ordered(reps, pos, size)
    ensures forall r :: r in reps ==> pos <= r.start
  {
    if reps != [] {
      OrderedBounds(reps[1..], reps[0].End(), size);
    }
  }

  lemma KeptFirst(lines: seq<string>, reps: seq<Rep>, pos: nat, line: string)
    requires reps != [] && Ordered(reps, pos, |lines|)
    ensures Kept(lines, reps, pos, line)
            <==> line in lines[pos..reps[0].start] || Kept(lines, reps[1..], reps[0].End(), line)
  {
    var first, rest := reps[0], reps[1..];
    OrderedStart(reps, pos, |lines|);
    OrderedBounds(rest, first.End(), |lines|);
    forall i: nat
      ensures pos <= i < first.start ==> !Taken(reps, i)
      ensures first.End() <= i ==> (Taken(reps, i) <==> Taken(rest, i))
    {
      assert forall r :: r in reps <==> r == first || r in rest;
    }
    if Kept(lines, reps, pos, line) {
      var i: nat :| pos <= i < |lines| && !Taken(reps, i) && lines[i] == line;
      assert i < first.start || first.End() <= i;
      if i < first.start {
        assert lines[pos..first.start][i - pos] == line;
      }
    }
    if line in lines[pos..first.start] {
      var k :| 0 <= k < first.start - pos && lines[pos..first.start][k] == line;
      assert lines[pos + k] == line;
    }
  }

  lemma {:induction false} RewriteMembers(lines: seq<string>, reps: seq<Rep>, pos: nat, line: string)
    requires Ordered(reps, pos, |lines|)
    ensures line in Rewrite(lines, reps, pos) <==> Kept(lines, reps, pos, line) || line in NewLines(reps)
  {
    if reps == [] {
      if line in lines[pos..] {
        var k :| 0 <= k < |lines| - pos && lines[pos..][k] == line;
        assert lines[pos + k] == line && !Taken(reps, pos + k);
      }
      if Kept(lines, reps, pos, line) {
        var i: nat :| pos <= i < |lines| && !Taken(reps, i) && lines[i] == line;
        assert lines[pos..][i - pos] == line;
      }
    } else {
      RewriteMembers(lines, reps[1..], reps[0].End(), line);
      KeptFirst(lines, reps, pos, line);
      OrderedStart(reps, pos, |lines|);
    }
  }

  lemma {:induction false} PartsMembers(reps: seq<Rep>, size: nat, line: string)
    ensures forall r :: r in reps <==> r in Inside(reps, size) || r in AtEnd(reps, size)
    ensures line in NewLines(reps) <==> line in NewLines(Inside(reps, size)) || line in NewLines(AtEnd(reps, size))
  {
    if reps != [] {
      PartsMembers(reps[1..], size, line);
      PartsOfFirst(reps, size);
    }
  }

  /** The lines of the rewritten file are the original lines that no hunk takes, and the new lines
      of the hunks. */
  lemma RewrittenMembers(lines: seq<string>, reps: seq<Rep>, line: string)
    requires InHunkOrder(reps, 0, |lines|)
    ensures line in Rewritten(lines, reps) <==> Kept(lines, reps, 0, line) || line in NewLines(reps)
  {
    var inside := Inside(reps, |lines|);
    InsideOrdered(reps, 0, |lines|);
    PartsMembers(reps, |lines|, line);
    RewriteMembers(lines, inside, 0, line);
    forall i: nat
      ensures Taken(reps, i) <==> Taken(inside, i)
    {
    }
  }

  // The new lines that the hunks ask for.
  ghost predicate Asked(chunks: seq<Chunk>, line: string) {
    exists i :: 0 <= i < |chunks| && line in chunks[i].newLines
  }

  lemma {:induction false} NewLinesAsked(chunks: seq<Chunk>, reps: seq<Rep>, line: string)
    requires |reps| == |chunks| && forall i :: 0 <= i < |chunks| ==> WritesFor(chunks[i], reps[i])
    ensures line in NewLines(reps) ==> Asked(chunks, line)
    ensures line != "" && Asked(chunks, line) ==> line in NewLines(reps)
  {
    if chunks != [] {
      NewLinesAsked(chunks[1..], reps[1..], line);
      assert WritesFor(chunks[0], reps[0]);
      assert forall i :: 0 < i < |chunks| ==> chunks[i] == chunks[1..][i - 1];
      assert Asked(chunks, line) <==> line in chunks[0].newLines || Asked(chunks[1..], line);
    }
  }

  predicate HasCr(line: string) {
    '\r' in line
  }

  lemma {:induction false} UnlinesCr(lines: seq<string>)
    ensures HasCr(Unlines(lines)) <==> exists i :: 0 <= i < |lines| && HasCr(lines[i])
  {
    if lines != [] {
      var first, rest := lines[0], lines[1..];
      UnlinesCr(rest);
      assert HasCr(Unlines(lines)) <==> HasCr(first) || HasCr(Unlines(rest));
      assert forall i :: 0 < i < |lines| ==> lines[i] == rest[i - 1];
    }
  }

  lemma FinishedCr(lines: seq<string>)
    ensures HasCr(Finished(lines)) <==> exists line :: line in lines && HasCr(line)
  {
    FinishedIsUnlines(lines);
    UnlinesCr(WithoutLast(lines));
    assert forall i :: 0 <= i < |WithoutLast(lines)| ==> WithoutLast(lines)[i] == lines[i];
    if line :| line in lines && HasCr(line) {
      var i :| 0 <= i < |lines| && lines[i] == line;
      assert WithoutLast(lines)[i] == line;
    }
  }

  // The hunks of an application that went well.
  ghost function RepsOf(text: string, chunks: seq<Chunk>, work: nat): (reps: seq<Rep>)
    requires Applied(text, chunks, work).Ok?
    ensures InHunkOrder(reps, 0, |LinesOf(text)|)
  {
    LocateInOrder(LinesOf(text), chunks, Matcher(0, 0, work));
    Locate(LinesOf(text), chunks, Matcher(0, 0, work)).value.0
  }

  /** A CR is in the result if and only if one is in an original line that no hunk takes, or in a
      new line: endings are not normalised. */
  lemma CrSurvives(text: string, chunks: seq<Chunk>, work: nat)
    requires Applied(text, chunks, work).Ok?
    ensures HasCr(Applied(text, chunks, work).value.0) <==>
            || (exists line :: HasCr(line) && Kept(LinesOf(text), RepsOf(text, chunks, work), 0, line))
            || (exists line :: HasCr(line) && Asked(chunks, line))
  {
    var lines, reps := LinesOf(text), RepsOf(text, chunks, work);
    LocateInOrder(lines, chunks, Matcher(0, 0, work));
    FinishedCr(Rewritten(lines, reps));
    forall line | HasCr(line)
      ensures line in Rewritten(lines, reps) <==> Kept(lines, reps, 0, line) || Asked(chunks, line)
    {
      RewrittenMembers(lines, reps, line);
      NewLinesAsked(chunks, reps, line);
    }
  }

  /** So a caller is sure of LF endings when neither the file nor the hunks have a CR. */
  lemma NoCrNoneAfter(text: string, chunks: seq<Chunk>, work: nat)
    requires Applied(text, chunks, work).Ok? && !HasCr(text)
    requires forall line :: Asked(chunks, line) ==> !HasCr(line)
    ensures !HasCr(Applied(text, chunks, work).value.0)
  {
    CrSurvives(text, chunks, work);
    SplitChars(text);
  }

  lemma LocateSingle(lines: seq<string>, chunk: Chunk, m: Matcher)
    requires LocateChunk(lines, chunk, m).Ok?
    ensures var (rep, m') := LocateChunk(lines, chunk, m).value; Locate(lines, [chunk], m) == Ok(([rep], m'.work))
  {
    var (rep, m') := LocateChunk(lines, chunk, m).value;
    assert [chunk][1..] == [] && [rep] + [] == [rep];
    assert Locate(lines, [], m') == Ok(([], m'.work));
  }

  // A hunk that only adds a line.
  lemma LineAdded(lines: seq<string>, line: string)
    requires LineList(lines)
    ensures Applied(Unlines(lines), [Chunk(None, [], [line], false)], 0) == Ok((Finished(lines + [line]), 0))
  {
    var chunk, rep := Chunk(None, [], [line], false), Rep(|lines|, 0, [line]);
    LinesOfUnlines(lines);
    LocateSingle(lines, chunk, Matcher(0, 0, 0));
    LocateInOrder(lines, [chunk], Matcher(0, 0, 0));
    EndRewritten(lines, rep);
  }

  lemma SingleRep(rep: Rep, size: nat)
    ensures NewLines([rep]) == rep.newLines
    ensures Inside([rep], size) == if rep.start < size then [rep] else []
    ensures AtEnd([rep], size) == if rep.start < size then [] else [rep]
  {
    var rest := [rep][1..];
    assert rest == [] && NewLines(rest) == [] && Inside(rest, size) == [] && AtEnd(rest, size) == [];
    assert rep.newLines + [] == rep.newLines && [rep] + [] == [rep];
  }

  lemma EndRewritten(lines: seq<string>, rep: Rep)
    requires rep.start == |lines| && rep.count == 0 && InHunkOrder([rep], 0, |lines|)
    ensures Rewritten(lines, [rep]) == lines + rep.newLines
  {
    SingleRep(rep, |lines|);
    InsideOrdered([rep], 0, |lines|);
    RewriteNothing(lines, 0);
  }

  lemma UnlinesOne(b: string)
    ensures Unlines([b]) == b + "\n"
  {
    assert [b][1..] == [];
  }

  lemma UnlinesTwo(a: string, b: string)
    ensures Unlines([a, b]) == a + "\n" + (b + "\n")
  {
    assert [a, b][1..] == [b];
    UnlinesOne(b);
  }

  /** An input whose CR survives: a line added to "a\r\nb\n". */
  lemma UntouchedCrIsKept()
    ensures Applied("a\r\nb\n", [Chunk(None, [], ["c"], false)], 0) == Ok(("a\r\nb\nc\n", 0))
  {
    var a, b, c := "a\r", "b", "c";
    UnlinesTwo(a, b);
    LineAdded([a, b], c);
    assert a + "\n" + (b + "\n") == "a\r\nb\n";
    var lines := [a] + [b, c];
    assert [a, b] + [c] == lines && lines[1..] == [b, c];
    FinishedIsUnlines(lines);
    UnlinesTwo(b, c);
    assert Unlines(lines) == a + "\n" + (b + "\n" + (c + "\n"));
    assert a + "\n" + (b + "\n" + (c + "\n")) == "a\r\nb\nc\n";
  }

  /** Read again, the result has the rewritten lines if and only if they do not end in a blank
      line; otherwise that one is gone. */
  lemma AppliedReadsBack(text: string, chunks: seq<Chunk>, work: nat)
    requires Applied(text, chunks, work).Ok?
    requires forall line :: Asked(chunks, line) ==> '\n' !in line
    ensures var result := Applied(text, chunks, work).value.0;
            var lines := Rewritten(LinesOf(text), RepsOf(text, chunks, work));
            && LinesOf(result) == WithoutLast(lines)
            && (LinesOf(result) == lines <==> lines == [] || lines[|lines| - 1] != "")
  {
    var lines, reps := LinesOf(text), RepsOf(text, chunks, work);
    LocateInOrder(lines, chunks, Matcher(0, 0, work));
    var after := Rewritten(lines, reps);
    forall i | 0 <= i < |after|
      ensures '\n' !in after[i]
    {
      RewrittenMembers(lines, reps, after[i]);
      NewLinesAsked(chunks, reps, after[i]);
    }
    FinishedReadsBack(after);
  }

  // A hunk for the first line only.
  lemma FirstLineReplaced(a: string, rest: seq<string>, b: string)
    requires LineList([a] + rest)
    ensures Applied(Unlines([a] + rest), [Chunk(None, [a], [b], false)], 0) == Ok((Finished([b] + rest), 1))
  {
    var lines, chunk := [a] + rest, Chunk(None, [a], [b], false);
    LinesOfUnlines(lines);
    FirstLineFound(lines, a);
    LocateSingle(lines, chunk, Matcher(0, 0, 0));
    LocateInOrder(lines, [chunk], Matcher(0, 0, 0));
    FirstRewritten(lines, Rep(0, 1, [b]));
  }

  lemma FirstLineFound(lines: seq<string>, a: string)
    requires lines != [] && lines[0] == a
    ensures SeekLines(lines, [a], 0, false, 0) == Ok(Found(Some(0), 1))
  {
    assert WindowMatches(lines, [a], 0, 0);
    assert AllHits(lines, [a])[0] == Hits(lines, [a], 0);
  }

  lemma FirstRewritten(lines: seq<string>, rep: Rep)
    requires lines != [] && rep.start == 0 && rep.count == 1 && InHunkOrder([rep], 0, |lines|)
    ensures Rewritten(lines, [rep]) == rep.newLines + lines[1..]
  {
    SingleRep(rep, |lines|);
    InsideOrdered([rep], 0, |lines|);
    RewriteFirst(lines, rep);
  }

  lemma RewriteNothing(lines: seq<string>, pos: nat)
    requires pos <= |lines|
    ensures Ordered([], pos, |lines|) && Rewrite(lines, [], pos) == lines[pos..]
            && (pos == 0 ==> Rewrite(lines, [], pos) == lines)
  {
    assert lines[0..] == lines;
  }

  lemma RewriteFirst(lines: seq<string>, rep: Rep)
    requires lines != [] && rep.start == 0 && rep.count == 1 && Ordered([rep], 0, |lines|)
    ensures Rewrite(lines, [rep], 0) == rep.newLines + lines[1..]
  {
    assert [rep][1..] == [];
    RewriteNothing(lines, 1);
    var before := lines[0..0];
    assert before == [] && before + rep.newLines == rep.newLines;
  }

  /** An input for which a line is lost: "a" becomes "b" in "a\n\n", whose second line is blank. */
  lemma TrailingBlankLineIsLost()
    ensures LinesOf("a\n\n") == ["a", ""]
    ensures Applied("a\n\n", [Chunk(None, ["a"], ["b"], false)], 0) == Ok(("b\n", 1))
    ensures LinesOf("b\n") == ["b"]
  {
    var a, b, blank := "a", "b", "";
    var before, after := [a] + [blank], [b] + [blank];
    UnlinesTwo(a, blank);
    assert before == [a, blank];
    assert Unlines(before) == a + "\n" + (blank + "\n") == "a\n\n";
    LinesOfUnlines(before);
    FirstLineReplaced(a, [blank], b);
    FinishedIsUnlines(after);
    assert WithoutLast(after) == [b];
    UnlinesOne(b);
    assert Finished(after) == b + "\n" == "b\n";
    LinesOfUnlines([b]);
  }
}
