/** The bounded output journal (journal.rs): appends trim the oldest bytes in place, and
    readers with cursors interleave with them. Offsets count bytes from the first one. */
module Journal {
  import opened Output
  import opened Wrappers

  datatype ReturnReason = OutputLimit | Finished | Activity | WaitElapsed
  datatype Cursor = Cursor(handle: nat, offset: nat, revision: nat)
  datatype Execution = Execution(handle: nat, finished: bool)
  datatype Observation = Observation(
    output: seq<Chunk>, nextCursor: Cursor, hasMore: bool, outputGap: bool, returnReason: ReturnReason)
  datatype ReadError = InvalidCursor

  class Journal {
    var chunks: seq<Chunk>
    var start: nat
    var end: nat
    const capacity: nat
    var revision: nat
    // Every byte ever appended, and those that are gone.
    ghost var history: seq<Tagged>
    ghost var dropped: seq<Tagged>

    // The journal holds exactly the newest `capacity` bytes of the history.
    ghost predicate Valid()
      reads this
    {
      && end == |history|
      && start == |dropped| == Start(history, capacity)
      && history == dropped + Flatten(chunks)
    }

    constructor (capacity: nat)
      ensures Valid() && history == [] && this.capacity == capacity && revision == 0
    {
      chunks, start, end, revision := [], 0, 0, 0;
      this.capacity := capacity;
      history, dropped := [], [];
    }

    method Append(stream: Stream, data: seq<Byte>)
      requires Valid()
      modifies this
      ensures Valid()
      ensures history == old(history) + Chunk(stream, data).Tag()
      ensures revision == old(revision)
    {
      var added := Chunk(stream, data);
      PushMore(chunks, dropped, added);
      end := end + |data|;
      chunks := chunks + [added];
      history := history + added.Tag();
      Trim(if end < capacity then 0 else end - capacity);
    }

    // The trimming loop of `append`: the oldest bytes go, up to `target`.
    method Trim(target: nat)
      requires target <= |history| && start == |dropped| && history == dropped + Flatten(chunks)
      modifies this`chunks, this`start, this`dropped
      ensures start == |dropped| == Max(old(start), target) && history == dropped + Flatten(chunks)
    {
      while start < target
        invariant old(start) <= start == |dropped| <= Max(old(start), target)
        invariant history == dropped + Flatten(chunks)
        decreases target - start, |chunks|
      {
        assert |Flatten(chunks)| > 0;
        var front := chunks[0];
        var discard := Min(target - start, |front.data|);
        DropMore(chunks, dropped, history, discard);
        start := start + discard;
        dropped := dropped + front.Tag()[..discard];
        chunks :=
          if discard == |front.data| then chunks[1..]
          else [Chunk(front.stream, front.data[discard..])] + chunks[1..];
      }
    }

    // The bytes in [begin, stop), walking the chunks with a moving position.
    method Collect(begin: nat, stop: nat) returns (output: seq<Chunk>)
      requires Valid() && start <= begin <= stop <= end
      ensures Flatten(output) == history[begin..stop]
      ensures NoneEmpty(output)
    {
      var position := start;
      output := [];
      var k := 0;
      CollectedIs(history, dropped, chunks, begin, stop);
      ghost var all := Collected(chunks, 0, start, begin, stop);
      assert [] + all == all;
      while k < |chunks|
        invariant 0 <= k <= |chunks| && 0 <= position
        invariant output + Collected(chunks, k, position, begin, stop) == all
      {
        var part := Within(chunks[k], position, begin, stop);
        Regroup(output, part, CollectedAfter(chunks, k, position, begin, stop));
        output := output + part;
        position := position + |chunks[k].data|;
        k := k + 1;
        if position >= stop {
          Regroup(output, [], []);
          break;
        }
      }
      assert output + [] == output;
    }

    /** A cursor of another execution, or ahead of the journal, is refused. Any other read
        returns the stream-tagged history from the later of the cursor and the retained start,
        at most `limit` bytes of it, and says whether bytes before it were discarded. */
    method Read(execution: Execution, after: Option<Cursor>, limit: nat)
      returns (r: Result<Observation, ReadError>)
      requires Valid()
      ensures r.Err? <==> after.Some? && (after.value.handle != execution.handle
                          || after.value.offset > |history| || after.value.revision > revision)
      ensures r.Ok? ==>
                var requested := if after.Some? then after.value.offset else 0;
                var v := View(history, capacity, requested, limit);
                && Flatten(r.value.output) == history[v.begin..v.end]
                && NoneEmpty(r.value.output)
                && r.value.nextCursor == Cursor(execution.handle, v.end, revision)
                && r.value.hasMore == v.more && r.value.outputGap == v.gap
                && (r.value.hasMore ==> r.value.returnReason == OutputLimit)
                && (r.value.returnReason == OutputLimit <==> v.end == v.begin + limit)
                && (r.value.returnReason == WaitElapsed ==>
                      !execution.finished && v.begin == v.end && !v.gap && after.Some?
                      && after.value.revision == revision)
    {
      if after.Some? && (after.value.handle != execution.handle
                         || after.value.offset > end || after.value.revision > revision) {
        return Err(InvalidCursor);
      }
      var requested := if after.Some? then after.value.offset else 0;
      var begin := Max(requested, start);
      var stop := Min(end, begin + limit);
      var output := Collect(begin, stop);
      var hasMore := stop < end;
      var gap := requested < start;
      var reason :=
        if stop - begin >= limit then OutputLimit
        else if execution.finished then Finished
        else if output != [] || gap || after.None? || after.value.revision < revision then Activity
        else WaitElapsed;
      if reason == WaitElapsed {
        assert Flatten(output) == [];
      }
      return Ok(Observation(output, Cursor(execution.handle, stop, revision), hasMore, gap, reason));
    }
  }

  ghost predicate NoneEmpty(chunks: seq<Chunk>) {
    forall c :: c in chunks ==> c.data != []
  }

  // How far a walk that has come to `position` has taken bytes.
  function Taken(begin: nat, position: nat, stop: nat): (t: nat)
    requires begin <= stop
    ensures begin <= t <= stop
    ensures t == begin || t <= position
    ensures t == stop || position <= begin || t == position
  {
    Max(begin, Min(position, stop))
  }

  // What a walk that has come to chunk `k`, at `position`, still takes in [begin, stop).
  function Collected(chunks: seq<Chunk>, k: nat, position: nat, begin: nat, stop: nat): seq<Chunk>
    decreases |chunks| - k, 1
  {
    if k >= |chunks| then []
    else Within(chunks[k], position, begin, stop) + CollectedAfter(chunks, k, position, begin, stop)
  }

  function CollectedAfter(chunks: seq<Chunk>, k: nat, position: nat, begin: nat, stop: nat): seq<Chunk>
    requires k < |chunks|
    decreases |chunks| - k, 0
  {
    var next := position + |chunks[k].data|;
    if next >= stop then [] else Collected(chunks, k + 1, next, begin, stop)
  }

  lemma Regroup(a: seq<Chunk>, b: seq<Chunk>, c: seq<Chunk>)
    ensures a + (b + c) == a + b + c
  {
  }

  // What it takes of one chunk.
  function Within(chunk: Chunk, position: nat, begin: nat, stop: nat): seq<Chunk> {
    var from, to := Max(begin, position), Min(stop, position + |chunk.data|);
    if from < to then [Part(chunk, position, from, to)] else []
  }

  /** Together the parts are exactly what the history has in [begin, stop). */
  lemma CollectedIs(h: seq<Tagged>, before: seq<Tagged>, chunks: seq<Chunk>, begin: nat, stop: nat)
    requires h == before + Flatten(chunks) && |before| <= begin <= stop <= |h|
    ensures Flatten(Collected(chunks, 0, |before|, begin, stop)) == h[begin..stop]
    ensures NoneEmpty(Collected(chunks, 0, |before|, begin, stop))
  {
    assert chunks[0..] == chunks && h[|before|..] == Flatten(chunks);
    CollectedFrom(h, chunks, 0, |before|, begin, stop);
  }

  lemma NextChunk(h: seq<Tagged>, chunks: seq<Chunk>, k: nat, position: nat)
    requires k < |chunks| && position <= |h| && Flatten(chunks[k..]) == h[position..]
    ensures position + |chunks[k].data| <= |h|
    ensures chunks[k].Tag() == h[position..position + |chunks[k].data|]
    ensures Flatten(chunks[k + 1..]) == h[position + |chunks[k].data|..]
  {
    FlattenSplit(chunks, k);
    var tag, rest := chunks[k].Tag(), Flatten(chunks[k + 1..]);
    assert |tag + rest| == |h| - position;
    assert tag == (tag + rest)[..|tag|] && rest == (tag + rest)[|tag|..];
  }

  lemma {:induction false} CollectedFrom(h: seq<Tagged>, chunks: seq<Chunk>, k: nat, position: nat, begin: nat,
                                         stop: nat)
    requires k <= |chunks| && position <= |h| && Flatten(chunks[k..]) == h[position..] && begin <= stop <= |h|
    ensures Flatten(Collected(chunks, k, position, begin, stop)) == h[Taken(begin, position, stop)..stop]
    ensures NoneEmpty(Collected(chunks, k, position, begin, stop))
    decreases |chunks| - k, 1
  {
    if k == |chunks| {
      assert |h[position..]| == 0;
    } else {
      var next := position + |chunks[k].data|;
      var a, b := Taken(begin, position, stop), Taken(begin, next, stop);
      NextChunk(h, chunks, k, position);
      WithinIs(h, chunks[k], position, begin, stop, a, b);
      CollectedRest(h, chunks, k, position, begin, stop, b);
      JoinParts(h, Within(chunks[k], position, begin, stop), CollectedAfter(chunks, k, position, begin, stop),
                a, b, stop);
    }
  }

  // What is taken after chunk `k`.
  lemma {:induction false} CollectedRest(
    h: seq<Tagged>, chunks: seq<Chunk>, k: nat, position: nat, begin: nat, stop: nat, b: nat)
    requires k < |chunks| && position + |chunks[k].data| <= |h| && begin <= stop <= |h|
    requires Flatten(chunks[k + 1..]) == h[position + |chunks[k].data|..]
    requires b == Taken(begin, position + |chunks[k].data|, stop)
    ensures Flatten(CollectedAfter(chunks, k, position, begin, stop)) == h[b..stop]
    ensures NoneEmpty(CollectedAfter(chunks, k, position, begin, stop))
    decreases |chunks| - k, 0
  {
    var next := position + |chunks[k].data|;
    if next < stop {
      CollectedFrom(h, chunks, k + 1, next, begin, stop);
    } else {
      NoSlice(h, stop);
    }
  }

  lemma JoinParts(h: seq<Tagged>, part: seq<Chunk>, after: seq<Chunk>, a: nat, b: nat, stop: nat)
    requires a <= b <= stop <= |h| && Flatten(part) == h[a..b] && Flatten(after) == h[b..stop]
    requires NoneEmpty(part) && NoneEmpty(after)
    ensures Flatten(part + after) == h[a..stop] && NoneEmpty(part + after)
  {
    FlattenConcat(part, after);
    JoinSlices(h, a, b, stop);
  }

  lemma WithinIs(h: seq<Tagged>, chunk: Chunk, position: nat, begin: nat, stop: nat, a: nat, b: nat)
    requires begin <= stop <= |h| && position + |chunk.data| <= |h|
    requires chunk.Tag() == h[position..position + |chunk.data|]
    requires a == Taken(begin, position, stop) && b == Taken(begin, position + |chunk.data|, stop)
    ensures a <= b && Flatten(Within(chunk, position, begin, stop)) == h[a..b]
    ensures NoneEmpty(Within(chunk, position, begin, stop))
  {
    TakenNext(begin, position, position + |chunk.data|, stop);
    if Max(begin, position) < Min(stop, position + |chunk.data|) {
      OnePart(h, chunk, position, a, b);
    } else {
      NoSlice(h, a);
    }
  }

  lemma OnePart(h: seq<Tagged>, chunk: Chunk, position: nat, from: nat, to: nat)
    requires position + |chunk.data| <= |h| && chunk.Tag() == h[position..position + |chunk.data|]
    requires position <= from < to <= position + |chunk.data|
    ensures Flatten([Part(chunk, position, from, to)]) == h[from..to] && NoneEmpty([Part(chunk, position, from, to)])
  {
    PartTag(h, chunk, position, from, to);
    FlattenOne(Part(chunk, position, from, to));
  }

  lemma NoSlice(h: seq<Tagged>, a: nat)
    requires a <= |h|
    ensures h[a..a] == []
  {
  }

  lemma TakenNext(begin: nat, position: nat, next: nat, stop: nat)
    requires begin <= stop && position <= next
    ensures var from, to := Max(begin, position), Min(stop, next);
            if from < to then from == Taken(begin, position, stop) && to == Taken(begin, next, stop)
            else Taken(begin, position, stop) == Taken(begin, next, stop)
  {
  }

  // What [from, to) has of a chunk at `position`.
  function Part(chunk: Chunk, position: nat, from: nat, to: nat): Chunk
    requires position <= from <= to <= position + |chunk.data|
  {
    Chunk(chunk.stream, chunk.data[from - position..to - position])
  }

  lemma PartTag(h: seq<Tagged>, chunk: Chunk, position: nat, from: nat, to: nat)
    requires position + |chunk.data| <= |h| && chunk.Tag() == h[position..position + |chunk.data|]
    requires position <= from <= to <= position + |chunk.data|
    ensures Part(chunk, position, from, to).Tag() == h[from..to]
  {
    TagSlice(chunk, from - position, to - position);
    SliceOfSlice(h, position, position + |chunk.data|, from - position, to - position);
    assert position + (from - position) == from && position + (to - position) == to;
  }

  lemma JoinSlices(h: seq<Tagged>, a: nat, b: nat, c: nat)
    requires a <= b <= c <= |h|
    ensures h[a..b] + h[b..c] == h[a..c]
  {
  }

  ghost function Start(history: seq<Tagged>, capacity: nat): nat {
    if |history| < capacity then 0 else |history| - capacity
  }

  // The stretch [begin, end) that a read asking for `requested` onwards returns.
  datatype Window = Window(begin: nat, end: nat, gap: bool, more: bool)

  ghost function View(history: seq<Tagged>, capacity: nat, requested: nat, limit: nat): (w: Window)
    requires requested <= |history|
    ensures w.begin <= w.end <= |history|
  {
    var start := Start(history, capacity);
    var begin := Max(requested, start);
    var end := Min(|history|, begin + limit);
    Window(begin, end, requested < start, end < |history|)
  }

  // One reader following its own cursors while output arrives.
  datatype Event = Appended(data: seq<Tagged>) | Polled(limit: nat)
  datatype Follower = Follower(cursor: nat, got: seq<Tagged>, lost: nat, gapSeen: bool)

  ghost function HistoryAfter(history: seq<Tagged>, events: seq<Event>): seq<Tagged>
    decreases |events|
  {
    if events == [] then history
    else HistoryAfter(if events[0].Appended? then history + events[0].data else history, events[1..])
  }

  ghost function Follow(history: seq<Tagged>, capacity: nat, f: Follower, events: seq<Event>): Follower
    requires f.cursor <= |history|
    decreases |events|
  {
    if events == [] then f
    else match events[0]
         case Appended(data) => Follow(history + data, capacity, f, events[1..])
         case Polled(limit) =>
           var w := View(history, capacity, f.cursor, limit);
           var f' := Follower(w.end, f.got + history[w.begin..w.end],
                              f.lost + w.begin - f.cursor, f.gapSeen || w.gap);
           Follow(history, capacity, f', events[1..])
  }

  // What the reader holds is all of the history up to its cursor but the `lost` bytes, and
  // bytes are missing exactly when some read reported a gap.
  ghost predicate Lossless(history: seq<Tagged>, f: Follower) {
    && f.cursor <= |history|
    && |f.got| + f.lost == f.cursor
    && (f.gapSeen <==> f.lost > 0)
    && (!f.gapSeen ==> f.got == history[..f.cursor])
  }

  /** Reading is lossless across every interleaving of appends and reads: a reader that never
      sees `output_gap` has collected exactly the history up to its cursor, and `output_gap`
      is reported exactly when bytes the reader asked for were discarded. */
  lemma {:induction false} ReadersLoseNothingUnreported(
    history: seq<Tagged>, capacity: nat, f: Follower, events: seq<Event>)
    requires Lossless(history, f)
    ensures history <= HistoryAfter(history, events)
    ensures Lossless(HistoryAfter(history, events), Follow(history, capacity, f, events))
    decreases |events|
  {
    if events != [] {
      match events[0]
      case Appended(data) =>
        ReadersLoseNothingUnreported(history + data, capacity, f, events[1..]);
        assert history <= history + data;
      case Polled(limit) =>
        var w := View(history, capacity, f.cursor, limit);
        var f' := Follower(w.end, f.got + history[w.begin..w.end],
                           f.lost + w.begin - f.cursor, f.gapSeen || w.gap);
        if !f'.gapSeen {
          assert w.begin == f.cursor;
          assert history[..f.cursor] + history[f.cursor..w.end] == history[..w.end];
        }
        ReadersLoseNothingUnreported(history, capacity, f', events[1..]);
    }
  }

  /** A new reader, starting without a cursor. */
  lemma NewReaderCollectsHistory(capacity: nat, events: seq<Event>)
    ensures var f := Follow([], capacity, Follower(0, [], 0, false), events);
            var h := HistoryAfter([], events);
            && f.cursor <= |h|
            && (f.gapSeen ==> f.got != h[..f.cursor])
            && (!f.gapSeen ==> f.got == h[..f.cursor])
  {
    ReadersLoseNothingUnreported([], capacity, Follower(0, [], 0, false), events);
  }

  ghost function Polls(n: nat, limit: nat): seq<Event> {
    seq(n, _ => Polled(limit))
  }

  /** Repeated reads of a journal that no longer changes drain it: after enough of them the
      cursor is at the end and everything retained from the cursor on has been returned. */
  lemma {:induction false} RepeatedReadsDrain(
    history: seq<Tagged>, capacity: nat, f: Follower, limit: nat, n: nat)
    requires f.cursor <= |history| && limit > 0
    requires |history| - Max(f.cursor, Start(history, capacity)) <= n * limit
    ensures var g := Follow(history, capacity, f, Polls(n, limit));
            n > 0 ==> g.cursor == |history|
                      && g.got == f.got + history[Max(f.cursor, Start(history, capacity))..]
    decreases n
  {
    if n > 0 {
      var w := View(history, capacity, f.cursor, limit);
      var f' := Follower(w.end, f.got + history[w.begin..w.end],
                         f.lost + w.begin - f.cursor, f.gapSeen || w.gap);
      assert Polls(n, limit)[1..] == Polls(n - 1, limit);
      assert n * limit == (n - 1) * limit + limit;
      RepeatedReadsDrain(history, capacity, f', limit, n - 1);
      assert history[w.begin..w.end] + history[w.end..] == history[w.begin..];
    }
  }
}
