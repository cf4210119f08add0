/** Captured output as a history of stream-tagged bytes, and deques of chunks that hold a
    stretch of it. Shared by the observation journal and the run spool. */
module Output {
  import opened Wrappers

  datatype Stream = Stdout | Stderr | Terminal

  datatype Tagged = Tagged(stream: Stream, byte: Byte)

  datatype Chunk = Chunk(stream: Stream, data: seq<Byte>) {
    ghost function Tag(): (h: seq<Tagged>)
      ensures |h| == |data|
    {
      seq(|data|, i requires 0 <= i < |data| => Tagged(stream, data[i]))
    }
  }

  ghost function Flatten(chunks: seq<Chunk>): seq<Tagged> {
    if chunks == [] then [] else chunks[0].Tag() + Flatten(chunks[1..])
  }

  lemma {:induction false} FlattenAppend(chunks: seq<Chunk>, c: Chunk)
    ensures Flatten(chunks + [c]) == Flatten(chunks) + c.Tag()
  {
    if chunks == [] {
      assert chunks + [c] == [c];
      assert Flatten([c]) == c.Tag() + Flatten([]);
    } else {
      assert (chunks + [c])[1..] == chunks[1..] + [c];
      FlattenAppend(chunks[1..], c);
    }
  }

  lemma FlattenOne(c: Chunk)
    ensures Flatten([c]) == c.Tag()
  {
    FlattenAppend([], c);
    assert [] + [c] == [c] && [] + c.Tag() == c.Tag();
  }

  lemma {:induction false} FlattenConcat(a: seq<Chunk>, b: seq<Chunk>)
    ensures Flatten(a + b) == Flatten(a) + Flatten(b)
  {
    if a == [] {
      assert a + b == b;
    } else {
      assert (a + b)[1..] == a[1..] + b;
      FlattenConcat(a[1..], b);
      assert a[0].Tag() + (Flatten(a[1..]) + Flatten(b)) == a[0].Tag() + Flatten(a[1..]) + Flatten(b);
    }
  }

  lemma FlattenSplit(chunks: seq<Chunk>, k: nat)
    requires k < |chunks|
    ensures Flatten(chunks[k..]) == chunks[k].Tag() + Flatten(chunks[k + 1..])
  {
    assert chunks[k..][1..] == chunks[k + 1..];
  }

  lemma TagSlice(c: Chunk, from: nat, to: nat)
    requires from <= to <= |c.data|
    ensures Chunk(c.stream, c.data[from..to]).Tag() == c.Tag()[from..to]
  {
  }

  lemma SliceOfSlice(s: seq<Tagged>, a: nat, b: nat, c: nat, d: nat)
    requires a <= b <= |s| && c <= d <= b - a
    ensures s[a..b][c..d] == s[a + c..a + d]
  {
    var x, y := s[a..b][c..d], s[a + c..a + d];
    forall i | 0 <= i < d - c
      ensures x[i] == y[i]
    {
      assert s[a..b][c + i] == s[a + (c + i)];
    }
    assert |x| == |y| == d - c;
  }

  // Dropping `n` bytes of the front chunk drops the `n` oldest bytes of the deque.
  lemma DropFront(chunks: seq<Chunk>, n: nat)
    requires chunks != [] && n <= |chunks[0].data|
    ensures Flatten([Chunk(chunks[0].stream, chunks[0].data[n..])] + chunks[1..]) == Flatten(chunks)[n..]
    ensures n == |chunks[0].data| ==> Flatten(chunks[1..]) == Flatten(chunks)[n..]
  {
    var front := chunks[0];
    var kept := Chunk(front.stream, front.data[n..]);
    assert kept.Tag() == front.Tag()[n..];
    assert ([kept] + chunks[1..])[1..] == chunks[1..];
    assert (front.Tag() + Flatten(chunks[1..]))[n..] == front.Tag()[n..] + Flatten(chunks[1..]);
  }

  // Bytes at the front of the chunks that hold the end of a history, dropped.
  lemma DropMore(chunks: seq<Chunk>, dropped: seq<Tagged>, history: seq<Tagged>, count: nat)
    requires chunks != [] && count <= |chunks[0].data| && history == dropped + Flatten(chunks)
    ensures var more := dropped + chunks[0].Tag()[..count];
            && history == more + Flatten([Chunk(chunks[0].stream, chunks[0].data[count..])] + chunks[1..])
            && (count == |chunks[0].data| ==> history == more + Flatten(chunks[1..]))
  {
    DropFront(chunks, count);
    var flat := Flatten(chunks);
    assert flat[..count] == chunks[0].Tag()[..count];
    Resplit(dropped, flat, count);
  }

  lemma Resplit(a: seq<Tagged>, b: seq<Tagged>, n: nat)
    requires n <= |b|
    ensures a + b == a + b[..n] + b[n..]
  {
  }

  // One more chunk at the end.
  lemma PushMore(chunks: seq<Chunk>, dropped: seq<Tagged>, added: Chunk)
    ensures dropped + Flatten(chunks) + added.Tag() == dropped + Flatten(chunks + [added])
  {
    FlattenAppend(chunks, added);
    assert dropped + (Flatten(chunks) + added.Tag()) == dropped + Flatten(chunks) + added.Tag();
  }

  // The last `n` elements of `h`, or all of it.
  ghost function Last(h: seq<Tagged>, n: nat): (r: seq<Tagged>)
    ensures |r| == if n < |h| then n else |h|
  {
    if n < |h| then h[|h| - n..] else h
  }

  function Max(a: nat, b: nat): nat { if a < b then b else a }

  function Min(a: nat, b: nat): nat { if a < b then a else b }
}
