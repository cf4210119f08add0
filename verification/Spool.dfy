/** The output spool of a run (`OutputSpool` and `Session::run_result` in session.rs): a file
    that takes every captured byte until a write fails, and a bounded tail for the preview. */
module Spool {
  import opened Output
  import opened Wrappers

  // What one call on the file returns: a count of bytes written, or that they are on the disk, or an
  // error.
  datatype Outcome = Took(count: nat) | Synced | Failed

  // A call failed, or wrote nothing of what it was given.
  ghost predicate Faulty(calls: seq<Outcome>) {
    Failed in calls || Took(0) in calls
  }

  // A digest of file contents; the constructor is injective, as SHA-256 is taken to be.
  datatype Digest = Sha256(contents: seq<Byte>)

  datatype OutputFile = OutputFile(sizeBytes: nat, sha256: Option<Digest>, complete: bool)
  datatype RunReport = RunReport(file: OutputFile, output: seq<Chunk>, outputTruncated: bool)

  // What the preview loop keeps of the chunks from `k` on, when `skip` bytes remain to skip.
  lemma SkipChunk(output: seq<Chunk>, tail: seq<Chunk>, k: nat, skip: nat)
    requires k < |tail| && skip <= |Flatten(tail[k..])|
    ensures skip >= |tail[k].data| ==>
              Flatten(tail[k..])[skip..] == Flatten(tail[k + 1..])[skip - |tail[k].data|..]
    ensures skip >= |tail[k].data| ==> skip - |tail[k].data| <= |Flatten(tail[k + 1..])|
    ensures skip < |tail[k].data| ==>
              Flatten(output) + Flatten(tail[k..])[skip..] ==
              Flatten(output + [Chunk(tail[k].stream, tail[k].data[skip..])]) + Flatten(tail[k + 1..])[0..]
  {
    FlattenSplit(tail, k);
    var tag, rest := tail[k].Tag(), Flatten(tail[k + 1..]);
    if skip >= |tag| {
      assert (tag + rest)[skip..] == rest[skip - |tag|..];
    } else {
      var part := Chunk(tail[k].stream, tail[k].data[skip..]);
      assert part.Tag() == tag[skip..];
      assert (tag + rest)[skip..] == part.Tag() + rest;
      FlattenAppend(output, part);
      assert Flatten(output) + (part.Tag() + rest) == Flatten(output) + part.Tag() + rest;
      assert rest[0..] == rest;
    }
  }

  // The tail has the end of the history, behind what was dropped: the last `capacity` bytes, or all.
  ghost predicate TailHolds(
    tail: seq<Chunk>, tailBytes: nat, dropped: seq<Tagged>, history: seq<Tagged>, capacity: nat)
  {
    && history == dropped + Flatten(tail)
    && tailBytes == |Flatten(tail)| == Min(|history|, capacity)
  }

  lemma TailIsLast(tail: seq<Chunk>, tailBytes: nat, dropped: seq<Tagged>, history: seq<Tagged>, capacity: nat)
    requires TailHolds(tail, tailBytes, dropped, history, capacity)
    ensures Flatten(tail) == Last(history, capacity)
  {
    assert history[|dropped|..] == Flatten(tail);
  }

  // The file holds a prefix of the capture, and all of it unless a write failed.
  ghost predicate FileHolds(
    disk: seq<Byte>, hashed: seq<Byte>, size: nat, failed: bool, captured: seq<Byte>)
  {
    && size == |disk| && hashed == disk
    && disk <= captured
    && (!failed ==> disk == captured)
  }

  class OutputSpool {
    // The file on disk and whether it is still open for writing.
    var disk: seq<Byte>
    var open: bool
    var hashed: seq<Byte>
    var sha256: Option<Digest>
    var sizeBytes: nat
    var capturedBytes: nat
    var tail: seq<Chunk>
    var tailBytes: nat
    const tailCapacity: nat
    var failed: bool
    // Everything captured, with and without stream tags, what the tail has dropped of it, what the
    // calls on the file returned, and whether `finalize` has run.
    ghost var history: seq<Tagged>
    ghost var captured: seq<Byte>
    ghost var dropped: seq<Tagged>
    ghost var calls: seq<Outcome>
    ghost var finalized: bool

    // The tail has the end of the history.
    ghost predicate TailOk()
      reads this`tail, this`tailBytes, this`dropped, this`history
    {
      TailHolds(tail, tailBytes, dropped, history, tailCapacity)
    }

    // The file has what was captured until a call failed.
    ghost predicate FileOk()
      reads this`disk, this`hashed, this`sizeBytes, this`failed, this`captured, this`calls
    {
      FileHolds(disk, hashed, sizeBytes, failed, captured) && failed == Faulty(calls)
    }

    ghost predicate Valid()
      reads this
    {
      && capturedBytes == |history| == |captured|
      && TailOk() && FileOk()
      && (if finalized then !open && sha256 == Some(Sha256(disk)) else open == !failed)
    }

    constructor (tailCapacity: nat)
      ensures Valid() && history == [] && captured == [] && calls == [] && !finalized
      ensures this.tailCapacity == tailCapacity
    {
      disk, open, hashed, sha256, sizeBytes, capturedBytes := [], true, [], None, 0, 0;
      tail, tailBytes, failed := [], 0, false;
      this.tailCapacity := tailCapacity;
      history, captured, dropped, calls, finalized := [], [], [], [], false;
    }

    // A write takes any prefix of what it is given, or fails.
    method WriteFile(data: seq<Byte>) returns (outcome: Outcome)
      modifies this`disk, this`calls
      ensures calls == old(calls) + [outcome] && !outcome.Synced?
      ensures outcome.Took? ==> outcome.count <= |data| && disk == old(disk) + data[..outcome.count]
      ensures outcome.Failed? ==> disk == old(disk)
    {
      var fails: bool := *;
      if fails {
        outcome := Failed;
      } else {
        var count :| 0 <= count <= |data|;
        disk := disk + data[..count];
        outcome := Took(count);
      }
      calls := calls + [outcome];
    }

    // `flush` and `sync_data`.
    method Sync() returns (outcome: Outcome)
      modifies this`calls
      ensures calls == old(calls) + [outcome] && !outcome.Took?
    {
      var fails: bool := *;
      outcome := if fails then Failed else Synced;
      calls := calls + [outcome];
    }

    /** Record one read of the child's output. The session joins its readers before it
        finalizes the spool, so no append follows `finalize`. The spool fails only when a write
        does, and is not written to afterwards. */
    method Append(stream: Stream, data: seq<Byte>)
      requires Valid() && !finalized
      modifies this
      ensures Valid() && !finalized
      ensures history == old(history) + Chunk(stream, data).Tag() && captured == old(captured) + data
      ensures old(calls) <= calls && (old(failed) ==> calls == old(calls))
    {
      capturedBytes := capturedBytes + |data|;
      AppendTail(stream, data);
      WriteMore(data);
    }

    // The file gets the data unless a call failed before.
    method WriteMore(data: seq<Byte>)
      requires FileOk() && open == !failed
      modifies this`disk, this`open, this`hashed, this`sizeBytes, this`failed, this`captured, this`calls
      ensures FileOk() && open == !failed
      ensures captured == old(captured) + data && |captured| == |old(captured)| + |data|
      ensures old(calls) <= calls && (old(failed) ==> calls == old(calls))
    {
      if open {
        WriteAll(data);
      } else {
        assert disk <= captured + data;
      }
      captured := captured + data;
    }

    // The write loop: it ends with all of `data` in the file, or with the spool failed.
    method WriteAll(data: seq<Byte>)
      requires open && !failed && FileHolds(disk, hashed, sizeBytes, failed, disk) && !Faulty(calls)
      modifies this`disk, this`open, this`hashed, this`sizeBytes, this`failed, this`calls
      ensures FileHolds(disk, hashed, sizeBytes, failed, old(disk) + data) && old(disk) <= disk
      ensures open == !failed && failed == Faulty(calls) && old(calls) <= calls
    {
      ghost var captured := disk + data;
      var remaining := data;
      while remaining != []
        invariant disk + remaining == captured && old(disk) <= disk
        invariant FileHolds(disk, hashed, sizeBytes, failed, disk) && open && !failed
        invariant !Faulty(calls) && old(calls) <= calls
        decreases |remaining|
      {
        var outcome := WriteFile(remaining);
        if outcome == Failed || outcome.count == 0 {
          failed, open := true, false;
          return;
        }
        hashed := hashed + remaining[..outcome.count];
        sizeBytes := sizeBytes + outcome.count;
        remaining := remaining[outcome.count..];
      }
      assert disk + [] == disk;
    }

    /** `append_tail`: the tail stays the end of the history. */
    method AppendTail(stream: Stream, data: seq<Byte>)
      requires TailOk()
      modifies this`tail, this`tailBytes, this`dropped, this`history
      ensures TailOk()
      ensures history == old(history) + Chunk(stream, data).Tag() && |history| == |old(history)| + |data|
    {
      var added := Chunk(stream, data);
      history := history + added.Tag();
      if tailCapacity == 0 {
        dropped := history;
        return;
      }
      PushMore(tail, dropped, added);
      tail := tail + [added];
      tailBytes := tailBytes + |data|;
      Trim();
    }

    method Trim()
      requires history == dropped + Flatten(tail) && tailBytes == |Flatten(tail)| >= Min(|history|, tailCapacity)
      modifies this`tail, this`tailBytes, this`dropped
      ensures TailOk()
    {
      while tailBytes > tailCapacity
        invariant history == dropped + Flatten(tail) && tailBytes == |Flatten(tail)| >= Min(|history|, tailCapacity)
        decreases tailBytes, |tail|
      {
        var front := tail[0];
        var count := Min(tailBytes - tailCapacity, |front.data|);
        DropMore(tail, dropped, history, count);
        var left := front.data[count..];
        dropped := dropped + front.Tag()[..count];
        tail := if |left| == 0 then tail[1..] else [Chunk(front.stream, left)] + tail[1..];
        tailBytes := tailBytes - count;
      }
    }

    // The file is closed; the last call on it may fail too.
    method Finalize()
      requires Valid() && !finalized
      modifies this`open, this`failed, this`sha256, this`finalized, this`calls
      ensures Valid() && finalized
      ensures old(calls) <= calls && (old(failed) ==> calls == old(calls))
    {
      if open {
        open := false;
        var synced := Sync();
        if synced == Failed {
          failed := true;
        }
      }
      sha256 := Some(Sha256(hashed));
      finalized := true;
    }

    /** The preview is the last `limit` bytes of what the tail retains. */
    method Preview(limit: nat) returns (output: seq<Chunk>)
      requires Valid()
      ensures Flatten(output) == Last(Last(history, tailCapacity), limit)
    {
      PreviewIsLast(tail, tailBytes, dropped, history, tailCapacity, limit);
      output := LastBytes(tail, if tailBytes < limit then 0 else tailBytes - limit);
    }

    /** `Session::run_result`. Whatever writes failed on the way, the reported size and digest
        are those of the file on disk, which is a prefix of the captured bytes; a file reported
        complete is the whole capture, and output not reported truncated is too. */
    method RunResult(limit: nat, outputIncomplete: bool) returns (r: RunReport)
      requires Valid() && finalized
      ensures r.file.sizeBytes == |disk| && r.file.sha256 == Some(Sha256(disk)) && disk <= captured
      ensures r.file.complete <==> !outputIncomplete && !Faulty(calls)
      ensures r.file.complete ==> disk == captured
      ensures Flatten(r.output) == Last(Last(history, tailCapacity), limit)
      ensures r.outputTruncated <==> outputIncomplete || |history| > Min(tailCapacity, limit)
      ensures !r.outputTruncated ==> Flatten(r.output) == history
    {
      var output := Preview(limit);
      var previewBytes := Count(output);
      var complete := !outputIncomplete;
      var file := OutputFile(sizeBytes, sha256, complete && !failed);
      return RunReport(file, output, !complete || capturedBytes > previewBytes);
    }
  }

  lemma PreviewIsLast(tail: seq<Chunk>, tailBytes: nat, dropped: seq<Tagged>, history: seq<Tagged>, capacity: nat,
                      limit: nat)
    requires TailHolds(tail, tailBytes, dropped, history, capacity)
    ensures var skipped := if tailBytes < limit then 0 else tailBytes - limit;
            skipped <= |Flatten(tail)| && Flatten(tail)[skipped..] == Last(Last(history, capacity), limit)
  {
    TailIsLast(tail, tailBytes, dropped, history, capacity);
    LastIsDrop(Flatten(tail), limit);
  }

  lemma LastIsDrop(h: seq<Tagged>, n: nat)
    ensures Last(h, n) == h[if |h| < n then 0 else |h| - n..]
  {
  }

  // The chunks after the first `skipped` bytes.
  method LastBytes(chunks: seq<Chunk>, skipped: nat) returns (output: seq<Chunk>)
    requires skipped <= |Flatten(chunks)|
    ensures Flatten(output) == Flatten(chunks)[skipped..]
  {
    var skip: nat := skipped;
    ghost var wanted := Flatten(chunks)[skipped..];
    output := [];
    for k := 0 to |chunks|
      invariant skip <= |Flatten(chunks[k..])|
      invariant Flatten(output) + Flatten(chunks[k..])[skip..] == wanted
    {
      var chunk := chunks[k];
      SkipChunk(output, chunks, k, skip);
      if skip >= |chunk.data| {
        skip := skip - |chunk.data|;
        continue;
      }
      output := output + [Chunk(chunk.stream, chunk.data[skip..])];
      skip := 0;
    }
    ghost var rest := Flatten(chunks[|chunks|..]);
    assert rest == [] && rest[skip..] == [];
    assert Flatten(output) + [] == Flatten(output);
  }

  method Count(chunks: seq<Chunk>) returns (n: nat)
    ensures n == |Flatten(chunks)|
  {
    n := 0;
    for k := 0 to |chunks|
      invariant n + |Flatten(chunks[k..])| == |Flatten(chunks)|
    {
      FlattenSplit(chunks, k);
      n := n + |chunks[k].data|;
    }
    assert chunks[|chunks|..] == [];
  }
}
