/** Files under an unreliable file system and, possibly, another writer, and the guarded write
    that the patch engine commits with (`write_file_at` and `check_precondition` in
    filesystem.rs). */
module Files {
  import opened Errors
  import opened Text
  import opened Wrappers

  type Path = string

  // The bytes of a file: the encoding of a text, or bytes that are not UTF-8.
  datatype Contents = Utf8(text: string) | Binary(bytes: seq<Byte>)

  function Size(c: Contents): nat {
    match c
    case Utf8(text) => Utf8Size(text)
    case Binary(bytes) => |bytes|
  }

  // SHA-256 taken as injective: a digest is as good as what it was computed from.
  datatype Digest = Sha256(of: Contents)

  function DigestOf(c: Option<Contents>): Option<Digest> {
    if c.Some? then Some(Sha256(c.value)) else None
  }

  function At(files: map<Path, Contents>, path: Path): Option<Contents> {
    if path in files then Some(files[path]) else None
  }

  // Small enough to be read under the limit.
  predicate Fits(c: Option<Contents>, limit: nat) {
    c.Some? ==> Size(c.value) <= limit
  }

  datatype Precondition = Missing | Matches(digest: Digest)

  // `check_precondition`.
  predicate Meets(existing: Option<Digest>, pre: Precondition) {
    match pre
    case Missing => existing.None?
    case Matches(digest) => existing == Some(digest)
  }

  // A look that finds these contents under the limit meets the precondition.
  predicate Passes(c: Option<Contents>, pre: Precondition, limit: nat) {
    Fits(c, limit) && Meets(DigestOf(c), pre)
  }

  // What the first look of a guarded write decides.
  datatype Decision = AlreadyThere | Changed | Write

  function Decide(existing: Option<Contents>, data: Contents, pre: Precondition): Decision {
    if existing == Some(data) then AlreadyThere
    else if !Meets(DigestOf(existing), pre) then Changed
    else Write
  }

  datatype Disposition = Applied | AlreadyApplied

  // What the contents before a write have to be.
  function Wanted(pre: Precondition): Option<Digest> {
    if pre.Missing? then None else Some(pre.digest)
  }

  // A file that came to hold `after` (None: removed) on behalf of a run, in place of what it
  // `expected` there: `found` is what the last look at the file found, `held` what the change
  // replaced. Not `ours` when the run found the file so, put there by somebody else.
  datatype Event = Event(
    path: Path, expected: Option<Digest>, found: Option<Contents>, held: Option<Contents>, after: Option<Contents>,
    ours: bool)

  function Written(path: Path, pre: Precondition, found: Option<Contents>, held: Option<Contents>,
                   data: Contents): Event
  {
    Event(path, Wanted(pre), found, held, Some(data), true)
  }

  function FoundDone(path: Path, pre: Precondition, data: Contents): Event {
    Event(path, Wanted(pre), Some(data), Some(data), Some(data), false)
  }

  function Removed(path: Path, found: Option<Contents>, held: Option<Contents>): Event {
    Event(path, DigestOf(found), found, held, None, true)
  }

  // What runs did, and what the first looks of their writes found.
  datatype Logs = Logs(events: seq<Event>, looked: seq<(Path, Option<Contents>)>)

  // The files that the call number `n` meets when the calls before it change nothing themselves.
  function Met(files: map<Path, Contents>, others: seq<map<Path, Contents>>, n: nat): map<Path, Contents>
    decreases n
  {
    if n == 0 || others == [] then files else Met(others[0], others[1..], n - 1)
  }

  lemma MetNext(files: map<Path, Contents>, others: seq<map<Path, Contents>>, n: nat)
    requires n > 0
    ensures Met(files, others, n) == if others == [] then files else Met(others[0], others[1..], n - 1)
  {
  }

  // The files, and another writer: whatever it does between two calls of a run is laid down in
  // `others`, which may be anything.
  class Disk {
    const quiet: bool     // no other writer
    const reliable: bool  // every call succeeds
    var files: map<Path, Contents>
    var others: seq<map<Path, Contents>>  // the files as the next calls meet them
    var strays: nat       // temporary files left behind
    ghost var events: seq<Event>
    ghost var looked: seq<(Path, Option<Contents>)>  // what the first looks of guarded writes found
    ghost var last: map<Path, Option<Contents>>      // what the last look at a path found

    constructor (quiet: bool, reliable: bool, files: map<Path, Contents>, others: seq<map<Path, Contents>>)
      ensures this.quiet == quiet && this.reliable == reliable
      ensures this.files == files && this.others == others && strays == 0 && events == [] && looked == []
              && last == map[]
    {
      this.quiet, this.reliable, this.files, this.others, strays := quiet, reliable, files, others, 0;
      events, looked, last := [], [], map[];
    }

    // The files as the next call meets them: without another writer, as they are.
    function Seen(): map<Path, Contents>
      reads this
    {
      if quiet || others == [] then files else others[0]
    }

    // What is left to come after the next call.
    function Rest(): seq<map<Path, Contents>>
      reads this
    {
      if quiet || others == [] then others else others[1..]
    }

    // What the call number `n` from now meets at a path.
    function Coming(path: Path, n: nat): Option<Contents>
      reads this
    {
      At(if quiet then files else Met(files, others, n), path)
    }

    ghost function Last(path: Path): Option<Contents>
      reads this
    {
      if path in last then last[path] else None
    }

    ghost function Log(): Logs
      reads this
    {
      Logs(events, looked)
    }

    // Nobody else writes, and no call fails.
    predicate Calm() {
      quiet && reliable
    }

    // Whatever another writer does between two calls.
    method Interfere()
      modifies this`files, this`others
      ensures files == old(Seen()) && others == old(Rest())
    {
      if !quiet && others != [] {
        files, others := others[0], others[1..];
      }
    }

    method Fails() returns (fault: Option<ErrorCode>)
      ensures reliable ==> fault.None?
      ensures fault.None? || fault == Some(Io) || fault == Some(InvalidArgument)
    {
      fault := None;
      if !reliable {
        if * {
          fault := Some(Io);
        } else if * {
          fault := Some(InvalidArgument);
        }
      }
    }

    // `read_file_at`: one look at a regular file of at most `limit` bytes.
    method Read(path: Path, limit: nat) returns (r: Result<Contents, ErrorCode>)
      modifies this`files, this`others
      ensures files == old(Seen()) && others == old(Rest())
      ensures r.Ok? ==> At(files, path) == Some(r.value) && Size(r.value) <= limit
      ensures r == Err(NotFound) ==> path !in files
      ensures r != Err(PreconditionFailed)
      ensures reliable ==>
                r == if path !in files then Err(NotFound)
                     else if Size(files[path]) > limit then Err(ResourceLimit)
                     else Ok(files[path])
    {
      Interfere();
      var fault := Fails();
      if fault.Some? {
        return Err(fault.value);
      }
      if path !in files {
        return Err(NotFound);
      }
      if Size(files[path]) > limit {
        return Err(ResourceLimit);
      }
      return Ok(files[path]);
    }

    // `read_optional`: a missing file is an answer.
    method ReadOptional(path: Path, limit: nat) returns (r: Result<Option<Contents>, ErrorCode>)
      modifies this`files, this`others, this`last
      ensures files == old(Seen()) && others == old(Rest())
      ensures last == if r.Ok? then old(last)[path := r.value] else old(last)
      ensures r.Ok? ==> At(files, path) == r.value && Fits(r.value, limit)
      ensures r != Err(PreconditionFailed)
      ensures reliable && Fits(At(files, path), limit) ==> r.Ok?
    {
      var read := Read(path, limit);
      if read.Ok? {
        last := last[path := Some(read.value)];
        return Ok(Some(read.value));
      }
      if read.error == NotFound {
        last := last[path := None];
        return Ok(None);
      }
      return Err(read.error);
    }

    // `verify`: the path holds what is expected, or nothing when nothing is.
    method Verify(path: Path, expected: Option<Contents>, limit: nat) returns (fault: Option<ErrorCode>)
      modifies this`files, this`others, this`last
      ensures files == old(Seen()) && others == old(Rest())
      ensures fault.None? ==> At(files, path) == expected && last == old(last)[path := expected]
      ensures reliable && At(files, path) == expected && Fits(expected, limit) ==> fault.None?
    {
      var current := ReadOptional(path, limit);
      if current.Err? {
        return Some(current.error);
      }
      return if current.value == expected then None else Some(PreconditionFailed);
    }

    // The rename over the target. A call that fails may still have taken effect.
    method Rename(path: Path, data: Contents, ghost pre: Precondition) returns (fault: Option<ErrorCode>)
      modifies this`files, this`others, this`events
      ensures reliable ==> fault.None?
      ensures fault != Some(PreconditionFailed)
      ensures events == old(events) + [Written(path, pre, Last(path), At(old(Seen()), path), data)]
              || (fault.Some? && events == old(events))
      ensures files == if events == old(events) then old(Seen()) else old(Seen())[path := data]
    {
      Interfere();
      fault := Fails();
      var effect := true;
      if fault.Some? {
        effect := *;
      }
      if effect {
        events := events + [Written(path, pre, Last(path), At(files, path), data)];
        files := files[path := data];
      }
    }

    // `fs::remove_file`.
    method Remove(path: Path) returns (fault: Option<ErrorCode>)
      modifies this`files, this`others, this`events
      ensures fault != Some(PreconditionFailed)
      ensures events == old(events) + [Removed(path, Last(path), At(old(Seen()), path))]
              || (fault.Some? && events == old(events))
      ensures files == if events == old(events) then old(Seen()) else old(Seen()) - {path}
      ensures reliable && path in old(Seen()) ==> fault.None?
    {
      Interfere();
      if path !in files {
        return Some(NotFound);
      }
      fault := Fails();
      var effect := true;
      if fault.Some? {
        effect := *;
      }
      if effect {
        events := events + [Removed(path, Last(path), At(files, path))];
        files := files - {path};
      }
    }

    // The contents written to a temporary file, the precondition looked at once more, and the
    // rename, which replaces the file only when that look finds what it wants; the temporary file
    // is removed when anything fails.
    method WriteThrough(path: Path, data: Contents, pre: Precondition, limit: nat) returns (fault: Option<ErrorCode>)
      modifies this`files, this`others, this`events, this`strays, this`last
      ensures events == old(events)
              || (Meets(DigestOf(old(Coming(path, 1))), pre)
                  && events == old(events) + [Written(path, pre, old(Coming(path, 1)), old(Coming(path, 2)), data)])
      ensures fault.None? ==> events != old(events)
      ensures fault == Some(PreconditionFailed) ==> events == old(events)
      ensures quiet ==> files == if events == old(events) then old(files) else old(files)[path := data]
      ensures reliable && Passes(old(Coming(path, 1)), pre, limit) ==> fault.None?
      ensures strays == old(strays) || (fault.Some? && !reliable && strays == old(strays) + 1)
    {
      MetNext(files, others, 1);
      MetNext(files, others, 2);
      fault := Fails();
      if fault.None? {
        var existing := ReadOptional(path, limit);
        if existing.Err? {
          fault := Some(existing.error);
        } else if !Meets(DigestOf(existing.value), pre) {
          fault := Some(PreconditionFailed);
        } else {
          MetNext(files, others, 1);
          fault := Rename(path, data, pre);
        }
      }
      if fault.Some? {
        var kept := Fails();
        if kept.Some? {
          strays := strays + 1;
        }
      }
    }

    // What a guarded write did, when its first look found `found`, its second one `again`, and the
    // change itself met `held`.
    ghost predicate Outcome(
      path: Path, data: Contents, pre: Precondition, found: Option<Contents>, again: Option<Contents>,
      held: Option<Contents>, r: Result<Disposition, ErrorCode>, did: seq<Event>)
    {
      match Decide(found, data, pre)
      case AlreadyThere =>
        r == Ok(AlreadyApplied) && did == if pre == Matches(Sha256(data)) then [] else [FoundDone(path, pre, data)]
      case Changed => r == Err(PreconditionFailed) && did == []
      case Write =>
        && r != Ok(AlreadyApplied) && (r == Err(PreconditionFailed) ==> did == [])
        && if did == [] then r.Err? else Meets(DigestOf(again), pre) && did == [Written(path, pre, again, held, data)]
    }

    /** `write_file_at` under a precondition: success means the file has the data, put there by
        this call behind a second look at the precondition, or found there; a failed precondition
        means nothing was written; after any other error it may have been. `found` is what the
        first look found, if it succeeded: when that is the data already, the call claims a change
        exactly if the precondition was another. */
    method WriteFileAt(path: Path, data: Contents, pre: Precondition, limit: nat)
      returns (r: Result<Disposition, ErrorCode>, ghost did: seq<Event>, ghost found: Option<Option<Contents>>)
      modifies this
      ensures events == old(events) + did
      ensures looked == old(looked) + if found.Some? then [(path, found.value)] else []
      ensures found.None? ==> r.Err? && r.error != PreconditionFailed && did == []
      ensures found.Some? ==>
                && found.value == old(Coming(path, 1))
                && Outcome(path, data, pre, found.value, old(Coming(path, 2)), old(Coming(path, 3)), r, did)
      ensures reliable && Fits(old(Coming(path, 1)), limit) ==> found.Some?
      ensures reliable && Passes(old(Coming(path, 1)), pre, limit) && Passes(old(Coming(path, 2)), pre, limit) ==> r.Ok?
      ensures quiet ==> files == if did != [] then old(files)[path := data] else old(files)
      ensures quiet && r.Ok? ==> At(files, path) == Some(data)
      ensures strays == old(strays) || (r.Err? && !reliable && strays == old(strays) + 1)
    {
      did, found := [], None;
      MetNext(files, others, 1);
      MetNext(files, others, 2);
      MetNext(files, others, 3);
      var existing := ReadOptional(path, limit);
      if existing.Err? {
        return Err(existing.error), did, found;
      }
      found := Some(existing.value);
      looked := looked + [(path, existing.value)];
      match Decide(existing.value, data, pre)
      case AlreadyThere =>
        if pre != Matches(Sha256(data)) {
          did := [FoundDone(path, pre, data)];
          events := events + did;
        }
        return Ok(AlreadyApplied), did, found;
      case Changed =>
        return Err(PreconditionFailed), did, found;
      case Write =>
      ghost var again, held := Coming(path, 1), Coming(path, 2);
      var fault := WriteThrough(path, data, pre, limit);
      if events != old(events) {
        did := [Written(path, pre, again, held, data)];
      }
      return (if fault.Some? then Err(fault.value) else Ok(Applied)), did, found;
    }
  }
}
