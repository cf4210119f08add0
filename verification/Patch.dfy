/** Committing a planned patch and reporting it (`execute`, `PatchReceipt` and `apply_patch` in
    patch.rs): the steps are taken one by one, each behind a last look at the files, and the
    receipt says what the run changed, whatever fails on the way. */
module Patch {
  import CodexParser
  import opened Errors
  import opened Files
  import opened Plan
  import Replace
  import opened Text
  import opened Wrappers

  const MAX_PATCH_BYTES: nat := 2 * 1024 * 1024
  const MAX_PATCH_FILES: nat := 32
  const MAX_PATCH_EDITS: nat := 256

  datatype Status = Applied | Rejected | Partial

  datatype Change = Change(
    kind: ChangeKind, path: Path, destination: Option<Path>,
    before: Option<Digest>, after: Option<Digest>, destinationBefore: Option<Digest>)

  datatype Failure = Failure(code: ErrorCode, section: Option<nat>, edit: Option<nat>)

  // The receipt as it is stored and handed out.
  datatype Receipt = Receipt(
    mutationId: string, status: Status, changesExact: bool, changes: seq<Change>, error: Option<Failure>)

  class PatchReceipt {
    const mutationId: string
    var status: Status
    var changesExact: bool
    var changes: seq<Change>
    var error: Option<Failure>

    constructor (mutationId: string)
      ensures this.mutationId == mutationId && status == Status.Applied && changesExact && changes == []
              && error == None
    {
      this.mutationId, status, changesExact, changes, error := mutationId, Status.Applied, true, [], None;
    }

    function Value(): (r: Receipt)
      reads this
    {
      Receipt(mutationId, status, changesExact, changes, error)
    }

    method Fail(code: ErrorCode, section: Option<nat>, edit: Option<nat>, uncertain: bool)
      modifies this`status, this`changesExact, this`error
      ensures status == if uncertain || changes != [] then Partial else Rejected
      ensures changesExact == !uncertain && error == Some(Failure(code, section, edit))
    {
      status := if uncertain || changes != [] then Partial else Rejected;
      changesExact := !uncertain;
      error := Some(Failure(code, section, edit));
    }
  }

  function ChangeOf(s: Step): Change {
    Change(s.kind, s.path, s.destination, DigestOf(s.before), DigestOf(s.after), DigestOf(s.destinationBefore))
  }

  function ChangesOf(steps: seq<Step>): (cs: seq<Change>)
    ensures |cs| == |steps| && forall i :: 0 <= i < |cs| ==> cs[i] == ChangeOf(steps[i])
  {
    seq(|steps|, i requires 0 <= i < |steps| => ChangeOf(steps[i]))
  }

  // A path, the digest of what a change of it was to replace, and of what it came to hold (None:
  // nothing).
  datatype Mark = Mark(path: Path, before: Option<Digest>, after: Option<Digest>)

  function MarkOf(e: Event): Mark { Mark(e.path, e.expected, DigestOf(e.after)) }

  function Marks(events: seq<Event>): (ms: seq<Mark>)
    ensures |ms| == |events| && forall i :: 0 <= i < |ms| ==> ms[i] == MarkOf(events[i])
  {
    seq(|events|, i requires 0 <= i < |events| => MarkOf(events[i]))
  }

  // The content changes a record claims. Writing what was there already changes nothing.
  function Claims(c: Change): seq<Mark> {
    match c.kind
    case Added => Overwritten(c.path, c.before, c.after)
    case Updated => Overwritten(c.path, c.before, c.after)
    case Deleted => [Mark(c.path, c.before, None)]
    case Moved =>
      (if c.destination.Some? then Overwritten(c.destination.value, c.destinationBefore, c.after) else [])
      + [Mark(c.path, c.before, None)]
  }

  function Overwritten(path: Path, before: Option<Digest>, after: Option<Digest>): seq<Mark> {
    if before == after then [] else [Mark(path, before, after)]
  }

  function AllClaims(changes: seq<Change>): seq<Mark> {
    if changes == [] then [] else AllClaims(changes[..|changes| - 1]) + Claims(changes[|changes| - 1])
  }

  lemma AllClaimsAppend(changes: seq<Change>, c: Change)
    ensures AllClaims(changes + [c]) == AllClaims(changes) + Claims(c)
  {
    assert (changes + [c])[..|changes|] == changes;
  }

  // A step as the planner makes them.
  ghost predicate Shaped(s: Step) {
    match s.kind
    case Added => s.destination.None? && s.after.Some?
    case Updated => s.destination.None? && s.after.Some? && s.before.Some?
    case Deleted => s.destination.None? && s.after.None? && s.before.Some?
    case Moved => s.destination.Some? && s.destination.value != s.path && s.after.Some? && s.before.Some?
  }

  // The files hold what the step expects.
  predicate Expected(files: map<Path, Contents>, s: Step) {
    && At(files, s.path) == s.before
    && (s.destination.Some? ==> At(files, s.destination.value) == s.destinationBefore)
  }

  function Put(files: map<Path, Contents>, path: Path, c: Option<Contents>): map<Path, Contents> {
    if c.Some? then files[path := c.value] else files - {path}
  }

  // The files after a step.
  function Commit(files: map<Path, Contents>, s: Step): map<Path, Contents> {
    if s.destination.Some? then Put(files, s.destination.value, s.after) - {s.path} else Put(files, s.path, s.after)
  }

  // The files after all steps; none when one of them does not find what it expects.
  function CommitAll(files: map<Path, Contents>, steps: seq<Step>): Option<map<Path, Contents>>
    decreases |steps|
  {
    if steps == [] then Some(files)
    else if !Expected(files, steps[0]) then None
    else CommitAll(Commit(files, steps[0]), steps[1..])
  }

  // The files with the paths in the picture as it shows them.
  ghost function Overlay(files: map<Path, Contents>, m: Picture): map<Path, Contents> {
    map p | p in files.Keys + m.Keys && (p in m ==> m[p].Some?) :: if p in m then m[p].value else files[p]
  }

  lemma OverlayShows(files: map<Path, Contents>, m: Picture, p: Path)
    ensures At(Overlay(files, m), p) == if p in m then m[p] else At(files, p)
  {
  }

  lemma OverlayPut(files: map<Path, Contents>, m: Picture, p: Path, c: Option<Contents>)
    requires p in m
    ensures Overlay(files, m[p := c]) == Put(Overlay(files, m), p, c)
  {
  }

  lemma OverlayStep(files: map<Path, Contents>, m: Picture, s: Step)
    requires Applicable(m, s)
    ensures Expected(Overlay(files, m), s)
    ensures Overlay(files, StepOn(m, s)) == Commit(Overlay(files, m), s)
  {
    OverlayShows(files, m, s.path);
    if s.destination.Some? {
      var to := s.destination.value;
      OverlayShows(files, m, to);
      OverlayPut(files, m, s.path, None);
      OverlayPut(files, m[s.path := None], to, s.after);
      var over := Overlay(files, m);
      assert Put(over - {s.path}, to, s.after) == Put(over, to, s.after) - {s.path};
    } else {
      OverlayPut(files, m, s.path, s.after);
    }
  }

  ghost predicate Shows(m: Picture, files: map<Path, Contents>) {
    forall p :: p in m ==> At(files, p) == m[p]
  }

  lemma OverlayNothing(files: map<Path, Contents>, m: Picture)
    requires Shows(m, files)
    ensures Overlay(files, m) == files
  {
    forall p
      ensures At(Overlay(files, m), p) == At(files, p)
    {
      OverlayShows(files, m, p);
    }
    SameFiles(Overlay(files, m), files);
  }

  lemma SameFiles(a: map<Path, Contents>, b: map<Path, Contents>)
    requires forall p :: At(a, p) == At(b, p)
    ensures a == b
  {
    forall p
      ensures p in a <==> p in b
      ensures p in a ==> a[p] == b[p]
    {
      assert At(a, p) == At(b, p);
    }
  }

  lemma {:induction false} OverlayCommits(files: map<Path, Contents>, m: Picture, steps: seq<Step>)
    requires Simulate(m, steps).Some?
    ensures CommitAll(Overlay(files, m), steps) == Some(Overlay(files, Simulate(m, steps).value))
  {
    if steps != [] {
      OverlayStep(files, m, steps[0]);
      OverlayCommits(files, StepOn(m, steps[0]), steps[1..]);
    }
  }

  /** Planning simulates committing: when the steps were planned from what the files hold, every
      step finds what it expects, every path in the view ends as planned, and no other path is
      touched. */
  lemma PlanningSimulatesCommitting(files: map<Path, Contents>, originals: Picture, steps: seq<Step>)
    requires Simulate(originals, steps).Some? && Shows(originals, files)
    ensures CommitAll(files, steps).Some?
    ensures var after, planned := CommitAll(files, steps).value, Simulate(originals, steps).value;
            forall p :: At(after, p) == if p in planned then planned[p] else At(files, p)
  {
    OverlayNothing(files, originals);
    OverlayCommits(files, originals, steps);
    var planned := Simulate(originals, steps).value;
    forall p
      ensures At(Overlay(files, planned), p) == if p in planned then planned[p] else At(files, p)
    {
      OverlayShows(files, planned, p);
    }
  }

  function PlannedPrecondition(before: Option<Contents>): Precondition {
    if before.Some? then Matches(Sha256(before.value)) else Missing
  }

  // A write as it was planned: what it is to change, and into what.
  datatype Intent = Intent(path: Path, before: Option<Contents>, after: Contents)

  // A planned write, and what its first look found.
  datatype Look = Look(intent: Intent, found: Option<Contents>)

  // Somebody else has made the planned change already: the write finds it done, and claims it.
  predicate Forestalled(l: Look) {
    l.found == Some(l.intent.after) && l.intent.before != Some(l.intent.after)
  }

  ghost predicate NoneForestalled(looks: seq<Look>) {
    forall l :: l in looks ==> !Forestalled(l)
  }

  // The write of a step, if it has one: to the destination of a move, else to its path.
  function Intents(s: Step): seq<Intent> {
    if s.after.None? then []
    else if s.destination.Some? then [Intent(s.destination.value, s.destinationBefore, s.after.value)]
    else [Intent(s.path, s.before, s.after.value)]
  }

  function AllIntents(steps: seq<Step>): seq<Intent> {
    if steps == [] then [] else AllIntents(steps[..|steps| - 1]) + Intents(steps[|steps| - 1])
  }

  function IntentsOf(looks: seq<Look>): (ts: seq<Intent>)
    ensures |ts| == |looks| && forall i :: 0 <= i < |ts| ==> ts[i] == looks[i].intent
  {
    seq(|looks|, i requires 0 <= i < |looks| => looks[i].intent)
  }

  function FoundBy(looks: seq<Look>): (log: seq<(Path, Option<Contents>)>)
    ensures |log| == |looks| && forall i :: 0 <= i < |log| ==> log[i] == (looks[i].intent.path, looks[i].found)
  {
    seq(|looks|, i requires 0 <= i < |looks| => (looks[i].intent.path, looks[i].found))
  }

  // The changes that somebody else made.
  function ForeignMarks(did: seq<Event>): seq<Mark> {
    if did == [] then [] else ForeignMark(did[0]) + ForeignMarks(did[1..])
  }

  function ForeignMark(e: Event): seq<Mark> {
    if e.ours then [] else [MarkOf(e)]
  }

  // The changes that the looks found made.
  function ForestalledMarks(looks: seq<Look>): seq<Mark> {
    if looks == [] then [] else ForestalledMark(looks[0]) + ForestalledMarks(looks[1..])
  }

  function ForestalledMark(l: Look): seq<Mark> {
    if Forestalled(l) then [Mark(l.intent.path, DigestOf(l.intent.before), Some(Sha256(l.intent.after)))] else []
  }

  lemma Regroup<T>(a: seq<T>, b: seq<T>, c: seq<T>)
    ensures (a + b) + c == a + (b + c)
  {
  }

  // Exactly the changes that a look found made are not the run's own.
  ghost predicate Accounted(did: seq<Event>, looks: seq<Look>) {
    ForeignMarks(did) == ForestalledMarks(looks)
  }

  lemma {:induction false} ForeignMarksAppend(a: seq<Event>, b: seq<Event>)
    ensures ForeignMarks(a + b) == ForeignMarks(a) + ForeignMarks(b)
  {
    if a == [] {
      assert a + b == b;
    } else {
      assert (a + b)[1..] == a[1..] + b;
      ForeignMarksAppend(a[1..], b);
      Regroup(ForeignMark(a[0]), ForeignMarks(a[1..]), ForeignMarks(b));
    }
  }

  lemma {:induction false} ForestalledMarksAppend(a: seq<Look>, b: seq<Look>)
    ensures ForestalledMarks(a + b) == ForestalledMarks(a) + ForestalledMarks(b)
  {
    if a == [] {
      assert a + b == b;
    } else {
      assert (a + b)[1..] == a[1..] + b;
      ForestalledMarksAppend(a[1..], b);
      Regroup(ForestalledMark(a[0]), ForestalledMarks(a[1..]), ForestalledMarks(b));
    }
  }

  lemma AccountedConcat(did: seq<Event>, looks: seq<Look>, more: seq<Event>, moreLooks: seq<Look>)
    requires Accounted(did, looks) && Accounted(more, moreLooks)
    ensures Accounted(did + more, looks + moreLooks)
  {
    ForeignMarksAppend(did, more);
    ForestalledMarksAppend(looks, moreLooks);
  }

  // The logs of the disk with the changes and the looks of a run behind what they held before.
  ghost predicate Logged(start: Logs, now: Logs, did: seq<Event>, looks: seq<Look>) {
    now.events == start.events + did && now.looked == start.looked + FoundBy(looks)
  }

  lemma LoggedNext(start: Logs, mid: Logs, now: Logs, did: seq<Event>, looks: seq<Look>, more: seq<Event>,
                   moreLooks: seq<Look>)
    requires Logged(start, mid, did, looks) && Logged(mid, now, more, moreLooks)
    ensures Logged(start, now, did + more, looks + moreLooks)
  {
    Regroup(start.events, did, more);
    Regroup(start.looked, FoundBy(looks), FoundBy(moreLooks));
    assert FoundBy(looks + moreLooks) == FoundBy(looks) + FoundBy(moreLooks);
  }

  // The last look at the file before a change of the run's own found what the change was to
  // replace; a change that is not its own was found made.
  ghost predicate EventOk(e: Event) {
    if e.ours then DigestOf(e.found) == e.expected else e.found == e.after && DigestOf(e.after) != e.expected
  }

  ghost predicate Checked(did: seq<Event>) {
    forall e :: e in did ==> EventOk(e)
  }

  // Nobody wrote between a last look and the change behind it.
  ghost predicate NobodyBetween(did: seq<Event>) {
    forall e :: e in did && e.ours ==> e.held == e.found
  }

  ghost predicate AllOurs(events: seq<Event>) {
    forall e :: e in events ==> e.ours
  }

  // No other writer to be seen.
  ghost predicate Alone(events: seq<Event>) {
    AllOurs(events) && NobodyBetween(events)
  }

  // What a planned write did: nothing, or found done by its first look, or its own change behind a
  // second look that found what was to be replaced, whatever the change then `held`.
  ghost predicate WriteDid(l: Intent, found: Option<Contents>, again: Option<Contents>, held: Option<Contents>,
                           did: seq<Event>)
  {
    || did == []
    || (Forestalled(Look(l, found)) && did == [FoundDone(l.path, PlannedPrecondition(l.before), l.after)])
    || (again == l.before && did == [Written(l.path, PlannedPrecondition(l.before), l.before, held, l.after)])
  }

  lemma WriteDidChecked(l: Intent, found: Option<Contents>, again: Option<Contents>, held: Option<Contents>,
                        did: seq<Event>)
    requires WriteDid(l, found, again, held, did)
    ensures Checked(did)
    ensures did != [] ==> Marks(did) == [Mark(l.path, DigestOf(l.before), Some(Sha256(l.after)))]
    ensures found == l.before && held == l.before ==> Alone(did)
  {
  }

  // `commit_planned_write`.
  method CommitWrite(disk: Disk, path: Path, after: Contents, before: Option<Contents>, limit: nat)
    returns (fault: Option<ErrorCode>, ghost did: seq<Event>, ghost looks: seq<Look>)
    modifies disk
    ensures Logged(old(disk.Log()), disk.Log(), did, looks)
    ensures looks == [] || looks == [Look(Intent(path, before, after), old(disk.Coming(path, 1)))]
    ensures Accounted(did, looks) && Checked(did)
    ensures did != [] ==> Marks(did) == [Mark(path, DigestOf(before), Some(Sha256(after)))]
    ensures did != [] ==> looks != [] && did[0].ours == !Forestalled(looks[0])
    ensures did != [] && did[0].ours ==> old(disk.Coming(path, 2)) == before && did[0].held == old(disk.Coming(path, 3))
    ensures fault.None? ==> looks != [] && (did == [] <==> before == Some(after))
    ensures looks != [] && Forestalled(looks[0]) ==> fault.None? && did != [] && !did[0].ours
    ensures fault == Some(PreconditionFailed) ==> did == []
    ensures disk.reliable && Fits(old(disk.Coming(path, 1)), limit) ==> looks != []
    ensures disk.reliable && Fits(before, limit) && old(disk.Coming(path, 1)) == before
            && old(disk.Coming(path, 2)) == before ==>
              fault.None?
    ensures disk.quiet && At(old(disk.files), path) == before ==> Alone(did)
    ensures disk.quiet && fault.None? && At(old(disk.files), path) == before ==>
              disk.files == old(disk.files)[path := after]
    ensures disk.quiet && did == [] ==> disk.files == old(disk.files)
    ensures disk.reliable ==> disk.strays == old(disk.strays)
  {
    var pre := PlannedPrecondition(before);
    var written;
    ghost var found;
    written, did, found := disk.WriteFileAt(path, after, pre, limit);
    looks := if found.Some? then [Look(Intent(path, before, after), found.value)] else [];
    WriteDidChecked(Intent(path, before, after), old(disk.Coming(path, 1)), old(disk.Coming(path, 2)),
                    old(disk.Coming(path, 3)), did);
    fault := if written.Err? then Some(written.error) else None;
  }

  // The record of a move whose destination was written and whose source is still there.
  function HalfMove(s: Step): Change
    requires s.destination.Some?
  {
    Change(if s.destinationBefore.Some? then Updated else Added, s.destination.value, None,
           DigestOf(s.destinationBefore), DigestOf(s.after), None)
  }

  // What the events of one step say about it: `written` when the destination of a move was.
  ghost predicate StepEvents(s: Step, fault: Option<ErrorCode>, written: bool, did: seq<Event>) {
    var marks := Marks(did);
    if fault.None? then marks == Claims(ChangeOf(s))
    else if written then
      s.kind == Moved && s.destination.Some?
      && Claims(HalfMove(s)) <= marks && |marks| <= |Claims(HalfMove(s))| + 1
    else |did| <= 1 && (fault == Some(PreconditionFailed) ==> did == [])
  }

  // Another writer is faster: it makes the planned change between the last look at a step and its
  // write.
  ghost predicate Overtaken(s: Step, seen: Option<Contents>, limit: nat) {
    s.destination.None? && s.after.Some? && s.before != s.after && StepFits(s, limit) && seen == s.after
  }

  // Another writer may slip in after the second look of a write, which finds what is expected.
  ghost predicate Unguarded(s: Step, seen: Option<Contents>, again: Option<Contents>, limit: nat) {
    && s.destination.None? && s.after.Some? && s.before != s.after && StepFits(s, limit)
    && seen == s.before && again == s.before
  }

  // What becomes of a step, when no call fails, under what its first and second look and its change
  // meet: overtaken, it is done and not its own; unguarded, it is its own, whatever it replaces.
  ghost predicate Raced(
    s: Step, seen: Option<Contents>, again: Option<Contents>, held: Option<Contents>, limit: nat, done: bool,
    did: seq<Event>)
  {
    && (Overtaken(s, seen, limit) ==> done && did != [] && !did[0].ours)
    && (Unguarded(s, seen, again, limit) ==> done && did != [] && did[0].ours && did[0].held == held)
  }

  // What becomes of it without another writer.
  ghost predicate Undisputed(
    files0: map<Path, Contents>, files: map<Path, Contents>, s: Step, done: bool, did: seq<Event>)
  {
    Expected(files0, s) ==>
      && Alone(did) && (done ==> files == Commit(files0, s)) && (did == [] && !done ==> files == files0)
  }

  // The closure in the commit loop of `execute`, behind a last look at the path of the step.
  method CommitStep(disk: Disk, s: Step, limit: nat)
    returns (fault: Option<ErrorCode>, written: bool, ghost did: seq<Event>, ghost looks: seq<Look>)
    requires Shaped(s) && disk.Last(s.path) == s.before
    modifies disk
    ensures Logged(old(disk.Log()), disk.Log(), did, looks)
    ensures StepEvents(s, fault, written, did) && Checked(did)
    ensures Accounted(did, looks)
    ensures IntentsOf(looks) == Intents(s) || (fault.Some? && looks == [])
    ensures looks != [] ==> looks[0].found == old(disk.Coming(looks[0].intent.path, 1))
    ensures disk.reliable ==>
              Raced(s, old(disk.Coming(s.path, 1)), old(disk.Coming(s.path, 2)), old(disk.Coming(s.path, 3)), limit,
                    fault.None?, did)
    ensures disk.quiet ==> Undisputed(old(disk.files), disk.files, s, fault.None?, did)
    ensures disk.quiet && disk.reliable && Expected(old(disk.files), s) && StepFits(s, limit) ==> fault.None?
    ensures disk.reliable ==> disk.strays == old(disk.strays)
  {
    written, did, looks := false, [], [];
    match s.kind
    case Deleted =>
      fault, did := RemoveSource(disk, s.path);
    case Moved =>
      fault, written, did, looks := CommitMove(disk, s, limit);
    case _ =>
      fault, did, looks := CommitWrite(disk, s.path, s.after.value, s.before, limit);
  }

  // A move: the destination is written before the source is removed.
  method CommitMove(disk: Disk, s: Step, limit: nat)
    returns (fault: Option<ErrorCode>, written: bool, ghost did: seq<Event>, ghost looks: seq<Look>)
    requires Shaped(s) && s.kind.Moved?
    modifies disk
    ensures Logged(old(disk.Log()), disk.Log(), did, looks)
    ensures StepEvents(s, fault, written, did) && Checked(did)
    ensures Accounted(did, looks)
    ensures IntentsOf(looks) == Intents(s) || (fault.Some? && looks == [])
    ensures looks != [] ==> looks[0].found == old(disk.Coming(looks[0].intent.path, 1))
    ensures disk.quiet ==> Undisputed(old(disk.files), disk.files, s, fault.None?, did)
    ensures disk.quiet && disk.reliable && Expected(old(disk.files), s) && StepFits(s, limit) ==> fault.None?
    ensures disk.reliable ==> disk.strays == old(disk.strays)
  {
    written := false;
    fault, did, looks := WriteDestination(disk, s, limit);
    if fault.Some? {
      return;
    }
    written := true;
    ghost var more;
    fault, more := RemoveUnchanged(disk, s.path, s.before, limit);
    MoveEvents(s, fault, did, looks, more);
    Regroup(old(disk.events), did, more);
    did := did + more;
  }

  method WriteDestination(disk: Disk, s: Step, limit: nat)
    returns (fault: Option<ErrorCode>, ghost did: seq<Event>, ghost looks: seq<Look>)
    requires Shaped(s) && s.kind.Moved?
    modifies disk
    ensures Logged(old(disk.Log()), disk.Log(), did, looks)
    ensures if fault.None? then Marks(did) == Claims(HalfMove(s)) else StepEvents(s, fault, false, did)
    ensures Accounted(did, looks) && Checked(did)
    ensures IntentsOf(looks) == Intents(s) || (fault.Some? && looks == [])
    ensures looks != [] ==> looks[0].found == old(disk.Coming(looks[0].intent.path, 1))
    ensures disk.quiet && Expected(old(disk.files), s) ==> Alone(did)
    ensures disk.quiet && Expected(old(disk.files), s) && fault.None? ==>
              disk.files == old(disk.files)[s.destination.value := s.after.value]
    ensures disk.quiet && did == [] ==> disk.files == old(disk.files)
    ensures disk.quiet && disk.reliable && Expected(old(disk.files), s) && StepFits(s, limit) ==> fault.None?
    ensures disk.reliable ==> disk.strays == old(disk.strays)
  {
    fault, did, looks := CommitWrite(disk, s.destination.value, s.after.value, s.destinationBefore, limit);
  }

  // What a removal did: nothing, or its own change behind a look that found what it was to remove.
  ghost predicate RemoveDid(path: Path, before: Option<Contents>, held: Option<Contents>, did: seq<Event>) {
    did == [] || did == [Removed(path, before, held)]
  }

  // The destination was written, and then at most the source removed.
  lemma MoveEvents(s: Step, fault: Option<ErrorCode>, wrote: seq<Event>, looks: seq<Look>, more: seq<Event>)
    requires Shaped(s) && s.kind.Moved?
    requires Marks(wrote) == Claims(HalfMove(s)) && Accounted(wrote, looks) && Checked(wrote)
    requires more == [] ==> fault.Some?
    requires more != [] ==> RemoveDid(s.path, s.before, more[0].held, more)
    ensures StepEvents(s, fault, true, wrote + more) && Accounted(wrote + more, looks) && Checked(wrote + more)
    ensures Alone(wrote) && Alone(more) ==> Alone(wrote + more)
  {
    MarksAppend(wrote, more);
    AccountedConcat(wrote, looks, more, []);
    assert looks + [] == looks;
  }

  // The source of a move is removed if it still holds what is expected.
  method RemoveUnchanged(disk: Disk, path: Path, before: Option<Contents>, limit: nat)
    returns (fault: Option<ErrorCode>, ghost did: seq<Event>)
    modifies disk`files, disk`others, disk`last, disk`events
    ensures disk.events == old(disk.events) + did
    ensures RemoveDid(path, before, old(disk.Coming(path, 2)), did) && (did == [] ==> fault.Some?)
    ensures did != [] ==> old(disk.Coming(path, 1)) == before
    ensures disk.quiet ==> disk.files == if did == [] then old(disk.files) else old(disk.files) - {path}
    ensures disk.quiet && disk.reliable && before.Some? && At(old(disk.files), path) == before
            && Fits(before, limit) ==>
              fault.None?
  {
    did := [];
    MetNext(disk.files, disk.others, 1);
    MetNext(disk.files, disk.others, 2);
    fault := disk.Verify(path, before, limit);
    if fault.None? {
      fault, did := RemoveSource(disk, path);
    }
  }

  lemma MarksAppend(a: seq<Event>, b: seq<Event>)
    ensures Marks(a + b) == Marks(a) + Marks(b)
  {
  }

  method RemoveSource(disk: Disk, path: Path) returns (fault: Option<ErrorCode>, ghost did: seq<Event>)
    modifies disk`files, disk`others, disk`events
    ensures disk.events == old(disk.events) + did
    ensures RemoveDid(path, disk.Last(path), old(disk.Coming(path, 1)), did) && (did == [] ==> fault.Some?)
    ensures Accounted(did, [])
    ensures fault != Some(PreconditionFailed)
    ensures disk.quiet ==> disk.files == if did == [] then old(disk.files) else old(disk.files) - {path}
    ensures disk.quiet && disk.reliable && path in old(disk.files) ==> fault.None?
  {
    MetNext(disk.files, disk.others, 1);
    fault := disk.Remove(path);
    did := if disk.events == old(disk.events) then [] else [Removed(path, disk.Last(path), old(disk.Coming(path, 1)))];
  }

  // What a receipt, or a part of it, says about the events: every change recorded, and at most
  // one that is not when it does not claim to be exact.
  ghost predicate Covers(changes: seq<Change>, exact: bool, did: seq<Event>) {
    var claims, marks := AllClaims(changes), Marks(did);
    claims <= marks && |marks| <= |claims| + 1 && (exact ==> marks == claims)
  }

  lemma CoversOne(c: Change)
    ensures AllClaims([c]) == Claims(c)
  {
    AllClaimsAppend([], c);
    assert [] + [c] == [c];
  }

  // An exact part followed by at most one more record.
  lemma CoversConcat(a: seq<Change>, did: seq<Event>, b: seq<Change>, exact: bool, more: seq<Event>)
    requires Covers(a, true, did) && Covers(b, exact, more) && |b| <= 1
    ensures Covers(a + b, exact, did + more)
  {
    MarksAppend(did, more);
    if b == [] {
      assert a + b == a;
    } else {
      assert b == [b[0]];
      AllClaimsAppend(a, b[0]);
      CoversOne(b[0]);
    }
  }

  // One turn of the commit loop: the last looks, the step, and its record.
  method CommitNext(disk: Disk, receipt: PatchReceipt, s: Step, limit: nat)
    returns (done: bool, ghost added: seq<Change>, ghost did: seq<Event>, ghost looks: seq<Look>)
    requires Shaped(s) && receipt.status.Applied? && receipt.changesExact && receipt.error.None?
    modifies disk, receipt
    ensures Logged(old(disk.Log()), disk.Log(), did, looks) && receipt.changes == old(receipt.changes) + added
    ensures Covers(added, receipt.changesExact, did) && Accounted(did, looks) && Checked(did)
    ensures IntentsOf(looks) == Intents(s) || (!done && looks == [])
    ensures looks != [] ==> looks[0].found == old(disk.Coming(looks[0].intent.path, CallsToWrite(s)))
    ensures disk.reliable && old(disk.Coming(s.path, 1)) == s.before ==>
              Raced(s, old(disk.Coming(s.path, 2)), old(disk.Coming(s.path, 3)), old(disk.Coming(s.path, 4)), limit,
                    done, did)
    ensures Recorded(s, done, added, receipt.Value())
    ensures disk.quiet ==> Undisputed(old(disk.files), disk.files, s, done, did)
    ensures !done && receipt.changesExact ==> did == []
    ensures disk.quiet && disk.reliable && Expected(old(disk.files), s) && StepFits(s, limit) ==> done
    ensures disk.reliable ==> disk.strays == old(disk.strays)
  {
    done, added, did, looks := false, [], [], [];
    var fault := LastLooks(disk, s, limit);
    if fault.Some? {
      Decline(receipt, s, fault.value);
      return;
    }
    done, added, did, looks := CommitAndRecord(disk, receipt, s, limit);
  }

  // The step and its record.
  method CommitAndRecord(disk: Disk, receipt: PatchReceipt, s: Step, limit: nat)
    returns (done: bool, ghost added: seq<Change>, ghost did: seq<Event>, ghost looks: seq<Look>)
    requires Shaped(s) && disk.Last(s.path) == s.before
    requires receipt.status.Applied? && receipt.changesExact && receipt.error.None?
    modifies disk, receipt
    ensures Logged(old(disk.Log()), disk.Log(), did, looks) && receipt.changes == old(receipt.changes) + added
    ensures Covers(added, receipt.changesExact, did) && Accounted(did, looks) && Checked(did)
    ensures IntentsOf(looks) == Intents(s) || (!done && looks == [])
    ensures looks != [] ==> looks[0].found == old(disk.Coming(looks[0].intent.path, 1))
    ensures disk.reliable ==>
              Raced(s, old(disk.Coming(s.path, 1)), old(disk.Coming(s.path, 2)), old(disk.Coming(s.path, 3)), limit,
                    done, did)
    ensures Recorded(s, done, added, receipt.Value())
    ensures disk.quiet ==> Undisputed(old(disk.files), disk.files, s, done, did)
    ensures !done && receipt.changesExact ==> did == []
    ensures disk.quiet && disk.reliable && Expected(old(disk.files), s) && StepFits(s, limit) ==> done
    ensures disk.reliable ==> disk.strays == old(disk.strays)
  {
    var fault, written;
    fault, written, did, looks := CommitStep(disk, s, limit);
    done, added := Record(receipt, s, fault, written, did);
  }

  // What a receipt says after one more step: its record, or an error, and at most half a move, which
  // is never exact.
  ghost predicate Recorded(s: Step, done: bool, added: seq<Change>, r: Receipt) {
    if done then r.status.Applied? && r.changesExact && r.error.None? && added == [ChangeOf(s)]
    else
      && Failed(r.status, r.changesExact, r.changes, r.error) && r.error.value.section == Some(s.section)
      && (added == [] || (s.kind == Moved && s.destination.Some? && added == [HalfMove(s)] && !r.changesExact))
  }

  // The last looks find something else.
  method Decline(receipt: PatchReceipt, s: Step, code: ErrorCode)
    modifies receipt
    ensures receipt.changes == old(receipt.changes) + [] && receipt.changesExact
    ensures Recorded(s, false, [], receipt.Value())
  {
    receipt.Fail(code, Some(s.section), None, false);
    assert receipt.changes + [] == receipt.changes;
  }

  // What the receipt gets for a step: its record, or the error and half a move.
  method Record(receipt: PatchReceipt, s: Step, fault: Option<ErrorCode>, written: bool, ghost did: seq<Event>)
    returns (done: bool, ghost added: seq<Change>)
    requires receipt.status.Applied? && receipt.changesExact && receipt.error.None?
    requires StepEvents(s, fault, written, did)
    modifies receipt
    ensures receipt.changes == old(receipt.changes) + added && Covers(added, receipt.changesExact, did)
    ensures done == fault.None? && (!done && receipt.changesExact ==> did == [])
    ensures Recorded(s, done, added, receipt.Value())
  {
    done, added := fault.None?, [];
    assert receipt.changes + [] == receipt.changes;
    if fault.Some? {
      if written {
        CoversOne(HalfMove(s));
        added := [HalfMove(s)];
        receipt.changes := receipt.changes + [HalfMove(s)];
      }
      receipt.Fail(fault.value, Some(s.section), None, written || fault != Some(PreconditionFailed));
      return;
    }
    CoversOne(ChangeOf(s));
    added := [ChangeOf(s)];
    receipt.changes := receipt.changes + [ChangeOf(s)];
  }

  // Which call of a step is the first look of its write, after the last looks at its paths.
  function CallsToWrite(s: Step): nat {
    if s.destination.Some? then 3 else 2
  }

  // The looks before a step.
  method LastLooks(disk: Disk, s: Step, limit: nat) returns (fault: Option<ErrorCode>)
    requires s.destination.Some? ==> s.destination.value != s.path
    modifies disk`files, disk`others, disk`last
    ensures disk.quiet ==> disk.files == old(disk.files)
    ensures disk.quiet && disk.reliable && Expected(old(disk.files), s) && StepFits(s, limit) ==> fault.None?
    ensures fault.None? ==> disk.Last(s.path) == s.before
    ensures fault.None? ==> forall p :: disk.Coming(p, 1) == old(disk.Coming(p, CallsToWrite(s)))
    ensures s.destination.None? ==>
              && disk.Coming(s.path, 2) == old(disk.Coming(s.path, 3))
              && disk.Coming(s.path, 3) == old(disk.Coming(s.path, 4))
    ensures disk.reliable && s.destination.None? && old(disk.Coming(s.path, 1)) == s.before && StepFits(s, limit) ==>
              fault.None?
  {
    MetNext(disk.files, disk.others, 1);
    MetNext(disk.files, disk.others, 2);
    MetNext(disk.files, disk.others, 3);
    MetNext(disk.files, disk.others, 4);
    fault := disk.Verify(s.path, s.before, limit);
    MetNext(disk.files, disk.others, CallsToWrite(s) - 1);
    if fault.None? && s.destination.Some? {
      fault := disk.Verify(s.destination.value, s.destinationBefore, limit);
      MetNext(disk.files, disk.others, 1);
    }
  }

  // The steps were planned from what the files hold.
  ghost predicate PlannedFrom(files: map<Path, Contents>, originals: Picture, steps: seq<Step>) {
    Shows(originals, files) && Simulate(originals, steps).Some?
  }

  // The records of the steps that were taken, and, inexactly, of half a move.
  ghost predicate Records(changes: seq<Change>, exact: bool, steps: seq<Step>, committed: nat) {
    && committed <= |steps|
    && (changes == ChangesOf(steps[..committed])
        || (!exact && committed < |steps| && steps[committed].destination.Some?
            && changes == ChangesOf(steps[..committed]) + [HalfMove(steps[committed])]))
  }

  lemma ChangesOfNext(steps: seq<Step>, k: nat)
    requires k < |steps|
    ensures ChangesOf(steps[..k + 1]) == ChangesOf(steps[..k]) + [ChangeOf(steps[k])]
  {
    assert steps[..k + 1] == steps[..k] + [steps[k]];
  }

  // The files are where the plan says they are after `k` steps.
  ghost predicate OnPlan(files0: map<Path, Contents>, files: map<Path, Contents>, originals: Picture, steps: seq<Step>,
                         k: nat)
  {
    k <= |steps| && files == Overlay(files0, StateAfter(originals, steps, k))
  }

  lemma OnPlanNext(files0: map<Path, Contents>, files: map<Path, Contents>, originals: Picture, steps: seq<Step>,
                   k: nat)
    requires PlannedFrom(files0, originals, steps) && OnPlan(files0, files, originals, steps, k) && k < |steps|
    ensures Expected(files, steps[k]) && OnPlan(files0, Commit(files, steps[k]), originals, steps, k + 1)
  {
    SimulateAt(originals, steps, k);
    OverlayStep(files0, StateAfter(originals, steps, k), steps[k]);
  }

  ghost predicate AllFit(steps: seq<Step>, limit: nat) {
    forall i :: 0 <= i < |steps| ==> StepFits(steps[i], limit)
  }

  ghost predicate AllShaped(steps: seq<Step>) {
    forall i :: 0 <= i < |steps| ==> Shaped(steps[i])
  }

  // A failed receipt: rejected exactly when nothing was, or may have been, changed.
  ghost predicate Failed(status: Status, exact: bool, changes: seq<Change>, error: Option<Failure>) {
    error.Some? && status == if exact && changes == [] then Rejected else Partial
  }

  // What a receipt says of the steps and of what happened: the records of the committed steps (and
  // of half a move), all of them and no error, or an error.
  ghost predicate Reported(status: Status, exact: bool, changes: seq<Change>, error: Option<Failure>,
                           steps: seq<Step>, committed: nat, did: seq<Event>)
  {
    && Covers(changes, exact, did)
    && Records(changes, exact, steps, committed)
    && if committed == |steps| then status.Applied? && exact && error.None? && changes == ChangesOf(steps)
       else Failed(status, exact, changes, error)
  }

  /** What a receipt can be relied on for: `Applied` if and only if every step was committed,
      with one record for each; `Rejected` only if no file was changed; and the records are the
      changes that were made, in order, but for at most one when they are not exact. */
  lemma ReceiptIsHonest(status: Status, exact: bool, changes: seq<Change>, error: Option<Failure>,
                        steps: seq<Step>, committed: nat, did: seq<Event>)
    requires Reported(status, exact, changes, error, steps, committed, did)
    ensures status.Applied? <==> committed == |steps|
    ensures status.Applied? ==> |changes| == |steps| && exact
    ensures status.Rejected? ==> did == [] && committed == 0
    ensures AllClaims(changes) <= Marks(did) && |did| <= |AllClaims(changes)| + 1
    ensures exact ==> Marks(did) == AllClaims(changes) && changes == ChangesOf(steps[..committed])
  {
    assert steps[..|steps|] == steps;
    assert |ChangesOf(steps[..committed])| == committed;
  }

  // A look for the write of every step that was committed, and at most for one more.
  ghost predicate LooksFor(looks: seq<Look>, steps: seq<Step>, committed: nat) {
    && committed <= |steps|
    && (IntentsOf(looks) == AllIntents(steps[..committed])
        || (committed < |steps| && IntentsOf(looks) == AllIntents(steps[..committed + 1])))
  }

  lemma IntentsNext(looks: seq<Look>, steps: seq<Step>, k: nat, more: seq<Look>)
    requires k < |steps| && IntentsOf(looks) == AllIntents(steps[..k])
    ensures IntentsOf(more) == Intents(steps[k]) ==> IntentsOf(looks + more) == AllIntents(steps[..k + 1])
    ensures more == [] ==> IntentsOf(looks + more) == AllIntents(steps[..k])
  {
    assert steps[..k + 1][..k] == steps[..k];
    assert IntentsOf(looks + more) == IntentsOf(looks) + IntentsOf(more);
  }

  // After `k` steps: a record, the changes it claims, and a look, for each of them.
  ghost predicate Progress(changes: seq<Change>, did: seq<Event>, looks: seq<Look>, steps: seq<Step>, k: nat) {
    && k <= |steps| && changes == ChangesOf(steps[..k]) && Covers(changes, true, did)
    && Accounted(did, looks) && Checked(did) && IntentsOf(looks) == AllIntents(steps[..k])
  }

  // One more step taken, or failed on the way.
  lemma ProgressNext(changes: seq<Change>, did: seq<Event>, looks: seq<Look>, steps: seq<Step>, k: nat,
                     done: bool, added: seq<Change>, exact: bool, more: seq<Event>, moreLooks: seq<Look>)
    requires Progress(changes, did, looks, steps, k) && k < |steps|
    requires Covers(added, exact, more) && Accounted(more, moreLooks) && Checked(more)
    requires IntentsOf(moreLooks) == Intents(steps[k]) || (!done && moreLooks == [])
    requires if done then exact && added == [ChangeOf(steps[k])]
             else added == [] || (steps[k].destination.Some? && added == [HalfMove(steps[k])] && !exact)
    ensures Covers(changes + added, exact, did + more) && Accounted(did + more, looks + moreLooks)
    ensures Checked(did + more)
    ensures done ==> Progress(changes + added, did + more, looks + moreLooks, steps, k + 1)
    ensures !done ==> Records(changes + added, exact, steps, k) && LooksFor(looks + moreLooks, steps, k)
  {
    CoversConcat(changes, did, added, exact, more);
    AccountedConcat(did, looks, more, moreLooks);
    IntentsNext(looks, steps, k, moreLooks);
    ChangesOfNext(steps, k);
    assert changes + [] == changes;
  }

  // Without another writer: the events are the run's own, and the files are on plan.
  ghost predicate Followed(files0: map<Path, Contents>, files: map<Path, Contents>, originals: Picture,
                           steps: seq<Step>,
                           k: nat, exact: bool, did: seq<Event>)
  {
    Alone(did) && (exact ==> OnPlan(files0, files, originals, steps, k))
  }

  // One turn of the commit loop, and what it adds to the turns before it.
  method CommitAt(disk: Disk, receipt: PatchReceipt, steps: seq<Step>, k: nat, limit: nat, ghost originals: Picture,
                  ghost files0: map<Path, Contents>, ghost start: Logs, ghost before: seq<Event>, ghost seen: seq<Look>)
    returns (done: bool, ghost did: seq<Event>, ghost looks: seq<Look>)
    requires k < |steps| && AllShaped(steps) && Progress(receipt.changes, before, seen, steps, k)
    requires receipt.status.Applied? && receipt.changesExact && receipt.error.None?
             && Logged(start, disk.Log(), before, seen)
    modifies disk, receipt
    ensures Logged(start, disk.Log(), did, looks)
    ensures done ==> receipt.status.Applied? && receipt.changesExact && receipt.error.None?
    ensures done ==> Progress(receipt.changes, did, looks, steps, k + 1)
    ensures !done ==> Reported(receipt.status, receipt.changesExact, receipt.changes, receipt.error, steps, k, did)
    ensures !done ==> Accounted(did, looks) && Checked(did) && LooksFor(looks, steps, k)
    ensures disk.quiet && PlannedFrom(files0, originals, steps)
            && Followed(files0, old(disk.files), originals, steps, k, true, before) ==>
              && Followed(files0, disk.files, originals, steps, if done then k + 1 else k, receipt.changesExact, did)
              && (disk.reliable && StepFits(steps[k], limit) ==> done)
    ensures disk.reliable ==> disk.strays == old(disk.strays)
  {
    if PlannedFrom(files0, originals, steps) && OnPlan(files0, disk.files, originals, steps, k) {
      OnPlanNext(files0, disk.files, originals, steps, k);
    }
    ghost var changes, mid := receipt.changes, disk.Log();
    ghost var added, more, moreLooks;
    done, added, more, moreLooks := CommitNext(disk, receipt, steps[k], limit);
    ProgressNext(changes, before, seen, steps, k, done, added, receipt.changesExact, more, moreLooks);
    LoggedNext(start, mid, disk.Log(), before, seen, more, moreLooks);
    did, looks := before + more, seen + moreLooks;
  }

  /** The commit loop of `execute`: what the receipt says, under any failures and any other
      writer; and without another writer, that the files follow the plan step by step. */
  method CommitSteps(disk: Disk, receipt: PatchReceipt, steps: seq<Step>, limit: nat, ghost originals: Picture)
    returns (ghost committed: nat, ghost did: seq<Event>, ghost looks: seq<Look>)
    requires AllShaped(steps)
    requires receipt.status.Applied? && receipt.changesExact && receipt.error.None? && receipt.changes == []
    modifies disk, receipt
    ensures Logged(old(disk.Log()), disk.Log(), did, looks)
    ensures Reported(receipt.status, receipt.changesExact, receipt.changes, receipt.error, steps, committed, did)
    ensures Accounted(did, looks) && Checked(did) && LooksFor(looks, steps, committed)
    ensures disk.quiet && PlannedFrom(old(disk.files), originals, steps) ==>
              && Alone(did)
              && (receipt.changesExact ==> OnPlan(old(disk.files), disk.files, originals, steps, committed))
              && (disk.reliable && AllFit(steps, limit) ==> committed == |steps|)
    ensures disk.reliable ==> disk.strays == old(disk.strays)
  {
    committed, did, looks := 0, [], [];
    var k := 0;
    ghost var files0, start := disk.files, disk.Log();
    ghost var planned := disk.quiet && PlannedFrom(files0, originals, steps);
    if planned {
      OverlayNothing(files0, originals);
    }
    assert steps[..0] == [];
    while k < |steps|
      invariant 0 <= k <= |steps| && committed == k
      invariant receipt.status.Applied? && receipt.changesExact && receipt.error.None?
      invariant Logged(start, disk.Log(), did, looks) && Progress(receipt.changes, did, looks, steps, k)
      invariant planned ==> Followed(files0, disk.files, originals, steps, k, true, did)
      invariant disk.reliable ==> disk.strays == old(disk.strays)
    {
      var done;
      done, did, looks := CommitAt(disk, receipt, steps, k, limit, originals, files0, start, did, looks);
      if !done {
        return;
      }
      k := k + 1;
      committed := k;
    }
    assert steps[..k] == steps;
  }

  // The changes the run made itself.
  function OwnMarks(did: seq<Event>): seq<Mark> {
    if did == [] then [] else (if did[0].ours then [MarkOf(did[0])] else []) + OwnMarks(did[1..])
  }

  lemma FirstMark(did: seq<Event>)
    requires did != []
    ensures Marks(did) == [MarkOf(did[0])] + Marks(did[1..])
    ensures OwnMarks(did) == if did[0].ours then [MarkOf(did[0])] + OwnMarks(did[1..]) else OwnMarks(did[1..])
    ensures ForeignMarks(did) == if did[0].ours then ForeignMarks(did[1..])
            else [MarkOf(did[0])] + ForeignMarks(did[1..])
  {
    Unprefixed(OwnMarks(did[1..]));
    Unprefixed(ForeignMarks(did[1..]));
  }

  lemma Unprefixed<T>(s: seq<T>)
    ensures [] + s == s
  {
  }

  lemma InFront<T>(x: T, s: seq<T>)
    ensures multiset([x] + s) == multiset{x} + multiset(s)
  {
  }

  lemma {:induction false} OwnAndForeign(did: seq<Event>)
    ensures multiset(Marks(did)) == multiset(OwnMarks(did)) + multiset(ForeignMarks(did))
  {
    if did != [] {
      FirstMark(did);
      OwnAndForeign(did[1..]);
      InFront(MarkOf(did[0]), Marks(did[1..]));
      if did[0].ours {
        InFront(MarkOf(did[0]), OwnMarks(did[1..]));
      } else {
        InFront(MarkOf(did[0]), ForeignMarks(did[1..]));
      }
    }
  }

  lemma {:induction false} ForeignMarksMeaning(did: seq<Event>)
    ensures ForeignMarks(did) == [] <==> AllOurs(did)
  {
    if did != [] {
      ForeignMarksMeaning(did[1..]);
      assert forall e :: e in did <==> e == did[0] || e in did[1..];
    }
  }

  lemma {:induction false} OwnMarksOfOurs(did: seq<Event>)
    requires AllOurs(did)
    ensures OwnMarks(did) == Marks(did)
  {
    if did != [] {
      assert did[0].ours;
      OwnMarksOfOurs(did[1..]);
      assert Marks(did) == [MarkOf(did[0])] + Marks(did[1..]);
    }
  }

  lemma OwnMarksExact(did: seq<Event>)
    ensures OwnMarks(did) == Marks(did) <==> ForeignMarks(did) == []
  {
    OwnAndForeign(did);
    assert |multiset(Marks(did))| == |multiset(OwnMarks(did))| + |multiset(ForeignMarks(did))|;
    ForeignMarksMeaning(did);
    if AllOurs(did) {
      OwnMarksOfOurs(did);
    }
  }

  lemma {:induction false} NoneForestalledMeaning(looks: seq<Look>)
    ensures ForestalledMarks(looks) == [] <==> NoneForestalled(looks)
  {
    if looks != [] {
      NoneForestalledMeaning(looks[1..]);
    }
  }

  /** What an exact receipt claims is what the run did itself and what its writes found done by
      somebody else; so it lists the run's own changes, in order, if and only if no write was
      forestalled. */
  lemma ExactUnlessForestalled(changes: seq<Change>, did: seq<Event>, looks: seq<Look>)
    requires Covers(changes, true, did) && Accounted(did, looks)
    ensures multiset(AllClaims(changes)) == multiset(OwnMarks(did)) + multiset(ForestalledMarks(looks))
    ensures OwnMarks(did) == AllClaims(changes) <==> NoneForestalled(looks)
  {
    OwnAndForeign(did);
    OwnMarksExact(did);
    NoneForestalledMeaning(looks);
  }

  lemma OursUnlessForestalled(did: seq<Event>, looks: seq<Look>)
    requires Accounted(did, looks)
    ensures AllOurs(did) <==> NoneForestalled(looks)
  {
    ForeignMarksMeaning(did);
    NoneForestalledMeaning(looks);
  }

  lemma {:induction false} OvertakenClaims(s: Step, did: seq<Event>)
    requires s.kind.Added? || s.kind.Updated?
    requires s.before != s.after && |did| == 1 && !did[0].ours
    ensures OwnMarks(did) == [] && AllClaims([ChangeOf(s)]) == [Mark(s.path, DigestOf(s.before), DigestOf(s.after))]
  {
    CoversOne(ChangeOf(s));
    assert did[1..] == [];
  }

  // The step of a request that changes the contents of one file.
  function Overwrite(path: Path, before: Contents, after: Contents): Step {
    Step(Updated, path, None, Some(before), Some(after), None, 0)
  }

  lemma OnlyRecord(changes: seq<Change>, s: Step, did: seq<Event>)
    requires changes == [] + [ChangeOf(s)] && Covers(changes, true, did)
    ensures changes == [ChangeOf(s)] && AllClaims(changes) == Claims(ChangeOf(s)) && |did| == |Claims(ChangeOf(s))|
  {
    CoversOne(ChangeOf(s));
  }

  // A disk where no call fails, and another writer that puts these contents at a path.
  method Scripted(path: Path, script: seq<Contents>) returns (disk: Disk)
    ensures fresh(disk) && disk.reliable && !disk.quiet
    ensures |script| > 0 ==> disk.Coming(path, 1) == Some(script[0])
    ensures |script| > 1 ==> disk.Coming(path, 2) == Some(script[1])
    ensures |script| > 2 ==> disk.Coming(path, 3) == Some(script[2])
    ensures |script| > 3 ==> disk.Coming(path, 4) == Some(script[3])
  {
    var others := seq(|script|, i requires 0 <= i < |script| => map[path := script[i]]);
    disk := new Disk(false, true, map[], others);
    forall n | 0 < n <= |script|
      ensures Met(disk.files, others, n) == others[n - 1]
    {
      ScriptMet(disk.files, others, n);
    }
  }

  // One step, reported from the start.
  method CommitOnly(disk: Disk, s: Step, limit: nat)
    returns (receipt: PatchReceipt, done: bool, ghost did: seq<Event>, ghost looks: seq<Look>)
    requires Shaped(s) && disk.reliable
    modifies disk
    ensures fresh(receipt)
    ensures old(disk.Coming(s.path, 1)) == s.before ==>
              Raced(s, old(disk.Coming(s.path, 2)), old(disk.Coming(s.path, 3)), old(disk.Coming(s.path, 4)), limit,
                    done, did)
    ensures done ==> ExactRecord(receipt.Value(), s, did) && Accounted(did, looks) && Checked(did)
  {
    receipt := new PatchReceipt("id");
    ghost var added;
    done, added, did, looks := CommitNext(disk, receipt, s, limit);
    if done {
      OnlyRecord(receipt.changes, s, did);
    }
  }

  // The step is all there is to report, and was taken.
  ghost predicate ExactRecord(r: Receipt, s: Step, did: seq<Event>) {
    && r.status.Applied? && r.changesExact && r.error.None? && r.changes == [ChangeOf(s)]
    && Covers(r.changes, true, did) && AllClaims(r.changes) == Claims(ChangeOf(s)) && |did| == |Claims(ChangeOf(s))|
  }

  lemma {:induction false} ScriptMet(files: map<Path, Contents>, others: seq<map<Path, Contents>>, n: nat)
    requires 0 < n <= |others|
    ensures Met(files, others, n) == others[n - 1]
    decreases n
  {
    if n > 1 {
      ScriptMet(others[0], others[1..], n - 1);
    }
  }

  /** It happens, whatever the contents: no call fails, and somebody else is faster. The step is
      committed and recorded as exact, and the run has changed nothing. */
  method AnotherWritersChangeIsClaimed(path: Path, before: Contents, after: Contents, limit: nat)
    returns (receipt: PatchReceipt, ghost did: seq<Event>, ghost looks: seq<Look>)
    requires before != after && StepFits(Overwrite(path, before, after), limit)
    ensures fresh(receipt) && receipt.status.Applied? && receipt.changesExact && receipt.error.None?
    ensures receipt.changes == [ChangeOf(Overwrite(path, before, after))]
    ensures Covers(receipt.changes, true, did) && Accounted(did, looks)
    ensures OwnMarks(did) == [] && OwnMarks(did) != AllClaims(receipt.changes)
  {
    var done;
    var disk := Scripted(path, [before, after]);
    receipt, done, did, looks := CommitOnly(disk, Overwrite(path, before, after), limit);
    OvertakenClaims(Overwrite(path, before, after), did);
  }

  // Every change of the run's own is recorded with what it replaced.
  ghost predicate TrueBefores(changes: seq<Change>, did: seq<Event>)
    requires Covers(changes, true, did)
  {
    forall i :: 0 <= i < |did| && did[i].ours ==> AllClaims(changes)[i].before == DigestOf(did[i].held)
  }

  /** The hash before a change of the run's own, in an exact receipt, is that of what the last look
      at the file found; so all of them are true if and only if nobody wrote in between. */
  lemma RecordedBefores(changes: seq<Change>, did: seq<Event>)
    requires Covers(changes, true, did) && Checked(did)
    ensures forall i :: 0 <= i < |did| && did[i].ours ==> AllClaims(changes)[i].before == DigestOf(did[i].found)
    ensures TrueBefores(changes, did) <==> NobodyBetween(did)
  {
    forall i | 0 <= i < |did| && did[i].ours
      ensures AllClaims(changes)[i].before == DigestOf(did[i].found)
    {
      assert EventOk(did[i]) && AllClaims(changes)[i] == MarkOf(did[i]);
    }
    if TrueBefores(changes, did) {
      forall e | e in did && e.ours
        ensures e.held == e.found
      {
        var i :| 0 <= i < |did| && did[i] == e;
        assert AllClaims(changes)[i].before == DigestOf(e.held);
      }
    }
  }

  lemma UnguardedClaims(s: Step, did: seq<Event>)
    requires s.kind.Added? || s.kind.Updated?
    requires Covers([ChangeOf(s)], true, did) && |did| == 1 && did[0].ours && did[0].held != s.before
    ensures !TrueBefores([ChangeOf(s)], did)
  {
    CoversOne(ChangeOf(s));
    assert AllClaims([ChangeOf(s)])[0] == MarkOf(did[0]);
  }

  /** It happens, whatever the contents: no call fails, and somebody else writes behind the second
      look. The record is exact, and what it says was replaced was not. */
  method AnotherWritersContentsAreLost(path: Path, before: Contents, after: Contents, other: Contents, limit: nat)
    returns (receipt: PatchReceipt, ghost did: seq<Event>)
    requires before != after && other != before && StepFits(Overwrite(path, before, after), limit)
    ensures fresh(receipt) && receipt.status.Applied? && receipt.changesExact && receipt.error.None?
    ensures receipt.changes == [ChangeOf(Overwrite(path, before, after))]
    ensures Covers(receipt.changes, true, did) && Checked(did)
    ensures |did| == 1 && did[0].ours && did[0].held == Some(other) && !TrueBefores(receipt.changes, did)
  {
    var done;
    ghost var looks;
    var disk := Scripted(path, [before, before, before, other]);
    receipt, done, did, looks := CommitOnly(disk, Overwrite(path, before, after), limit);
    UnguardedClaims(Overwrite(path, before, after), did);
  }

  datatype PatchInput = CodexText(text: string) | TextReplacements(files: seq<(string, seq<Replace.Edit>)>)

  function SectionItems(sections: seq<CodexParser.Section>): (items: seq<Item>)
    ensures |items| == |sections|
  {
    seq(|sections|, i requires 0 <= i < |sections| => Section(sections[i]))
  }

  function ReplacementItems(files: seq<(string, seq<Replace.Edit>)>): (items: seq<Item>)
    ensures |items| == |files|
  {
    seq(|files|, i requires 0 <= i < |files| => Replacements(files[i].0, files[i].1))
  }

  function EditCount(items: seq<Item>): nat {
    if items == [] then 0
    else
      (match items[0]
       case Section(Update(_, _, chunks)) => |chunks|
       case Section(_) => 1
       case Replacements(_, edits) => |edits|)
      + EditCount(items[1..])
  }

  // A list of replacements that is malformed: no files or too many, or one without edits.
  predicate BadList(files: seq<(string, seq<Replace.Edit>)>) {
    files == [] || |files| > MAX_PATCH_FILES || exists i :: 0 <= i < |files| && files[i].1 == []
  }

  function RequestedText(size: nat, parsed: Result<seq<CodexParser.Section>, ErrorCode>): Result<seq<Item>, ErrorCode> {
    if size > MAX_PATCH_BYTES then Err(ResourceLimit)
    else
      var sections :- parsed;
      Ok(SectionItems(sections))
  }

  // The files a request is about.
  function Requested(input: PatchInput): Result<seq<Item>, ErrorCode> {
    match input
    case CodexText(text) => RequestedText(Utf8Size(text), CodexParser.Parse(text))
    case TextReplacements(files) =>
      if BadList(files) then Err(InvalidArgument)
      else Ok(ReplacementItems(files))
  }

  predicate WithinLimits(items: seq<Item>) {
    items != [] && |items| <= MAX_PATCH_FILES && EditCount(items) <= MAX_PATCH_EDITS
  }

  function ItemsOf(input: PatchInput): Result<seq<Item>, ErrorCode> {
    Limited(Requested(input))
  }

  function Limited(r: Result<seq<Item>, ErrorCode>): Result<seq<Item>, ErrorCode> {
    if r.Ok? && !WithinLimits(r.value) then Err(ResourceLimit) else r
  }

  // Items that all ask for something, and are no more than a request may have.
  ghost predicate Acceptable(items: seq<Item>) {
    && 1 <= |items| <= MAX_PATCH_FILES && EditCount(items) <= MAX_PATCH_EDITS
    && forall i :: 0 <= i < |items| ==> AsksForSomething(items[i])
  }

  ghost predicate AsksForSomething(item: Item) {
    match item
    case Section(Update(_, _, chunks)) => chunks != [] && CodexParser.Substantial(chunks)
    case Section(_) => true
    case Replacements(_, edits) => edits != []
  }

  lemma {:induction false} EveryItemCounts(items: seq<Item>)
    requires forall i :: 0 <= i < |items| ==> AsksForSomething(items[i])
    ensures |items| <= EditCount(items)
  {
    if items != [] {
      assert AsksForSomething(items[0]);
      forall i | 0 <= i < |items[1..]|
        ensures AsksForSomething(items[1..][i])
      {
        assert items[1..][i] == items[i + 1];
      }
      EveryItemCounts(items[1..]);
    }
  }

  lemma SectionsAsk(sections: seq<CodexParser.Section>)
    requires CodexParser.SubstantialSections(sections)
    ensures forall i :: 0 <= i < |sections| ==> AsksForSomething(SectionItems(sections)[i])
  {
    forall i | 0 <= i < |sections|
      ensures AsksForSomething(Section(sections[i]))
    {
      assert sections[i] in sections;
    }
  }

  lemma ReadItemsAsk(input: PatchInput)
    requires ItemsOf(input).Ok?
    ensures Acceptable(ItemsOf(input).value) && |ItemsOf(input).value| <= EditCount(ItemsOf(input).value)
  {
    if input.CodexText? {
      CodexParser.ParsedUpdatesHaveHunks(input.text);
      SectionsAsk(CodexParser.Parse(input.text).value);
    } else {
      assert forall i :: 0 <= i < |input.files| ==> AsksForSomething(ReplacementItems(input.files)[i]);
    }
    EveryItemCounts(ItemsOf(input).value);
  }

  // What becomes of a text: its sections, or why it is refused.
  ghost predicate ReadsText(size: nat, parsed: Result<seq<CodexParser.Section>, ErrorCode>,
                            r: Result<seq<Item>, ErrorCode>)
  {
    && (r == Err(ResourceLimit)
        <==> size > MAX_PATCH_BYTES || (parsed.Ok? && !WithinLimits(SectionItems(parsed.value))))
    && (r == Err(InvalidArgument) <==> size <= MAX_PATCH_BYTES && parsed == Err(InvalidArgument))
    && (r == Err(UnsupportedOperation) <==> size <= MAX_PATCH_BYTES && parsed == Err(UnsupportedOperation))
    && (r.Ok? ==> parsed.Ok? && r.value == SectionItems(parsed.value))
  }

  // What becomes of a list of replacements.
  ghost predicate ReadsList(files: seq<(string, seq<Replace.Edit>)>, r: Result<seq<Item>, ErrorCode>) {
    && (r == Err(InvalidArgument) <==> BadList(files))
    && (r == Err(ResourceLimit) <==> !BadList(files) && EditCount(ReplacementItems(files)) > MAX_PATCH_EDITS)
    && (r.Ok? ==> r.value == ReplacementItems(files))
  }

  lemma TextItems(size: nat, parsed: Result<seq<CodexParser.Section>, ErrorCode>)
    requires parsed.Err? ==> CodexParser.IsRefusal(parsed.error)
    ensures ReadsText(size, parsed, Limited(RequestedText(size, parsed)))
    ensures var r := Limited(RequestedText(size, parsed));
            r.Err? ==> r.error in {ResourceLimit, InvalidArgument, UnsupportedOperation}
  {
  }

  lemma ListItems(files: seq<(string, seq<Replace.Edit>)>)
    ensures ReadsList(files, ItemsOf(TextReplacements(files)))
    ensures ItemsOf(TextReplacements(files)).Err? ==>
              ItemsOf(TextReplacements(files)).error in {ResourceLimit, InvalidArgument}
  {
  }

  /** Which requests are read, and what is wrong with the others. A text that parses to no section
      is too small for its limits, and refused like one that is too large. */
  lemma ItemsMeaning(input: PatchInput)
    ensures ItemsOf(input).Ok? ==>
              Acceptable(ItemsOf(input).value) && |ItemsOf(input).value| <= EditCount(ItemsOf(input).value)
    ensures input.CodexText? ==> ReadsText(Utf8Size(input.text), CodexParser.Parse(input.text), ItemsOf(input))
    ensures input.TextReplacements? ==> ReadsList(input.files, ItemsOf(input))
    ensures ItemsOf(input).Err? ==> ItemsOf(input).error in {ResourceLimit, InvalidArgument, UnsupportedOperation}
  {
    if ItemsOf(input).Ok? {
      ReadItemsAsk(input);
    }
    match input
    case CodexText(text) =>
      CodexParser.ParsedUpdatesHaveHunks(text);
      TextItems(Utf8Size(text), CodexParser.Parse(text));
    case TextReplacements(files) => ListItems(files);
  }

  method ReadItems(input: PatchInput) returns (r: Result<seq<Item>, ErrorCode>)
    ensures r == ItemsOf(input)
    ensures r.Ok? ==> Acceptable(r.value)
  {
    ItemsMeaning(input);
    r := ReadRequest(input);
    if r.Ok? && !WithinLimits(r.value) {
      r := Err(ResourceLimit);
    }
  }

  method ReadRequest(input: PatchInput) returns (r: Result<seq<Item>, ErrorCode>)
    ensures r == Requested(input)
  {
    match input
    case CodexText(text) =>
      if Utf8Size(text) > MAX_PATCH_BYTES {
        return Err(ResourceLimit);
      }
      var sections := CodexParser.ParseCodex(text);
      return if sections.Err? then Err(sections.error) else Ok(SectionItems(sections.value));
    case TextReplacements(files) =>
      if BadList(files) {
        return Err(InvalidArgument);
      }
      return Ok(ReplacementItems(files));
  }

  // A finished plan: one step for every file of the request, what was found, and what is planned.
  datatype Planned = Planned(items: seq<Item>, steps: seq<Step>, originals: Picture, currents: Picture)

  ghost predicate PlanFor(names: Names, limit: nat, plan: Planned) {
    && |plan.steps| == |plan.items|
    && (forall i :: 0 <= i < |plan.items| ==> Fulfils(plan.items[i], i, names, plan.steps[i]))
    && AllFit(plan.steps, limit)
    && Simulate(plan.originals, plan.steps) == Some(plan.currents)
  }

  lemma FulfilsShaped(item: Item, index: nat, names: Names, s: Step)
    requires Fulfils(item, index, names, s) && (s.destination.Some? ==> s.destination.value != s.path)
    ensures Shaped(s)
  {
  }

  // Steps for the first files of a request.
  ghost predicate PartPlan(items: seq<Item>, names: Names, limit: nat, steps: seq<Step>) {
    && |steps| <= |items| && AllFit(steps, limit) && AllShaped(steps)
    && forall j :: 0 <= j < |steps| ==> Fulfils(items[j], j, names, steps[j])
  }

  lemma PartPlanNext(items: seq<Item>, names: Names, limit: nat, steps: seq<Step>, s: Step)
    requires PartPlan(items, names, limit, steps) && |steps| < |items|
    requires Fulfils(items[|steps|], |steps|, names, s) && StepFits(s, limit) && Shaped(s)
    ensures PartPlan(items, names, limit, steps + [s])
  {
  }

  // All the items can be planned if and only if those left can, after what has been seen.
  ghost predicate ComesDownTo(files: map<Path, Contents>, items: seq<Item>, names: Names, limit: nat, l: Ledger,
                              work: nat, i: nat)
    requires i <= |items|
  {
    CanPlanAll(NOTHING_SEEN, 0, files, items, names, limit) <==> CanPlanAll(l, work, files, items[i..], names, limit)
  }

  lemma NextComes(files: map<Path, Contents>, items: seq<Item>, names: Names, limit: nat, l: Ledger, work: nat, i: nat)
    requires i < |items| && ComesDownTo(files, items, names, limit, l, work, i)
    ensures !CanPlan(l, work, files, items[i], names, limit) ==>
              !CanPlanAll(NOTHING_SEEN, 0, files, items, names, limit)
    ensures CanPlan(l, work, files, items[i], names, limit) ==>
              var (next, spent) := AfterPlan(l, work, files, items[i], names, limit);
              ComesDownTo(files, items, names, limit, next, spent, i + 1)
  {
    assert items[i..][0] == items[i] && items[i..][1..] == items[i + 1..];
  }

  // The planning loop.
  method PlanAll(disk: Disk, state: PlanState, items: seq<Item>, names: Names, limit: nat)
    returns (r: Result<seq<Step>, (Fault, nat)>)
    requires state.Now() == NOTHING_SEEN && state.work == 0
    modifies state, disk`files, disk`others, disk`last
    ensures disk.Calm() ==> (r.Ok? <==> CanPlanAll(NOTHING_SEEN, 0, disk.files, items, names, limit))
    ensures disk.quiet ==> disk.files == old(disk.files)
    ensures r.Ok? ==>
              PlanFor(names, limit, Planned(items, r.value, Originals(state.view), Currents(state.view)))
              && AllShaped(r.value)
    ensures r.Ok? && disk.quiet ==> Shows(Originals(state.view), disk.files)
    ensures r.Ok? ==> ViewFits(state.view, limit)
    ensures r.Err? ==> r.error.1 < |items|
  {
    var steps: seq<Step> := [];
    assert items[0..] == items;
    for i := 0 to |items|
      invariant |steps| == i && PartPlan(items, names, limit, steps)
      invariant Simulate(Originals(state.view), steps) == Some(Currents(state.view))
      invariant ViewFits(state.view, limit)
      invariant disk.quiet ==> disk.files == old(disk.files) && NewFrom(map[], state.view, disk.files)
      invariant disk.Calm() ==> ComesDownTo(disk.files, items, names, limit, state.Now(), state.work, i)
    {
      if disk.Calm() {
        NextComes(disk.files, items, names, limit, state.Now(), state.work, i);
      }
      var step := PlanNext(disk, state, items, i, names, limit, steps);
      if step.Err? {
        return Err((step.error, i));
      }
      steps := steps + [step.value];
    }
    return Ok(steps);
  }

  // One turn of the planning loop.
  method PlanNext(disk: Disk, state: PlanState, items: seq<Item>, i: nat, names: Names, limit: nat,
                  ghost steps: seq<Step>)
    returns (step: Result<Step, Fault>)
    requires |steps| == i < |items| && PartPlan(items, names, limit, steps) && ViewFits(state.view, limit)
    requires Simulate(Originals(state.view), steps) == Some(Currents(state.view))
    modifies state, disk`files, disk`others, disk`last
    ensures step.Ok? ==>
              && PartPlan(items, names, limit, steps + [step.value]) && ViewFits(state.view, limit)
              && Simulate(Originals(state.view), steps + [step.value]) == Some(Currents(state.view))
    ensures disk.quiet ==> disk.files == old(disk.files)
    ensures disk.quiet && step.Ok? && NewFrom(map[], old(state.view), disk.files) ==>
              NewFrom(map[], state.view, disk.files)
    ensures disk.Calm() ==>
              (step.Ok? <==> CanPlan(old(state.Now()), old(state.work), disk.files, items[i], names, limit))
    ensures disk.Calm() && step.Ok? ==>
              (state.Now(), state.work)
                == AfterPlan(old(state.Now()), old(state.work), disk.files, items[i], names, limit)
  {
    ghost var v := state.view;
    step := state.PlanSection(disk, items[i], i, names, limit);
    if step.Ok? {
      AdvanceSimulates(v, state.view, steps, step.value);
      FulfilsShaped(items[i], i, names, step.value);
      PartPlanNext(items, names, limit, steps, step.value);
    }
  }

  // The look at every path of the view before the first write, in any order.
  method VerifyAll(disk: Disk, view: map<Path, View>, limit: nat) returns (fault: Option<ErrorCode>)
    modifies disk`files, disk`others, disk`last
    ensures disk.quiet ==> disk.files == old(disk.files)
    ensures fault.None? ==> forall p :: p in view ==> p in disk.last && disk.last[p] == view[p].original
    ensures disk.quiet && fault.None? ==> Shows(Originals(view), disk.files)
    ensures disk.quiet && disk.reliable && Shows(Originals(view), disk.files) && ViewFits(view, limit) ==> fault.None?
  {
    var rest := view.Keys;
    while rest != {}
      invariant rest <= view.Keys
      invariant disk.quiet ==> disk.files == old(disk.files)
      invariant forall p :: p in view && p !in rest ==> p in disk.last && disk.last[p] == view[p].original
      invariant disk.quiet ==> forall p :: p in view && p !in rest ==> At(disk.files, p) == view[p].original
      decreases rest
    {
      var p: Path :| p in rest;
      fault := disk.Verify(p, view[p].original, limit);
      if fault.Some? {
        assert disk.quiet && Shows(Originals(view), disk.files) ==> At(disk.files, p) == Originals(view)[p];
        return;
      }
      rest := rest - {p};
    }
    fault := None;
  }

  // Everything before the first write: the plan, and the look at all its paths.
  method Draft(disk: Disk, items: seq<Item>, names: Names, limit: nat)
    returns (r: Result<seq<Step>, Failure>, ghost plan: Option<Planned>)
    modifies disk`files, disk`others, disk`last
    ensures disk.quiet ==> disk.files == old(disk.files)
    ensures plan.Some? ==> PlanFor(names, limit, plan.value) && plan.value.items == items
    ensures r.Ok? ==> plan.Some? && plan.value.steps == r.value && AllShaped(r.value)
    ensures disk.Calm() ==> (plan.Some? <==> CanPlanAll(NOTHING_SEEN, 0, disk.files, items, names, limit))
    ensures disk.quiet && plan.Some? ==> Shows(plan.value.originals, disk.files) && (disk.reliable ==> r.Ok?)
  {
    plan := None;
    var state := new PlanState();
    var steps := PlanAll(disk, state, items, names, limit);
    if steps.Err? {
      return Err(Failure(steps.error.0.code, Some(steps.error.1), steps.error.0.edit)), plan;
    }
    plan := Some(Planned(items, steps.value, Originals(state.view), Currents(state.view)));
    var fault := VerifyAll(disk, state.view, limit);
    if fault.Some? {
      return Err(Failure(fault.value, None, None)), plan;
    }
    return Ok(steps.value), plan;
  }

  // What is known of a planned run that another writer did not disturb.
  ghost predicate Undisturbed(files0: map<Path, Contents>, files: map<Path, Contents>, plan: Planned, committed: nat,
                              exact: bool, did: seq<Event>)
  {
    && Alone(did) && Shows(plan.originals, files0)
    && (exact ==> OnPlan(files0, files, plan.originals, plan.steps, committed))
  }

  // The run of a request whose files are known.
  method Carry(disk: Disk, receipt: PatchReceipt, items: seq<Item>, names: Names, limit: nat)
    returns (ghost plan: Option<Planned>, ghost committed: nat, ghost did: seq<Event>, ghost looks: seq<Look>)
    requires items != []
    requires receipt.status.Applied? && receipt.changesExact && receipt.error.None? && receipt.changes == []
    modifies disk, receipt
    ensures Logged(old(disk.Log()), disk.Log(), did, looks)
    ensures plan.Some? ==> PlanFor(names, limit, plan.value) && plan.value.items == items
    ensures plan.Some? ==>
              Reported(receipt.status, receipt.changesExact, receipt.changes, receipt.error, plan.value.steps,
                       committed, did)
    ensures plan.None? ==> Refused(receipt.status, receipt.changesExact, receipt.changes, receipt.error) && did == []
    ensures Accounted(did, looks) && Checked(did) && (plan.Some? ==> LooksFor(looks, plan.value.steps, committed))
    ensures disk.Calm() ==> (plan.Some? <==> CanPlanAll(NOTHING_SEEN, 0, old(disk.files), items, names, limit))
    ensures disk.quiet && plan.None? ==> disk.files == old(disk.files)
    ensures disk.quiet && plan.Some? ==>
              Undisturbed(old(disk.files), disk.files, plan.value, committed, receipt.changesExact, did)
    ensures disk.quiet && disk.reliable && plan.Some? ==> committed == |plan.value.steps|
    ensures disk.reliable ==> disk.strays == old(disk.strays)
  {
    committed, did, looks := 0, [], [];
    var drafted;
    drafted, plan := Draft(disk, items, names, limit);
    if drafted.Err? {
      var f := drafted.error;
      receipt.Fail(f.code, f.section, f.edit, false);
      if plan.Some? {
        NothingReported(receipt.error, plan.value, disk.files);
      }
      return;
    }
    committed, did, looks := CommitSteps(disk, receipt, drafted.value, limit, plan.value.originals);
  }

  // A receipt for a request that was not planned to the end.
  ghost predicate Refused(status: Status, exact: bool, changes: seq<Change>, error: Option<Failure>) {
    status.Rejected? && exact && changes == [] && error.Some?
  }

  lemma NothingReported(error: Option<Failure>, plan: Planned, files: map<Path, Contents>)
    requires plan.steps != [] && error.Some?
    ensures Reported(Rejected, true, [], error, plan.steps, 0, [])
    ensures Shows(plan.originals, files) ==> Undisturbed(files, files, plan, 0, true, [])
  {
    if Shows(plan.originals, files) {
      OverlayNothing(files, plan.originals);
    }
  }

  // Every path the plan is about holds what was planned, and every other path what it held before.
  ghost predicate Ended(files0: map<Path, Contents>, files: map<Path, Contents>, planned: Picture) {
    forall p :: At(files, p) == if p in planned then planned[p] else At(files0, p)
  }

  lemma UndisturbedEnds(files0: map<Path, Contents>, files: map<Path, Contents>, plan: Planned, exact: bool,
                        did: seq<Event>)
    requires Simulate(plan.originals, plan.steps) == Some(plan.currents)
    requires Undisturbed(files0, files, plan, |plan.steps|, exact, did) && exact
    ensures Ended(files0, files, plan.currents)
  {
    SimulateAt(plan.originals, plan.steps, |plan.steps|);
    forall p
      ensures At(files, p) == if p in plan.currents then plan.currents[p] else At(files0, p)
    {
      OverlayShows(files0, plan.currents, p);
    }
  }

  // What a run of a request is: its plan, if the request was planned to the end, the steps committed,
  // what the run did, and what the first looks of its writes found.
  datatype Run = Run(plan: Option<Planned>, committed: nat, did: seq<Event>, looks: seq<Look>)

  // What holds of a run and its receipt under any failures and any other writer.
  ghost predicate Honest(input: PatchInput, names: Names, limit: nat, r: Receipt, run: Run) {
    && (match run.plan
        case Some(plan) =>
          && PlanFor(names, limit, plan) && ItemsOf(input) == Ok(plan.items)
          && Reported(r.status, r.changesExact, r.changes, r.error, plan.steps, run.committed, run.did)
          && LooksFor(run.looks, plan.steps, run.committed)
        case None => Refused(r.status, r.changesExact, r.changes, r.error) && run.did == [])
    && (ItemsOf(input).Err? ==> r.error == Some(Failure(ItemsOf(input).error, None, None)))
    && Accounted(run.did, run.looks) && Checked(run.did)
  }

  // An exact receipt lists the changes of the run's own if and only if no write was forestalled, and
  // what each of them replaced if and only if nobody wrote in between.
  ghost predicate Exact(changes: seq<Change>, run: Run) {
    && Covers(changes, true, run.did)
    && (OwnMarks(run.did) == AllClaims(changes) <==> NoneForestalled(run.looks))
    && (TrueBefores(changes, run.did) <==> NobodyBetween(run.did))
  }

  lemma RunExact(changes: seq<Change>, run: Run)
    requires Covers(changes, true, run.did) && Accounted(run.did, run.looks) && Checked(run.did)
    ensures Exact(changes, run)
  {
    ExactUnlessForestalled(changes, run.did, run.looks);
    RecordedBefores(changes, run.did);
  }

  // What holds besides without another writer.
  ghost predicate Quiet(files0: map<Path, Contents>, files: map<Path, Contents>, exact: bool, run: Run) {
    && NoneForestalled(run.looks) && NobodyBetween(run.did)
    && (match run.plan
        case Some(plan) => Undisturbed(files0, files, plan, run.committed, exact, run.did)
        case None => files == files0)
  }

  // What holds besides when no call fails either.
  ghost predicate Completed(
    files0: map<Path, Contents>, files: map<Path, Contents>, input: PatchInput, names: Names, limit: nat,
    status: Status, run: Run)
  {
    && (run.plan.Some? <==>
          ItemsOf(input).Ok? && CanPlanAll(NOTHING_SEEN, 0, files0, ItemsOf(input).value, names, limit))
    && (run.plan.Some? ==>
          && run.committed == |run.plan.value.steps| && status.Applied?
          && Ended(files0, files, run.plan.value.currents))
  }

  /** `execute`: the receipt is honest under any failures and any other writer; what an exact one
      says is true if and only if another writer got in no write's way. Without another writer none
      does, and the files are where the plan has them after the recorded steps. When no call fails
      either, a request is planned if and only if its sections can be, each after those before it,
      and then it is carried out to its end. */
  method Execute(disk: Disk, mutationId: string, input: PatchInput, names: Names, limit: nat)
    returns (receipt: PatchReceipt, ghost run: Run)
    modifies disk
    ensures fresh(receipt) && receipt.mutationId == mutationId
    ensures Logged(old(disk.Log()), disk.Log(), run.did, run.looks)
    ensures Honest(input, names, limit, receipt.Value(), run)
    ensures receipt.changesExact ==> Exact(receipt.changes, run)
    ensures disk.quiet ==> Quiet(old(disk.files), disk.files, receipt.changesExact, run)
    ensures disk.Calm() ==> Completed(old(disk.files), disk.files, input, names, limit, receipt.status, run)
    ensures disk.reliable ==> disk.strays == old(disk.strays)
  {
    receipt := new PatchReceipt(mutationId);
    run := Run(None, 0, [], []);
    var items := ReadItems(input);
    if items.Err? {
      receipt.Fail(items.error, None, None, false);
      return;
    }
    ghost var plan, committed, did, looks := Carry(disk, receipt, items.value, names, limit);
    run := Run(plan, committed, did, looks);
    OursUnlessForestalled(did, looks);
    if receipt.changesExact {
      RunExact(receipt.changes, run);
    }
    if disk.Calm() && plan.Some? {
      UndisturbedEnds(old(disk.files), disk.files, plan.value, receipt.changesExact, did);
    }
  }
}
