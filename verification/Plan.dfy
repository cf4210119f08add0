/** Planning a patch (`state`, `plan_section` in patch.rs): the sections are worked out against a
    view of the files that no write has touched yet, each against what the ones before it leave. */
module Plan {
  import Codex
  import CodexParser
  import opened Errors
  import opened Files
  import Replace
  import opened Wrappers

  const MAX_PATCH_AGGREGATE_BYTES: nat := 20 * 1024 * 1024

  // One file of a request: a section of a Codex patch, or the replacements for one file.
  datatype Item =
    | Section(section: CodexParser.Section)
    | Replacements(file: string, edits: seq<Replace.Edit>)
  {
    function Source(): string {
      if Section? then section.path else file
    }

    function Destination(): Option<string> {
      if Section? && section.Update? then section.moveTo else None
    }

    // Deleting or moving: the source must not be a symbolic link.
    predicate Removes() {
      Section? && (section.Delete? || (section.Update? && section.moveTo.Some?))
    }
  }

  // Where a path of the request leads, and its lexical spelling.
  datatype Target = Target(path: Path, spelling: string)

  // What the paths of a request lead to, or why they lead nowhere, and which are symbolic links.
  datatype Names = Names(targets: map<string, Target>, faults: map<string, ErrorCode>, symlinks: set<string>) {
    function FaultAt(raw: string): ErrorCode {
      if raw in faults then faults[raw] else InvalidArgument
    }
  }

  datatype ChangeKind = Added | Updated | Deleted | Moved

  datatype Step = Step(
    kind: ChangeKind, path: Path, destination: Option<Path>,
    before: Option<Contents>, after: Option<Contents>, destinationBefore: Option<Contents>, section: nat)

  // What was found at a path, and what the planned steps leave there.
  datatype View = View(original: Option<Contents>, current: Option<Contents>)

  type Picture = map<Path, Option<Contents>>

  function Originals(view: map<Path, View>): (m: Picture)
    ensures m.Keys == view.Keys
  {
    map p | p in view :: view[p].original
  }

  function Currents(view: map<Path, View>): (m: Picture)
    ensures m.Keys == view.Keys
  {
    map p | p in view :: view[p].current
  }

  // The step fits a picture of the files: it expects what the picture shows.
  predicate Applicable(m: Picture, s: Step) {
    && s.path in m && m[s.path] == s.before
    && (s.destination.Some? ==>
          s.destination.value in m && s.destination.value != s.path && m[s.destination.value] == s.destinationBefore)
  }

  function StepOn(m: Picture, s: Step): Picture {
    if s.destination.Some? then m[s.path := None][s.destination.value := s.after] else m[s.path := s.after]
  }

  // Taking the steps in order, each checked before it is taken.
  function Simulate(m: Picture, steps: seq<Step>): Option<Picture> {
    if steps == [] then Some(m)
    else if Applicable(m, steps[0]) then Simulate(StepOn(m, steps[0]), steps[1..])
    else None
  }

  lemma {:induction false} SimulateAppend(m: Picture, steps: seq<Step>, s: Step)
    requires Simulate(m, steps).Some? && Applicable(Simulate(m, steps).value, s)
    ensures Simulate(m, steps + [s]) == Some(StepOn(Simulate(m, steps).value, s))
  {
    if steps == [] {
      assert steps + [s] == [s] && [s][1..] == [];
    } else {
      assert (steps + [s])[0] == steps[0] && (steps + [s])[1..] == steps[1..] + [s];
      SimulateAppend(StepOn(m, steps[0]), steps[1..], s);
    }
  }

  // Paths that no step mentions stay as they are.
  lemma {:induction false} SimulateGrow(m: Picture, steps: seq<Step>, extra: Picture)
    requires Simulate(m, steps).Some? && m.Keys !! extra.Keys
    ensures Simulate(m + extra, steps) == Some(Simulate(m, steps).value + extra)
  {
    if steps != [] {
      var s := steps[0];
      assert StepOn(m + extra, s) == StepOn(m, s) + extra;
      assert StepOn(m, s).Keys == m.Keys;
      SimulateGrow(StepOn(m, s), steps[1..], extra);
    }
  }

  // The picture after the first `k` steps.
  function StateAfter(m: Picture, steps: seq<Step>, k: nat): Picture
    requires k <= |steps|
    decreases k
  {
    if k == 0 then m else StateAfter(StepOn(m, steps[0]), steps[1..], k - 1)
  }

  lemma {:induction false} SimulateAt(m: Picture, steps: seq<Step>, k: nat)
    requires Simulate(m, steps).Some? && k <= |steps|
    ensures k == |steps| ==> StateAfter(m, steps, k) == Simulate(m, steps).value
    ensures k < |steps| ==>
              Applicable(StateAfter(m, steps, k), steps[k])
              && StateAfter(m, steps, k + 1) == StepOn(StateAfter(m, steps, k), steps[k])
    decreases k
  {
    if k > 0 {
      SimulateAt(StepOn(m, steps[0]), steps[1..], k - 1);
    }
  }

  function Leave(view: map<Path, View>, path: Path, c: Option<Contents>): map<Path, View>
    requires path in view
  {
    view[path := view[path].(current := c)]
  }

  lemma LeaveMeaning(view: map<Path, View>, path: Path, c: Option<Contents>)
    requires path in view
    ensures Originals(Leave(view, path, c)) == Originals(view)
    ensures Currents(Leave(view, path, c)) == Currents(view)[path := c]
  {
  }

  // The view with a step entered.
  function Entered(view: map<Path, View>, path: Path, destination: Option<Path>,
                   after: Option<Contents>): map<Path, View>
    requires path in view && (destination.Some? ==> destination.value in view)
  {
    var w := Leave(view, path, if destination.Some? then None else after);
    if destination.Some? then Leave(w, destination.value, after) else w
  }

  lemma EnteredMeaning(view: map<Path, View>, s: Step, limit: nat)
    requires s.path in view && (s.destination.Some? ==> s.destination.value in view)
    requires ViewFits(view, limit) && Fits(s.after, limit)
    ensures var x := Entered(view, s.path, s.destination, s.after);
            ViewFits(x, limit) && Originals(x) == Originals(view) && Currents(x) == StepOn(Currents(view), s)
  {
    var w := Leave(view, s.path, if s.destination.Some? then None else s.after);
    LeaveMeaning(view, s.path, if s.destination.Some? then None else s.after);
    if s.destination.Some? {
      LeaveMeaning(w, s.destination.value, s.after);
    }
  }

  // What the view shows before a step: the current contents, or those just found.
  function Found(v: map<Path, View>, w: map<Path, View>): Picture {
    map p | p in w :: if p in v then v[p].current else w[p].original
  }

  // From the view `v` to `w` by one planned step, which may bring in the paths it mentions.
  ghost predicate Advances(v: map<Path, View>, w: map<Path, View>, s: Step) {
    && w.Keys == v.Keys + {s.path} + (if s.destination.Some? then {s.destination.value} else {})
    && (forall p :: p in v ==> w[p].original == v[p].original)
    && Applicable(Found(v, w), s)
    && Currents(w) == StepOn(Found(v, w), s)
  }

  // The paths that are new in the view, as they were found.
  function Fresh(v: map<Path, View>, w: map<Path, View>): (m: Picture)
    ensures m.Keys == w.Keys - v.Keys
  {
    map p | p in w && p !in v :: w[p].original
  }

  lemma OriginalsGrow(v: map<Path, View>, w: map<Path, View>)
    requires v.Keys <= w.Keys && forall p :: p in v ==> w[p].original == v[p].original
    ensures Originals(w) == Originals(v) + Fresh(v, w)
  {
  }

  lemma FoundGrows(v: map<Path, View>, w: map<Path, View>)
    requires v.Keys <= w.Keys
    ensures Found(v, w) == Currents(v) + Fresh(v, w)
  {
  }

  /** The view is the simulation: after any number of planned steps, taking them from the
      originals gives the current contents. */
  lemma AdvanceSimulates(v: map<Path, View>, w: map<Path, View>, steps: seq<Step>, s: Step)
    requires Simulate(Originals(v), steps) == Some(Currents(v)) && Advances(v, w, s)
    ensures Simulate(Originals(w), steps + [s]) == Some(Currents(w))
  {
    OriginalsGrow(v, w);
    FoundGrows(v, w);
    SimulateGrow(Originals(v), steps, Fresh(v, w));
    SimulateAppend(Originals(w), steps, s);
  }

  function SizeOf(c: Option<Contents>): nat {
    if c.Some? then Size(c.value) else 0
  }

  // Everything in the view can be read under the limit.
  ghost predicate ViewFits(view: map<Path, View>, limit: nat) {
    forall p :: p in view ==> Fits(view[p].original, limit) && Fits(view[p].current, limit)
  }

  ghost predicate StepFits(s: Step, limit: nat) {
    Fits(s.before, limit) && Fits(s.after, limit) && Fits(s.destinationBefore, limit)
  }

  // The text that `apply_codex` or `apply_replacements` makes of a text, and the work after it;
  // none when it refuses.
  ghost function TextFrom(item: Item, text: string, work: nat): Option<(string, nat)>
    requires item.Section? ==> item.section.Update?
  {
    match item
    case Section(section) =>
      var applied := Codex.Applied(text, section.chunks, work);
      if applied.Err? then None else Some(applied.value)
    case Replacements(_, edits) =>
      if Replace.Succeeds(text, edits, work) then
        Some((Replace.Output(text, edits), Replace.Spent(Replace.Base(text), |edits|, work)))
      else None
  }

  ghost predicate NewText(item: Item, text: string, result: string)
    requires item.Section? ==> item.section.Update?
  {
    exists work: nat :: TextFrom(item, text, work).Some? && TextFrom(item, text, work).value.0 == result
  }

  // What a section leaves of the file at its path or at its destination, and the work after it;
  // none when it cannot be worked out.
  ghost function NewContents(item: Item, before: Option<Contents>, work: nat): Option<(Option<Contents>, nat)> {
    if item.Section? && item.section.Add? then Some((Some(Utf8(item.section.content)), work))
    else if before.None? then None
    else if item.Section? && item.section.Delete? then Some((None, work))
    else if before.value.Binary? then None
    else
      var text := TextFrom(item, before.value.text, work);
      if text.None? then None else Some((Some(Utf8(text.value.0)), text.value.1))
  }

  // The target of a path in the request.
  predicate LeadsTo(names: Names, raw: string, path: Path) {
    raw in names.targets && names.targets[raw].path == path
  }

  // A step that does what its section asks for.
  ghost predicate Fulfils(item: Item, index: nat, names: Names, s: Step) {
    && s.section == index && LeadsTo(names, item.Source(), s.path)
    && (item.Removes() ==> item.Source() !in names.symlinks)
    && (s.destination.None? ==> s.destinationBefore.None?)
    && match item
       case Section(Add(_, content)) => s.kind == Added && s.destination.None? && s.after == Some(Utf8(content))
       case Section(Delete(_)) => s.kind == Deleted && s.destination.None? && s.before.Some? && s.after.None?
       case Section(Update(_, moveTo, _)) =>
         && TextStep(item, s)
         && (if moveTo.None? then s.kind == Updated && s.destination.None?
             else s.kind == Moved && s.destination.Some? && LeadsTo(names, moveTo.value, s.destination.value))
       case Replacements(_, _) => TextStep(item, s) && s.kind == Updated && s.destination.None?
  }

  ghost predicate TextStep(item: Item, s: Step) {
    && (item.Section? ==> item.section.Update?)
    && s.before.Some? && s.before.value.Utf8? && s.after.Some? && s.after.value.Utf8?
    && NewText(item, s.before.value.text, s.after.value.text)
  }

  // From `v` to `w` by looking at a path: the first time, what is found there is what is left there.
  ghost predicate Drawn(v: map<Path, View>, w: map<Path, View>, path: Path, limit: nat) {
    && path in w
    && (path in v ==> w == v)
    && (path !in v ==> w == v[path := View(w[path].original, w[path].original)] && Fits(w[path].original, limit))
  }

  // What is new in the view is what the files hold.
  ghost predicate NewFrom(v: map<Path, View>, w: map<Path, View>, files: map<Path, Contents>) {
    forall p :: p in w && p !in v ==> w[p].original == At(files, p)
  }

  // What planning has seen so far.
  datatype Ledger = Ledger(view: map<Path, View>, aliases: map<Path, string>, aggregate: nat)

  predicate Resolves(l: Ledger, names: Names, raw: string) {
    && raw in names.targets
    && var t := names.targets[raw];
       t.path in l.aliases ==> l.aliases[t.path] == t.spelling
  }

  function AfterResolve(l: Ledger, names: Names, raw: string): Ledger
    requires raw in names.targets
  {
    l.(aliases := l.aliases[names.targets[raw].path := names.targets[raw].spelling])
  }

  predicate CanLook(l: Ledger, files: map<Path, Contents>, path: Path, limit: nat) {
    path in l.view
    || (Fits(At(files, path), limit) && l.aggregate + SizeOf(At(files, path)) <= MAX_PATCH_AGGREGATE_BYTES)
  }

  function AfterLook(l: Ledger, files: map<Path, Contents>, path: Path): Ledger {
    if path in l.view then l
    else l.(view := l.view[path := View(At(files, path), At(files, path))],
            aggregate := l.aggregate + SizeOf(At(files, path)))
  }

  // The destination of a move can be looked at, and is not its source.
  predicate CanGo(l: Ledger, files: map<Path, Contents>, names: Names, raw: string, path: Path, limit: nat) {
    && Resolves(l, names, raw) && names.targets[raw].path != path
    && CanLook(AfterResolve(l, names, raw), files, names.targets[raw].path, limit)
  }

  function AfterGo(l: Ledger, files: map<Path, Contents>, names: Names, raw: string): Ledger
    requires raw in names.targets
  {
    AfterLook(AfterResolve(l, names, raw), files, names.targets[raw].path)
  }

  // What a section makes of its file, as it is seen.
  ghost function Outcome(l: Ledger, work: nat, files: map<Path, Contents>, item: Item,
                         path: Path): Option<(Option<Contents>, nat)>
  {
    NewContents(item, AfterLook(l, files, path).view[path].current, work)
  }

  // The source of a section can be looked at, its new contents worked out, and its destination
  // looked at.
  ghost predicate CanDraw(l: Ledger, work: nat, files: map<Path, Contents>, item: Item, names: Names, path: Path,
                          limit: nat)
  {
    && CanLook(l, files, path, limit)
    && Outcome(l, work, files, item, path).Some?
    && (item.Destination().Some? ==>
        CanGo(AfterLook(l, files, path), files, names, item.Destination().value, path, limit))
  }

  function AfterDraw(l: Ledger, files: map<Path, Contents>, item: Item, names: Names, path: Path): (drawn: Ledger)
    requires item.Destination().Some? ==> item.Destination().value in names.targets
    ensures path in drawn.view
            && (item.Destination().Some? ==> names.targets[item.Destination().value].path in drawn.view)
  {
    var seen := AfterLook(l, files, path);
    if item.Destination().Some? then AfterGo(seen, files, names, item.Destination().value) else seen
  }

  // The sizes allow the contents to be planned.
  predicate Room(l: Ledger, after: Option<Contents>, limit: nat) {
    Fits(after, limit) && l.aggregate + SizeOf(after) <= MAX_PATCH_AGGREGATE_BYTES
  }

  function Put(l: Ledger, path: Path, destination: Option<Path>, after: Option<Contents>): Ledger
    requires path in l.view && (destination.Some? ==> destination.value in l.view)
  {
    l.(view := Entered(l.view, path, destination, after), aggregate := l.aggregate + SizeOf(after))
  }

  // The parts of a section can be worked out, and the sizes allow its step.
  ghost predicate CanEnter(l: Ledger, work: nat, files: map<Path, Contents>, item: Item, names: Names, path: Path,
                           limit: nat)
  {
    && CanDraw(l, work, files, item, names, path, limit)
    && Room(AfterDraw(l, files, item, names, path), Outcome(l, work, files, item, path).value.0, limit)
  }

  function TargetOf(names: Names, raw: Option<string>): Option<Path>
    requires raw.Some? ==> raw.value in names.targets
  {
    if raw.Some? then Some(names.targets[raw.value].path) else None
  }

  // What has been seen and spent when the step is entered.
  ghost function AfterEnter(l: Ledger, work: nat, files: map<Path, Contents>, item: Item, names: Names,
                            path: Path): (Ledger, nat)
    requires Outcome(l, work, files, item, path).Some?
    requires item.Destination().Some? ==> item.Destination().value in names.targets
  {
    var (after, spent) := Outcome(l, work, files, item, path).value;
    (Put(AfterDraw(l, files, item, names, path), path, TargetOf(names, item.Destination()), after), spent)
  }

  /** When a section can be planned: its path resolves, is not a repeated replacement target nor a
      symbolic link about to be removed, all its parts can be worked out, and the sizes allow it. */
  ghost predicate CanPlan(l: Ledger, work: nat, files: map<Path, Contents>, item: Item, names: Names, limit: nat) {
    && Resolves(l, names, item.Source())
    && var path := names.targets[item.Source()].path;
       && !(item.Replacements? && path in l.view)
       && !(item.Removes() && item.Source() in names.symlinks)
       && CanEnter(AfterResolve(l, names, item.Source()), work, files, item, names, path, limit)
  }

  // What has been seen and spent after a section is planned.
  ghost function AfterPlan(l: Ledger, work: nat, files: map<Path, Contents>, item: Item, names: Names,
                           limit: nat): (Ledger, nat)
    requires CanPlan(l, work, files, item, names, limit)
  {
    AfterEnter(AfterResolve(l, names, item.Source()), work, files, item, names, names.targets[item.Source()].path)
  }

  /** When all sections can be planned, each after those before it. */
  ghost predicate CanPlanAll(l: Ledger, work: nat, files: map<Path, Contents>, items: seq<Item>, names: Names,
                             limit: nat)
    decreases |items|
  {
    items == [] ||
    (CanPlan(l, work, files, items[0], names, limit) &&
     var (next, spent) := AfterPlan(l, work, files, items[0], names, limit);
     CanPlanAll(next, spent, files, items[1..], names, limit))
  }

  const NOTHING_SEEN := Ledger(map[], map[], 0)

  // An error, and the edit it is about.
  datatype Fault = Fault(code: ErrorCode, edit: Option<nat>)

  class PlanState {
    var view: map<Path, View>
    var aliases: map<Path, string>
    var aggregate: nat
    var work: nat

    constructor ()
      ensures view == map[] && aliases == map[] && aggregate == 0 && work == 0
    {
      view, aliases, aggregate, work := map[], map[], 0, 0;
    }

    ghost function Now(): Ledger
      reads this
    {
      Ledger(view, aliases, aggregate)
    }

    // `target`: two spellings of one target are refused.
    method Resolve(names: Names, raw: string) returns (r: Result<Path, ErrorCode>)
      modifies this`aliases
      ensures r.Ok? ==> LeadsTo(names, raw, r.value)
      ensures r.Ok? <==> Resolves(old(Now()), names, raw)
      ensures r.Ok? ==> Now() == AfterResolve(old(Now()), names, raw)
      ensures r.Err? ==> r.error == if raw in names.targets then InvalidArgument else names.FaultAt(raw)
    {
      if raw !in names.targets {
        return Err(names.FaultAt(raw));
      }
      var t := names.targets[raw];
      var clash := t.path in aliases && aliases[t.path] != t.spelling;
      aliases := aliases[t.path := t.spelling];
      if clash {
        return Err(InvalidArgument);
      }
      return Ok(t.path);
    }

    // `state`: the first time a path is asked for, it is read.
    method Look(disk: Disk, path: Path, limit: nat) returns (fault: Option<ErrorCode>)
      modifies this`view, this`aggregate, disk`files, disk`others, disk`last
      ensures disk.quiet ==> disk.files == old(disk.files)
      ensures fault.Some? ==> view == old(view)
      ensures disk.Calm() ==> (fault.None? <==> CanLook(old(Now()), disk.files, path, limit))
      ensures disk.Calm() && fault.None? ==> Now() == AfterLook(old(Now()), disk.files, path)
      ensures fault.None? ==> Drawn(old(view), view, path, limit) && NewFrom(old(view), view, disk.files)
    {
      fault := None;
      if path !in view {
        var original := disk.ReadOptional(path, limit);
        if original.Err? {
          return Some(original.error);
        }
        aggregate := aggregate + SizeOf(original.value);
        if aggregate > MAX_PATCH_AGGREGATE_BYTES {
          return Some(ResourceLimit);
        }
        view := view[path := View(original.value, original.value)];
      }
    }

    // The text an update or a list of replacements makes of the file.
    method Transform(item: Item, before: Option<Contents>) returns (r: Result<string, Fault>)
      requires item.Section? ==> item.section.Update?
      modifies this`work
      ensures r.Ok? <==> before.Some? && before.value.Utf8? && TextFrom(item, before.value.text, old(work)).Some?
      ensures r.Ok? ==> TextFrom(item, before.value.text, old(work)) == Some((r.value, work))
      ensures before.None? ==> r == Err(Fault(NotFound, None))
      ensures before.Some? && before.value.Binary? ==> r == Err(Fault(InvalidArgument, None))
    {
      if before.None? {
        return Err(Fault(NotFound, None));
      }
      if before.value.Binary? {
        return Err(Fault(InvalidArgument, None));
      }
      var text := before.value.text;
      if item.Section? {
        var rewritten := Codex.Apply(text, item.section.chunks, work);
        if rewritten.Err? {
          return Err(Fault(rewritten.error, None));
        }
        work := rewritten.value.1;
        return Ok(rewritten.value.0);
      }
      var replaced := Replace.Apply(text, item.edits, work);
      if replaced.Err? {
        return Err(Fault(replaced.error.code, Some(replaced.error.edit)));
      }
      work := replaced.value.1;
      return Ok(replaced.value.0);
    }

    // Where a move goes: not where it comes from.
    method LookAtDestination(disk: Disk, names: Names, raw: string, path: Path, limit: nat)
      returns (r: Result<Path, ErrorCode>)
      modifies this`view, this`aggregate, this`aliases, disk`files, disk`others, disk`last
      ensures disk.quiet ==> disk.files == old(disk.files)
      ensures r.Ok? ==> LeadsTo(names, raw, r.value) && r.value != path
      ensures disk.Calm() ==> (r.Ok? <==> CanGo(old(Now()), disk.files, names, raw, path, limit))
      ensures disk.Calm() && r.Ok? ==> Now() == AfterGo(old(Now()), disk.files, names, raw)
      ensures r.Ok? ==> Drawn(old(view), view, r.value, limit) && NewFrom(old(view), view, disk.files)
    {
      var to := Resolve(names, raw);
      if to.Err? {
        return to;
      }
      if to.value == path {
        return Err(InvalidArgument);
      }
      var fault := Look(disk, to.value, limit);
      if fault.Some? {
        return Err(fault.value);
      }
      return to;
    }

    // The size checks, and the step entered into the view.
    method Enter(s: Step, limit: nat) returns (fault: Option<ErrorCode>)
      requires s.path in view && (s.destination.Some? ==> s.destination.value in view)
      modifies this`view, this`aggregate
      ensures fault.None? <==> Room(old(Now()), s.after, limit)
      ensures fault.Some? ==> fault == Some(ResourceLimit) && view == old(view)
      ensures fault.None? ==> Now() == Put(old(Now()), s.path, s.destination, s.after)
    {
      if s.after.Some? && Size(s.after.value) > limit {
        return Some(ResourceLimit);
      }
      aggregate := aggregate + SizeOf(s.after);
      if aggregate > MAX_PATCH_AGGREGATE_BYTES {
        return Some(ResourceLimit);
      }
      fault := None;
      view := Leave(view, s.path, if s.destination.Some? then None else s.after);
      if s.destination.Some? {
        view := Leave(view, s.destination.value, s.after);
      }
    }

    // The kind of change, the new contents, and where a move goes.
    method WorkOut(disk: Disk, item: Item, names: Names, path: Path, before: Option<Contents>, limit: nat)
      returns (r: Result<(ChangeKind, Option<Contents>, Option<Path>), Fault>)
      modifies this, disk`files, disk`others, disk`last
      ensures disk.quiet ==> disk.files == old(disk.files)
      ensures r.Ok? ==>
                Worked(item, names, path, before, r.value)
                && NewContents(item, before, old(work)) == Some((r.value.1, work))
      ensures disk.Calm() ==>
                (r.Ok? <==> NewContents(item, before, old(work)).Some?
                            && (item.Destination().Some? ==>
                                CanGo(old(Now()), disk.files, names, item.Destination().value, path, limit)))
      ensures disk.Calm() && r.Ok? ==>
                Now() == if item.Destination().Some?
                         then AfterGo(old(Now()), disk.files, names, item.Destination().value)
                         else old(Now())
      ensures r.Ok? ==> (if r.value.2.Some? then Drawn(old(view), view, r.value.2.value, limit) else view == old(view))
      ensures r.Ok? ==> NewFrom(old(view), view, disk.files)
    {
      if item.Section? && item.section.Add? {
        return Ok((Added, Some(Utf8(item.section.content)), None));
      }
      if item.Section? && item.section.Delete? {
        return if before.None? then Err(Fault(NotFound, None)) else Ok((Deleted, None, None));
      }
      var modified := Transform(item, before);
      if modified.Err? {
        return Err(modified.error);
      }
      if item.Section? && item.section.moveTo.Some? {
        var to := LookAtDestination(disk, names, item.section.moveTo.value, path, limit);
        if to.Err? {
          return Err(Fault(to.error, None));
        }
        return Ok((Moved, Some(Utf8(modified.value)), Some(to.value)));
      }
      return Ok((Updated, Some(Utf8(modified.value)), None));
    }

    // The view brings in the paths of a step: what a section looks at, before any size check.
    method Draw(disk: Disk, item: Item, index: nat, names: Names, path: Path, limit: nat)
      returns (r: Result<Step, Fault>)
      requires ViewFits(view, limit)
      modifies this, disk`files, disk`others, disk`last
      ensures disk.quiet ==> disk.files == old(disk.files)
      ensures r.Ok? ==> LooksAt(old(view), view, r.value) && Applicable(Currents(view), r.value)
      ensures r.Ok? ==> ViewFits(view, limit)
      ensures r.Ok? ==> Worked(item, names, path, r.value.before, (r.value.kind, r.value.after, r.value.destination))
      ensures r.Ok? ==> NewContents(item, r.value.before, old(work)) == Some((r.value.after, work))
      ensures disk.Calm() ==> (r.Ok? <==> CanDraw(old(Now()), old(work), disk.files, item, names, path, limit))
      ensures disk.Calm() && r.Ok? ==> Now() == AfterDraw(old(Now()), disk.files, item, names, path)
      ensures disk.Calm() && r.Ok? ==>
                Outcome(old(Now()), old(work), disk.files, item, path) == Some((r.value.after, work))
      ensures r.Ok? ==>
                r.value.path == path && r.value.section == index
                && (r.value.destination.None? ==> r.value.destinationBefore.None?)
      ensures r.Ok? && disk.quiet ==> NewFrom(old(view), view, disk.files)
    {
      var fault := Look(disk, path, limit);
      if fault.Some? {
        return Err(Fault(fault.value, None));
      }
      ghost var u := view;
      var before := view[path].current;
      var worked := WorkOut(disk, item, names, path, before, limit);
      if worked.Err? {
        return Err(worked.error);
      }
      var (kind, after, destination) := worked.value;
      var destinationBefore := if destination.Some? then view[destination.value].current else None;
      r := Ok(Step(kind, path, destination, before, after, destinationBefore, index));
      DrawnLooks(old(view), u, view, r.value, limit);
    }

    // The step of a section whose path is known, entered into the view.
    method DrawAndEnter(disk: Disk, item: Item, index: nat, names: Names, path: Path, limit: nat)
      returns (r: Result<Step, Fault>)
      requires ViewFits(view, limit)
      modifies this, disk`files, disk`others, disk`last
      ensures disk.quiet ==> disk.files == old(disk.files)
      ensures r.Ok? ==> Worked(item, names, path, r.value.before, (r.value.kind, r.value.after, r.value.destination))
      ensures r.Ok? ==>
                r.value.path == path && r.value.section == index
                && (r.value.destination.None? ==> r.value.destinationBefore.None?)
      ensures r.Ok? ==> ViewFits(view, limit) && Advances(old(view), view, r.value) && StepFits(r.value, limit)
      ensures r.Ok? && disk.quiet ==> NewFrom(old(view), view, disk.files)
      ensures disk.Calm() ==> (r.Ok? <==> CanEnter(old(Now()), old(work), disk.files, item, names, path, limit))
      ensures disk.Calm() && r.Ok? ==> (Now(), work) == AfterEnter(old(Now()), old(work), disk.files, item, names, path)
    {
      ghost var v := view;
      r := Draw(disk, item, index, names, path, limit);
      if r.Err? {
        return;
      }
      ghost var w := view;
      WorkedTarget(item, names, r.value);
      var fault := Enter(r.value, limit);
      if fault.Some? {
        return Err(Fault(fault.value, None));
      }
      EnteredAdvances(v, w, r.value, limit);
    }

    /** `plan_section`: a step that does what the section asks for, entered into the view. */
    method PlanSection(disk: Disk, item: Item, index: nat, names: Names, limit: nat) returns (r: Result<Step, Fault>)
      requires ViewFits(view, limit)
      modifies this, disk`files, disk`others, disk`last
      ensures disk.quiet ==> disk.files == old(disk.files)
      ensures r.Ok? ==> Fulfils(item, index, names, r.value) && StepFits(r.value, limit)
      ensures r.Ok? ==> item.Replacements? ==> r.value.path !in old(view)
      ensures r.Ok? ==> ViewFits(view, limit) && Advances(old(view), view, r.value)
      ensures r.Ok? && disk.quiet ==> NewFrom(old(view), view, disk.files)
      ensures disk.Calm() ==> (r.Ok? <==> CanPlan(old(Now()), old(work), disk.files, item, names, limit))
      ensures disk.Calm() && r.Ok? ==> (Now(), work) == AfterPlan(old(Now()), old(work), disk.files, item, names, limit)
    {
      var target := Resolve(names, item.Source());
      if target.Err? {
        return Err(Fault(target.error, None));
      }
      var path := target.value;
      if item.Replacements? && path in view {
        return Err(Fault(InvalidArgument, None));
      }
      if item.Removes() && item.Source() in names.symlinks {
        return Err(Fault(InvalidArgument, None));
      }
      r := DrawAndEnter(disk, item, index, names, path, limit);
      if r.Ok? {
        WorkedFulfils(item, names, r.value);
      }
    }
  }

  ghost predicate Worked(item: Item, names: Names, path: Path, before: Option<Contents>,
                         worked: (ChangeKind, Option<Contents>, Option<Path>))
  {
    var (kind, after, destination) := worked;
    match item
    case Section(Add(_, content)) => kind == Added && after == Some(Utf8(content)) && destination.None?
    case Section(Delete(_)) => kind == Deleted && before.Some? && after.None? && destination.None?
    case Section(Update(_, moveTo, _)) =>
      && TextStep(item, Step(kind, path, destination, before, after, None, 0))
      && (if moveTo.None? then kind == Updated && destination.None?
          else
            && kind == Moved && destination.Some? && destination.value != path
            && LeadsTo(names, moveTo.value, destination.value))
    case Replacements(_, _) =>
      && TextStep(item, Step(kind, path, destination, before, after, None, 0)) && kind == Updated && destination.None?
  }

  lemma WorkedTarget(item: Item, names: Names, s: Step)
    requires Worked(item, names, s.path, s.before, (s.kind, s.after, s.destination))
    ensures item.Destination().Some? ==> item.Destination().value in names.targets
    ensures s.destination == TargetOf(names, item.Destination())
  {
  }

  lemma WorkedFulfils(item: Item, names: Names, s: Step)
    requires Worked(item, names, s.path, s.before, (s.kind, s.after, s.destination))
    requires LeadsTo(names, item.Source(), s.path) && (item.Removes() ==> item.Source() !in names.symlinks)
    requires s.destination.None? ==> s.destinationBefore.None?
    ensures Fulfils(item, s.section, names, s)
  {
  }

  // From `v` to `w` by looking at the paths of a step.
  ghost predicate LooksAt(v: map<Path, View>, w: map<Path, View>, s: Step) {
    && w.Keys == v.Keys + {s.path} + (if s.destination.Some? then {s.destination.value} else {})
    && forall p :: p in w ==> if p in v then w[p] == v[p] else w[p].current == w[p].original
  }

  // First the source, then the destination of a move.
  lemma DrawnLooks(v: map<Path, View>, u: map<Path, View>, w: map<Path, View>, s: Step, limit: nat)
    requires ViewFits(v, limit) && Drawn(v, u, s.path, limit) && s.before == u[s.path].current
    requires if s.destination.Some? then
               && Drawn(u, w, s.destination.value, limit) && s.destination.value != s.path
               && s.destinationBefore == w[s.destination.value].current
             else w == u
    ensures LooksAt(v, w, s) && Applicable(Currents(w), s) && ViewFits(w, limit)
  {
  }

  lemma EnteredAdvances(v: map<Path, View>, w: map<Path, View>, s: Step, limit: nat)
    requires LooksAt(v, w, s) && ViewFits(w, limit) && Fits(s.after, limit) && Applicable(Currents(w), s)
    requires s.destination.None? ==> s.destinationBefore.None?
    ensures var x := Entered(w, s.path, s.destination, s.after);
            Advances(v, x, s) && ViewFits(x, limit) && StepFits(s, limit) && Originals(x) == Originals(w)
  {
    EnteredMeaning(w, s, limit);
    var x := Entered(w, s.path, s.destination, s.after);
    assert x.Keys == w.Keys;
    forall p | p in w
      ensures x[p].original == w[p].original
    {
      assert Originals(x)[p] == Originals(w)[p];
    }
    assert Found(v, x) == Currents(w);
  }
}
