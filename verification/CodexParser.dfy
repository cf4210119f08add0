/** Reading a Codex patch into sections (`parse_codex` in patch.rs), and the canonical text of a
    list of sections, which reads back as that list. */
module CodexParser {
  import opened Codex
  import opened Errors
  import opened Text
  import opened Wrappers

  datatype Section =
    | Add(path: string, content: string)
    | Delete(path: string)
    | Update(path: string, moveTo: Option<string>, chunks: seq<Chunk>)

  const BEGIN := "*** Begin Patch"
  const END := "*** End Patch"
  const ADD := "*** Add File: "
  const DELETE := "*** Delete File: "
  const UPDATE := "*** Update File: "
  const MOVE := "*** Move to: "
  const EOF := "*** End of File"

  // `lines()` of the trimmed text, each without one more CR.
  function PatchLines(text: string): seq<string> {
    var trimmed := Trim(text);
    if trimmed == "" then []
    else
      var pieces := Split(trimmed);
      seq(|pieces|, i requires 0 <= i < |pieces| =>
        StripSuffixCr(if i < |pieces| - 1 then StripSuffixCr(pieces[i]) else pieces[i]))
  }

  predicate IsDirective(line: string) {
    "*** " <= line
  }

  predicate IsRouting(header: string) {
    "*** Environment ID:" <= header || "*** Workdir:" <= header || "*** Workdir " <= header
  }

  function After(line: string, prefix: string): string
    requires prefix <= line
  {
    line[|prefix|..]
  }

  // The added lines of a new file, and the lines after them.
  function AddBody(ls: seq<string>): Result<(string, seq<string>), ErrorCode> {
    if ls == [] || IsDirective(ls[0]) then Ok(("", ls))
    else if !("+" <= ls[0]) then Err(InvalidArgument)
    else
      var rest :- AddBody(ls[1..]);
      Ok((After(ls[0], "+") + "\n" + rest.0, rest.1))
  }

  const EMPTY := Chunk(None, [], [], false)

  predicate HasLines(c: Chunk) {
    c.oldLines != [] || c.newLines != []
  }

  // A hunk in progress: whether any hunk line has been seen, and the hunks before it.
  datatype Hunks = Hunks(chunk: Chunk, active: bool, done: seq<Chunk>) {
    predicate Pending() { active && HasLines(chunk) }
    function Flushed(): seq<Chunk> { if Pending() then done + [chunk] else done }
  }

  predicate IsAnchor(line: string) {
    line == "@@" || "@@ " <= line
  }

  // One line of an update section.
  function HunkLine(line: string, h: Hunks): Result<Hunks, ErrorCode> {
    if IsAnchor(line) then
      var anchor := if "@@ " <= line then Some(After(line, "@@ ")) else None;
      Ok(Hunks((if h.Pending() then EMPTY else h.chunk).(anchor := anchor), true, h.Flushed()))
    else if line == EOF then Ok(h.(chunk := h.chunk.(eof := true)))
    else if "+" <= line then
      Ok(h.(chunk := h.chunk.(newLines := h.chunk.newLines + [After(line, "+")]), active := true))
    else if "-" <= line then
      Ok(h.(chunk := h.chunk.(oldLines := h.chunk.oldLines + [After(line, "-")]), active := true))
    else if " " <= line then
      Ok(h.(chunk := h.chunk.(oldLines := h.chunk.oldLines + [After(line, " ")],
                              newLines := h.chunk.newLines + [After(line, " ")]), active := true))
    else Err(InvalidArgument)
  }

  function UpdateBody(ls: seq<string>, h: Hunks): Result<(seq<Chunk>, seq<string>), ErrorCode> {
    if ls == [] || (IsDirective(ls[0]) && ls[0] != EOF) then
      (if h.Flushed() == [] then Err(InvalidArgument) else Ok((h.Flushed(), ls)))
    else
      var next :- HunkLine(ls[0], h);
      UpdateBody(ls[1..], next)
  }

  function MoveLine(ls: seq<string>): Option<string> {
    if ls != [] && MOVE <= Trim(ls[0]) then Some(After(Trim(ls[0]), MOVE)) else None
  }

  // One section, and the lines after it.
  function OneSection(header: string, rest: seq<string>): (r: Result<(Section, seq<string>), ErrorCode>) {
    if IsRouting(header) then Err(UnsupportedOperation)
    else if ADD <= header then
      var body :- AddBody(rest);
      Ok((Add(After(header, ADD), body.0), body.1))
    else if DELETE <= header then Ok((Delete(After(header, DELETE)), rest))
    else if UPDATE <= header then
      var move := MoveLine(rest);
      var body :- UpdateBody(if move.Some? then rest[1..] else rest, Hunks(EMPTY, false, []));
      Ok((Update(After(header, UPDATE), move, body.0), body.1))
    else Err(InvalidArgument)
  }

  lemma {:induction false} AddBodyShrinks(ls: seq<string>)
    ensures AddBody(ls).Ok? ==> |AddBody(ls).value.1| <= |ls|
  {
    if ls != [] {
      AddBodyShrinks(ls[1..]);
    }
  }

  lemma {:induction false} UpdateBodyShrinks(ls: seq<string>, h: Hunks)
    ensures UpdateBody(ls, h).Ok? ==> |UpdateBody(ls, h).value.1| <= |ls|
    decreases |ls|
  {
    if ls != [] && HunkLine(ls[0], h).Ok? {
      UpdateBodyShrinks(ls[1..], HunkLine(ls[0], h).value);
    }
  }

  lemma OneSectionShrinks(header: string, rest: seq<string>)
    ensures OneSection(header, rest).Ok? ==> |OneSection(header, rest).value.1| <= |rest|
  {
    AddBodyShrinks(rest);
    var move := MoveLine(rest);
    UpdateBodyShrinks(if move.Some? then rest[1..] else rest, Hunks(EMPTY, false, []));
  }

  // The sections between the first and the last line.
  function Sections(ls: seq<string>): Result<seq<Section>, ErrorCode>
    decreases |ls|
  {
    if ls == [] then Ok([])
    else
      OneSectionShrinks(Trim(ls[0]), ls[1..]);
      var first :- OneSection(Trim(ls[0]), ls[1..]);
      var rest :- Sections(first.1);
      Ok([first.0] + rest)
  }

  function Parse(text: string): Result<seq<Section>, ErrorCode> {
    ParseLines(PatchLines(text))
  }

  function ParseLines(lines: seq<string>): Result<seq<Section>, ErrorCode> {
    if lines == [] || Trim(lines[0]) != BEGIN || Trim(lines[|lines| - 1]) != END || |lines| < 2 then
      Err(InvalidArgument)
    else Sections(lines[1..|lines| - 1])
  }

  lemma OneLineIsNoPatch(lines: seq<string>)
    requires |lines| == 1
    ensures Trim(lines[0]) != BEGIN || Trim(lines[|lines| - 1]) != END
  {
    assert BEGIN[4] == 'B' && END[4] == 'E';
  }

  // The lines from `i` up to the last one.
  function From(lines: seq<string>, i: nat): seq<string>
    requires i <= |lines| - 1
  {
    lines[i..|lines| - 1]
  }

  lemma FromNext(lines: seq<string>, i: nat)
    requires i < |lines| - 1
    ensures From(lines, i) != [] && From(lines, i)[0] == lines[i] && From(lines, i)[1..] == From(lines, i + 1)
  {
  }

  /** `parse_codex`: an index advances over the lines, at least one for every turn of each loop. */
  method ParseCodex(text: string) returns (r: Result<seq<Section>, ErrorCode>)
    ensures r == Parse(text)
  {
    var lines := PatchLines(text);
    if lines == [] || Trim(lines[0]) != BEGIN || Trim(lines[|lines| - 1]) != END {
      return Err(InvalidArgument);
    }
    if |lines| == 1 {
      OneLineIsNoPatch(lines);
    }
    r := ParseSections(lines);
  }

  method ParseSections(lines: seq<string>) returns (r: Result<seq<Section>, ErrorCode>)
    requires |lines| >= 2
    ensures r == Sections(From(lines, 1))
  {
    var sections: seq<Section> := [];
    var i := 1;
    ghost var all := Sections(From(lines, 1));
    assert all.Ok? ==> [] + all.value == all.value;
    while i < |lines| - 1
      invariant 1 <= i <= |lines| - 1
      invariant all == Prepended(sections, Sections(From(lines, i)))
    {
      FromNext(lines, i);
      var section, next := ParseSection(lines, i);
      if section.Err? {
        return Err(section.error);
      }
      assert Sections(From(lines, i)) == Prepended([section.value], Sections(From(lines, next)));
      PrependedMore(sections, section.value, Sections(From(lines, next)));
      sections := sections + [section.value];
      i := next;
    }
    assert sections + [] == sections;
    return Ok(sections);
  }

  // One turn of the section loop.
  method ParseSection(lines: seq<string>, start: nat) returns (section: Result<Section, ErrorCode>, i: nat)
    requires start < |lines| - 1
    ensures start < i <= |lines| - 1
    ensures var one := OneSection(Trim(lines[start]), From(lines, start + 1));
            if section.Err? then one == Err(section.error) else one == Ok((section.value, From(lines, i)))
  {
    var header := Trim(lines[start]);
    i := start + 1;
    if IsRouting(header) {
      return Err(UnsupportedOperation), i;
    }
    if ADD <= header {
      var content;
      content, i := ParseAdd(lines, i);
      return if content.Err? then Err(content.error) else Ok(Add(After(header, ADD), content.value)), i;
    }
    if DELETE <= header {
      return Ok(Delete(After(header, DELETE))), i;
    }
    if UPDATE <= header {
      var moveTo, chunks;
      moveTo, i := ParseMove(lines, i);
      chunks, i := ParseUpdate(lines, i);
      return if chunks.Err? then Err(chunks.error) else Ok(Update(After(header, UPDATE), moveTo, chunks.value)), i;
    }
    return Err(InvalidArgument), i;
  }

  // The line that may follow the header of an update.
  method ParseMove(lines: seq<string>, start: nat) returns (moveTo: Option<string>, i: nat)
    requires start <= |lines| - 1
    ensures start <= i <= |lines| - 1 && moveTo == MoveLine(From(lines, start))
    ensures From(lines, i) == if moveTo.Some? then From(lines, start)[1..] else From(lines, start)
  {
    moveTo, i := None, start;
    if i < |lines| - 1 {
      FromNext(lines, i);
      if MOVE <= Trim(lines[i]) {
        moveTo := Some(After(Trim(lines[i]), MOVE));
        i := i + 1;
      }
    }
  }

  ghost function Prepended(a: seq<Section>, rest: Result<seq<Section>, ErrorCode>): Result<seq<Section>, ErrorCode> {
    if rest.Err? then rest else Ok(a + rest.value)
  }

  lemma PrependedMore(a: seq<Section>, s: Section, rest: Result<seq<Section>, ErrorCode>)
    ensures Prepended(a, Prepended([s], rest)) == Prepended(a + [s], rest)
  {
    if rest.Ok? {
      assert a + ([s] + rest.value) == a + [s] + rest.value;
    }
  }

  // The body of an added file is the text so far and what the rest adds to it.
  ghost predicate AddsUp(
    body: Result<(string, seq<string>), ErrorCode>, text: string, rest: Result<(string, seq<string>), ErrorCode>)
  {
    if rest.Err? then body == rest else body == Ok((text + rest.value.0, rest.value.1))
  }

  lemma AddStep(body: Result<(string, seq<string>), ErrorCode>, text: string, ls: seq<string>)
    requires ls != [] && !IsDirective(ls[0]) && "+" <= ls[0] && AddsUp(body, text, AddBody(ls))
    ensures AddsUp(body, text + After(ls[0], "+") + "\n", AddBody(ls[1..]))
  {
    var line, rest := After(ls[0], "+"), AddBody(ls[1..]);
    if rest.Ok? {
      assert text + (line + "\n" + rest.value.0) == text + line + "\n" + rest.value.0;
    }
  }

  method ParseAdd(lines: seq<string>, start: nat) returns (content: Result<string, ErrorCode>, i: nat)
    requires start <= |lines| - 1
    ensures start <= i <= |lines| - 1
    ensures var body := AddBody(From(lines, start));
            if content.Err? then body == Err(content.error) else body == Ok((content.value, From(lines, i)))
  {
    i := start;
    var text := "";
    ghost var body := AddBody(From(lines, start));
    assert body.Ok? ==> text + body.value.0 == body.value.0;
    assert AddsUp(body, text, body);
    while i < |lines| - 1 && !IsDirective(lines[i])
      invariant start <= i <= |lines| - 1
      invariant AddsUp(body, text, AddBody(From(lines, i)))
    {
      FromNext(lines, i);
      if !("+" <= lines[i]) {
        return Err(InvalidArgument), i;
      }
      AddStep(body, text, From(lines, i));
      text := text + After(lines[i], "+") + "\n";
      i := i + 1;
    }
    if i < |lines| - 1 {
      FromNext(lines, i);
    }
    assert AddBody(From(lines, i)) == Ok(("", From(lines, i))) && text + "" == text;
    return Ok(text), i;
  }

  method ParseUpdate(lines: seq<string>, start: nat) returns (chunks: Result<seq<Chunk>, ErrorCode>, i: nat)
    requires start <= |lines| - 1
    ensures start <= i <= |lines| - 1
    ensures var body := UpdateBody(From(lines, start), Hunks(EMPTY, false, []));
            if chunks.Err? then body == Err(chunks.error) else body == Ok((chunks.value, From(lines, i)))
  {
    i := start;
    var h := Hunks(EMPTY, false, []);
    while i < |lines| - 1
      invariant start <= i <= |lines| - 1
      invariant UpdateBody(From(lines, start), Hunks(EMPTY, false, [])) == UpdateBody(From(lines, i), h)
    {
      var line := lines[i];
      FromNext(lines, i);
      if IsDirective(line) && line != EOF {
        break;
      }
      var next := ReadHunkLine(line, h);
      if next.Err? {
        return Err(next.error), i;
      }
      h := next.value;
      i := i + 1;
    }
    var all := h.Flushed();
    if all == [] {
      return Err(InvalidArgument), i;
    }
    return Ok(all), i;
  }

  method ReadHunkLine(line: string, h: Hunks) returns (r: Result<Hunks, ErrorCode>)
    ensures r == HunkLine(line, h)
  {
    var chunk, active, done := h.chunk, h.active, h.done;
    if IsAnchor(line) {
      if active && HasLines(chunk) {
        done := done + [chunk];
        chunk := EMPTY;
      }
      chunk := chunk.(anchor := if "@@ " <= line then Some(After(line, "@@ ")) else None);
      active := true;
    } else if line == EOF {
      chunk := chunk.(eof := true);
    } else if "+" <= line {
      chunk := chunk.(newLines := chunk.newLines + [After(line, "+")]);
      active := true;
    } else if "-" <= line {
      chunk := chunk.(oldLines := chunk.oldLines + [After(line, "-")]);
      active := true;
    } else if " " <= line {
      var both := After(line, " ");
      chunk := chunk.(oldLines := chunk.oldLines + [both], newLines := chunk.newLines + [both]);
      active := true;
    } else {
      return Err(InvalidArgument);
    }
    return Ok(Hunks(chunk, active, done));
  }

  // Hunks that ask for something.
  ghost predicate Substantial(chunks: seq<Chunk>) {
    forall c :: c in chunks ==> HasLines(c)
  }

  lemma {:induction false} UpdateBodySubstantial(ls: seq<string>, h: Hunks)
    requires Substantial(h.done)
    ensures match UpdateBody(ls, h)
            case Ok((chunks, _)) => chunks != [] && Substantial(chunks)
            case Err(e) => e == InvalidArgument
    decreases |ls|
  {
    if ls != [] && !(IsDirective(ls[0]) && ls[0] != EOF) && HunkLine(ls[0], h).Ok? {
      UpdateBodySubstantial(ls[1..], HunkLine(ls[0], h).value);
    }
  }

  lemma {:induction false} AddBodyErrors(ls: seq<string>)
    ensures AddBody(ls).Err? ==> AddBody(ls).error == InvalidArgument
  {
    if ls != [] {
      AddBodyErrors(ls[1..]);
    }
  }

  ghost predicate SubstantialSections(sections: seq<Section>) {
    forall s :: s in sections && s.Update? ==> s.chunks != [] && Substantial(s.chunks)
  }

  lemma OneSectionSubstantial(header: string, rest: seq<string>)
    ensures match OneSection(header, rest)
            case Ok((s, _)) => s.Update? ==> s.chunks != [] && Substantial(s.chunks)
            case Err(e) => IsRefusal(e)
  {
    AddBodyErrors(rest);
    UpdateBodySubstantial(if MoveLine(rest).Some? then rest[1..] else rest, Hunks(EMPTY, false, []));
  }

  // How a text that is no patch is refused.
  predicate IsRefusal(e: ErrorCode) {
    e == InvalidArgument || e == UnsupportedOperation
  }

  lemma {:induction false} SectionsSubstantial(ls: seq<string>)
    ensures match Sections(ls)
            case Ok(sections) => SubstantialSections(sections)
            case Err(e) => IsRefusal(e)
    decreases |ls|
  {
    if ls != [] {
      OneSectionShrinks(Trim(ls[0]), ls[1..]);
      OneSectionSubstantial(Trim(ls[0]), ls[1..]);
      if OneSection(Trim(ls[0]), ls[1..]).Ok? {
        SectionsSubstantial(OneSection(Trim(ls[0]), ls[1..]).value.1);
      }
    }
  }

  /** A parsed patch asks for something: no update is without hunks, and no hunk without lines. A
      text that is none is refused as such, or for a routing directive. */
  lemma ParsedUpdatesHaveHunks(text: string)
    ensures match Parse(text)
            case Ok(sections) => SubstantialSections(sections)
            case Err(e) => IsRefusal(e)
  {
    LinesSubstantial(PatchLines(text));
  }

  lemma LinesSubstantial(lines: seq<string>)
    ensures match ParseLines(lines)
            case Ok(sections) => SubstantialSections(sections)
            case Err(e) => IsRefusal(e)
  {
    if |lines| >= 2 {
      SectionsSubstantial(lines[1..|lines| - 1]);
    }
  }

  lemma PatchLinesHaveNoLf(text: string)
    ensures LineList(PatchLines(text))
  {
  }

  ghost predicate OneLiners(chunks: seq<Chunk>) {
    forall i :: 0 <= i < |chunks| ==> LineList(chunks[i].oldLines) && LineList(chunks[i].newLines)
  }

  ghost predicate HunksOneLiners(h: Hunks) {
    LineList(h.chunk.oldLines) && LineList(h.chunk.newLines) && OneLiners(h.done)
  }

  lemma HunkLineOneLiners(line: string, h: Hunks)
    requires '\n' !in line && HunksOneLiners(h) && HunkLine(line, h).Ok?
    ensures HunksOneLiners(HunkLine(line, h).value)
  {
  }

  lemma {:induction false} UpdateBodyOneLiners(ls: seq<string>, h: Hunks)
    requires LineList(ls) && HunksOneLiners(h) && UpdateBody(ls, h).Ok?
    ensures OneLiners(UpdateBody(ls, h).value.0) && LineList(UpdateBody(ls, h).value.1)
    decreases |ls|
  {
    if ls != [] && !(IsDirective(ls[0]) && ls[0] != EOF) {
      HunkLineOneLiners(ls[0], h);
      UpdateBodyOneLiners(ls[1..], HunkLine(ls[0], h).value);
    }
  }

  lemma {:induction false} AddBodyRest(ls: seq<string>)
    requires LineList(ls) && AddBody(ls).Ok?
    ensures LineList(AddBody(ls).value.1)
  {
    if ls != [] && !IsDirective(ls[0]) {
      AddBodyRest(ls[1..]);
    }
  }

  lemma OneSectionOneLiners(header: string, rest: seq<string>)
    requires LineList(rest) && OneSection(header, rest).Ok?
    ensures var (s, more) := OneSection(header, rest).value; LineList(more) && (s.Update? ==> OneLiners(s.chunks))
  {
    if !(ADD <= header) && !(DELETE <= header) {
      UpdateBodyOneLiners(if MoveLine(rest).Some? then rest[1..] else rest, Hunks(EMPTY, false, []));
    } else if ADD <= header {
      AddBodyRest(rest);
    }
  }

  lemma {:induction false} SectionsOneLiners(ls: seq<string>)
    requires LineList(ls) && Sections(ls).Ok?
    ensures forall s :: s in Sections(ls).value && s.Update? ==> OneLiners(s.chunks)
    decreases |ls|
  {
    if ls != [] {
      OneSectionShrinks(Trim(ls[0]), ls[1..]);
      OneSectionOneLiners(Trim(ls[0]), ls[1..]);
      var (first, more) := OneSection(Trim(ls[0]), ls[1..]).value;
      SectionsOneLiners(more);
      assert Sections(ls).value == [first] + Sections(more).value;
    }
  }

  /** The lines of every parsed hunk are single lines. */
  lemma ParsedHunksHaveLines(text: string)
    requires Parse(text).Ok?
    ensures forall s :: s in Parse(text).value && s.Update? ==> OneLiners(s.chunks)
  {
    PatchLinesHaveNoLf(text);
    var lines := PatchLines(text);
    SectionsOneLiners(lines[1..|lines| - 1]);
  }

  /** A file that a parsed hunk list updates is read back as rewritten, but for one blank line at
      its end. */
  lemma ParsedUpdateReadsBack(patch: string, section: Section, text: string, work: nat)
    requires Parse(patch).Ok? && section in Parse(patch).value && section.Update?
    requires Applied(text, section.chunks, work).Ok?
    ensures var result := Applied(text, section.chunks, work).value.0;
            var lines := Rewritten(LinesOf(text), RepsOf(text, section.chunks, work));
            && EndsInLf(result) && LinesOf(result) == WithoutLast(lines)
            && (LinesOf(result) == lines <==> lines == [] || lines[|lines| - 1] != "")
  {
    ParsedHunksHaveLines(patch);
    assert OneLiners(section.chunks);
    FinishedEndsInLf(Rewritten(LinesOf(text), RepsOf(text, section.chunks, work)));
    AppliedReadsBack(text, section.chunks, work);
  }
}
