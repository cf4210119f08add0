/** The canonical text of a section list, and the proof that `parse_codex` reads it back. */
module CodexPrinter {
  import opened Codex
  import opened CodexParser
  import opened Errors
  import opened Text
  import opened Wrappers

  // `mark` before every line.
  function Marked(mark: string, lines: seq<string>): seq<string> {
    if lines == [] then [] else [mark + lines[0]] + Marked(mark, lines[1..])
  }

  function PrintChunk(c: Chunk): seq<string> {
    [if c.anchor.Some? then "@@ " + c.anchor.value else "@@"]
    + (Marked("-", c.oldLines) + (Marked("+", c.newLines) + if c.eof then [EOF] else []))
  }

  function PrintChunks(cs: seq<Chunk>): seq<string> {
    if cs == [] then [] else PrintChunk(cs[0]) + PrintChunks(cs[1..])
  }

  function PrintSection(s: Section): seq<string> {
    match s
    case Add(path, content) => [ADD + path] + Marked("+", LinesOf(content))
    case Delete(path) => [DELETE + path]
    case Update(path, moveTo, chunks) =>
      [UPDATE + path] + ((if moveTo.Some? then [MOVE + moveTo.value] else []) + PrintChunks(chunks))
  }

  function PrintSections(ss: seq<Section>): seq<string> {
    if ss == [] then [] else PrintSection(ss[0]) + PrintSections(ss[1..])
  }

  function Print(ss: seq<Section>): string {
    Join([BEGIN] + PrintSections(ss) + [END])
  }

  // A path of one line that does not end in white space.
  predicate PathOk(p: string) {
    p != "" && '\n' !in p && !IsWhite(p[|p| - 1])
  }

  // One line; a CR at its end would be taken for part of the line ending.
  predicate LineOk(l: string) {
    '\n' !in l && (l == "" || l[|l| - 1] != '\r')
  }

  predicate LinesOk(ls: seq<string>) {
    forall i :: 0 <= i < |ls| ==> LineOk(ls[i])
  }

  predicate ChunkOk(c: Chunk) {
    HasLines(c) && LinesOk(c.oldLines) && LinesOk(c.newLines) && (c.anchor.Some? ==> LineOk(c.anchor.value))
  }

  predicate SectionOk(s: Section) {
    match s
    case Add(path, content) => PathOk(path) && content == Unlines(LinesOf(content)) && LinesOk(LinesOf(content))
    case Delete(path) => PathOk(path)
    case Update(path, moveTo, chunks) =>
      && PathOk(path) && (moveTo.Some? ==> PathOk(moveTo.value))
      && chunks != [] && forall i :: 0 <= i < |chunks| ==> ChunkOk(chunks[i])
  }

  predicate SectionsOk(ss: seq<Section>) {
    forall i :: 0 <= i < |ss| ==> SectionOk(ss[i])
  }

  // What follows a section: nothing, or the header of the next one.
  predicate AtHeader(tail: seq<string>) {
    tail == [] || (IsDirective(tail[0]) && tail[0] != EOF && !(MOVE <= Trim(tail[0])))
  }

  lemma {:induction false} AddReadsBack(lines: seq<string>, tail: seq<string>)
    requires AtHeader(tail)
    ensures AddBody(Marked("+", lines) + tail) == Ok((Unlines(lines), tail))
  {
    var ls := Marked("+", lines) + tail;
    if lines == [] {
      assert ls == tail;
    } else {
      var line := "+" + lines[0];
      assert ls[0] == line && ls[1..] == Marked("+", lines[1..]) + tail;
      assert line[0] == '+' && After(line, "+") == lines[0];
      AddReadsBack(lines[1..], tail);
    }
  }

  // A hunk line with a mark before it is read as what it was printed for.
  lemma MarkedLine(mark: char, l: string)
    requires mark == '-' || mark == '+'
    ensures var line := [mark] + l;
            && !IsDirective(line) && line != EOF && !IsAnchor(line) && After(line, [mark]) == l
            && (mark == '-' ==> !("+" <= line))
  {
    var line := [mark] + l;
    assert line[0] == mark && "@@"[0] == '@' && "@@ "[0] == '@' && EOF[0] == '*' && "*** "[0] == '*' && "+"[0] == '+';
  }

  lemma {:induction false} OldLinesReadBack(lines: seq<string>, tail: seq<string>, h: Hunks)
    requires h.active
    ensures UpdateBody(Marked("-", lines) + tail, h) ==
            UpdateBody(tail, h.(chunk := h.chunk.(oldLines := h.chunk.oldLines + lines)))
  {
    var ls := Marked("-", lines) + tail;
    if lines == [] {
      assert ls == tail && h.chunk.oldLines + lines == h.chunk.oldLines;
    } else {
      MarkedLine('-', lines[0]);
      assert ls[0] == "-" + lines[0] && ls[1..] == Marked("-", lines[1..]) + tail;
      var next := h.(chunk := h.chunk.(oldLines := h.chunk.oldLines + [lines[0]]));
      assert HunkLine(ls[0], h) == Ok(next);
      OldLinesReadBack(lines[1..], tail, next);
      assert h.chunk.oldLines + [lines[0]] + lines[1..] == h.chunk.oldLines + lines;
    }
  }

  lemma {:induction false} NewLinesReadBack(lines: seq<string>, tail: seq<string>, h: Hunks)
    requires h.active
    ensures UpdateBody(Marked("+", lines) + tail, h) ==
            UpdateBody(tail, h.(chunk := h.chunk.(newLines := h.chunk.newLines + lines)))
  {
    var ls := Marked("+", lines) + tail;
    if lines == [] {
      assert ls == tail && h.chunk.newLines + lines == h.chunk.newLines;
    } else {
      MarkedLine('+', lines[0]);
      assert ls[0] == "+" + lines[0] && ls[1..] == Marked("+", lines[1..]) + tail;
      var next := h.(chunk := h.chunk.(newLines := h.chunk.newLines + [lines[0]]));
      assert HunkLine(ls[0], h) == Ok(next);
      NewLinesReadBack(lines[1..], tail, next);
      assert h.chunk.newLines + [lines[0]] + lines[1..] == h.chunk.newLines + lines;
    }
  }

  lemma AnchorReadsBack(c: Chunk, tail: seq<string>, h: Hunks)
    requires h.chunk == EMPTY || h.Pending()
    ensures var line := if c.anchor.Some? then "@@ " + c.anchor.value else "@@";
            UpdateBody([line] + tail, h) == UpdateBody(tail, Hunks(EMPTY.(anchor := c.anchor), true, h.Flushed()))
  {
    var line := if c.anchor.Some? then "@@ " + c.anchor.value else "@@";
    assert ([line] + tail)[1..] == tail;
    assert line[0] == '@' && "*** "[0] == '*' && EOF[0] == '*';
    if c.anchor.Some? {
      assert "@@ " <= line && After(line, "@@ ") == c.anchor.value;
    } else {
      assert |"@@ "| == 3 && |line| == 2;
    }
  }

  lemma EofReadsBack(tail: seq<string>, h: Hunks)
    ensures UpdateBody([EOF] + tail, h) == UpdateBody(tail, h.(chunk := h.chunk.(eof := true)))
  {
    assert ([EOF] + tail)[1..] == tail;
    assert EOF[0] == '*' && "@@"[0] == '@' && "@@ "[0] == '@';
  }

  lemma ChunkReadsBack(c: Chunk, tail: seq<string>, h: Hunks)
    requires h.chunk == EMPTY || h.Pending()
    ensures UpdateBody(PrintChunk(c) + tail, h) == UpdateBody(tail, Hunks(c, true, h.Flushed()))
  {
    var line := if c.anchor.Some? then "@@ " + c.anchor.value else "@@";
    var end := if c.eof then [EOF] else [];
    var added := Marked("+", c.newLines) + (end + tail);
    var body := Marked("-", c.oldLines) + added;
    assert PrintChunk(c) + tail == [line] + body;
    AnchorReadsBack(c, body, h);
    var h1 := Hunks(EMPTY.(anchor := c.anchor), true, h.Flushed());
    OldLinesReadBack(c.oldLines, added, h1);
    assert [] + c.oldLines == c.oldLines && [] + c.newLines == c.newLines;
    var h2 := h1.(chunk := h1.chunk.(oldLines := c.oldLines));
    NewLinesReadBack(c.newLines, end + tail, h2);
    var h3 := h2.(chunk := h2.chunk.(newLines := c.newLines));
    if c.eof {
      EofReadsBack(tail, h3);
    } else {
      assert end + tail == tail;
    }
  }

  lemma FlushedMore(done: seq<Chunk>, cs: seq<Chunk>)
    requires cs != []
    ensures done + [cs[0]] + cs[1..] == done + cs
  {
  }

  lemma {:induction false} ChunksReadBack(cs: seq<Chunk>, tail: seq<string>, h: Hunks)
    requires AtHeader(tail) && (forall i :: 0 <= i < |cs| ==> HasLines(cs[i]))
    requires h.chunk == EMPTY || h.Pending()
    ensures var all := h.Flushed() + cs;
            UpdateBody(PrintChunks(cs) + tail, h) == if all == [] then Err(InvalidArgument) else Ok((all, tail))
  {
    if cs == [] {
      assert PrintChunks(cs) + tail == tail && h.Flushed() + cs == h.Flushed();
    } else {
      var first, more := cs[0], cs[1..];
      Assoc(PrintChunk(first), PrintChunks(more), tail);
      ChunkReadsBack(first, PrintChunks(more) + tail, h);
      ChunksReadBack(more, tail, Hunks(first, true, h.Flushed()));
      FlushedMore(h.Flushed(), cs);
    }
  }

  lemma HeaderTrims(prefix: string, path: string)
    requires prefix != "" && !IsWhite(prefix[0]) && PathOk(path)
    ensures Trim(prefix + path) == prefix + path && LineOk(prefix + path)
    ensures prefix <= prefix + path && After(prefix + path, prefix) == path
    requires '\n' !in prefix
  {
    var s := prefix + path;
    assert s[0] == prefix[0] && s[|s| - 1] == path[|path| - 1];
    TrimNothing(s);
  }

  // The directives are told apart by their fifth character.
  lemma HeaderKinds(path: string)
    ensures !IsRouting(ADD + path) && !IsRouting(DELETE + path) && !IsRouting(UPDATE + path)
    ensures !(ADD <= DELETE + path) && !(ADD <= UPDATE + path) && !(DELETE <= UPDATE + path)
    ensures IsDirective(ADD + path) && IsDirective(DELETE + path) && IsDirective(UPDATE + path)
    ensures ADD + path != EOF && DELETE + path != EOF && UPDATE + path != EOF
    ensures !(MOVE <= ADD + path) && !(MOVE <= DELETE + path) && !(MOVE <= UPDATE + path)
  {
    var a, d, u := ADD + path, DELETE + path, UPDATE + path;
    assert a[4] == 'A' && d[4] == 'D' && u[4] == 'U';
    assert "*** Environment ID:"[4] == 'E' && "*** Workdir:"[4] == 'W' && "*** Workdir "[4] == 'W';
    assert MOVE[4] == 'M' && EOF[4] == 'E' && ADD[4] == 'A' && DELETE[4] == 'D';
    assert a[..4] == d[..4] == u[..4] == "*** ";
  }

  function Header(s: Section): string {
    match s
    case Add(path, content) => ADD + path
    case Delete(path) => DELETE + path
    case Update(path, moveTo, chunks) => UPDATE + path
  }

  lemma HeaderOk(s: Section)
    requires PathOk(s.path)
    ensures Trim(Header(s)) == Header(s) && LineOk(Header(s))
    ensures IsDirective(Header(s)) && Header(s) != EOF && !(MOVE <= Header(s))
  {
    HeaderKinds(s.path);
    match s
    case Add(path, content) => HeaderTrims(ADD, path);
    case Delete(path) => HeaderTrims(DELETE, path);
    case Update(path, moveTo, chunks) => HeaderTrims(UPDATE, path);
  }

  lemma PrintedHeader(s: Section, rest: seq<string>)
    ensures PrintSection(s) + rest != [] && (PrintSection(s) + rest)[0] == PrintSection(s)[0] == Header(s)
    ensures (PrintSection(s) + rest)[1..] == PrintSection(s)[1..] + rest
  {
    PrintedFirst(s);
    FirstOfConcat(PrintSection(s), rest);
  }

  lemma PrintedFirst(s: Section)
    ensures PrintSection(s) != [] && PrintSection(s)[0] == Header(s)
  {
  }

  lemma FirstOfConcat(a: seq<string>, b: seq<string>)
    requires a != []
    ensures (a + b)[0] == a[0] && (a + b)[1..] == a[1..] + b
  {
  }

  lemma FirstLineIsHeader(s: Section, rest: seq<string>)
    requires SectionOk(s)
    ensures AtHeader(PrintSection(s) + rest)
  {
    PrintedHeader(s, rest);
    HeaderOk(s);
  }

  lemma PrintsAtHeader(ss: seq<Section>)
    requires SectionsOk(ss)
    ensures AtHeader(PrintSections(ss))
  {
    if ss != [] {
      FirstLineIsHeader(ss[0], PrintSections(ss[1..]));
    }
  }

  // The first line of a printed hunk list is an anchor, so it is not taken for a move.
  lemma NoMoveLine(chunks: seq<Chunk>, tail: seq<string>)
    requires chunks != []
    ensures MoveLine(PrintChunks(chunks) + tail) == None
  {
    var ls := PrintChunks(chunks) + tail;
    assert ls[0][0] == '@' && !IsWhite('@');
    TrimKeepsFirst(ls[0]);
    assert MOVE[0] == '*';
  }

  lemma {:induction false} TrimEndKeepsFirst(s: string)
    requires s != "" && !IsWhite(s[0])
    ensures TrimEnd(s) != "" && TrimEnd(s)[0] == s[0]
  {
    if IsWhite(s[|s| - 1]) {
      TrimEndKeepsFirst(s[..|s| - 1]);
    }
  }

  lemma TrimKeepsFirst(s: string)
    requires s != "" && !IsWhite(s[0])
    ensures Trim(s) != "" && Trim(s)[0] == s[0]
  {
    TrimEndKeepsFirst(s);
  }

  lemma UpdateRest(s: Section, tail: seq<string>)
    requires s.Update?
    ensures PrintSection(s)[1..] + tail ==
            if s.moveTo.Some? then [MOVE + s.moveTo.value] + (PrintChunks(s.chunks) + tail)
            else PrintChunks(s.chunks) + tail
  {
    var printed := PrintChunks(s.chunks);
    if s.moveTo.None? {
      assert [] + printed == printed;
    }
  }

  lemma UpdateReadsBack(s: Section, tail: seq<string>)
    requires s.Update? && SectionOk(s) && AtHeader(tail)
    ensures OneSection(Header(s), PrintSection(s)[1..] + tail) == Ok((s, tail))
  {
    HeaderKinds(s.path);
    UpdateRest(s, tail);
    var body := PrintChunks(s.chunks) + tail;
    if s.moveTo.Some? {
      MoveReadsBack(s.moveTo.value, body);
    } else {
      NoMoveLine(s.chunks, tail);
    }
    ChunksReadBack(s.chunks, tail, Hunks(EMPTY, false, []));
    assert [] + s.chunks == s.chunks;
  }

  lemma MoveReadsBack(to: string, body: seq<string>)
    requires PathOk(to)
    ensures MoveLine([MOVE + to] + body) == Some(to) && ([MOVE + to] + body)[1..] == body
  {
    HeaderTrims(MOVE, to);
  }

  lemma AddSectionReadsBack(s: Section, tail: seq<string>)
    requires s.Add? && SectionOk(s) && AtHeader(tail)
    ensures OneSection(Header(s), PrintSection(s)[1..] + tail) == Ok((s, tail))
  {
    HeaderKinds(s.path);
    assert PrintSection(s)[1..] == Marked("+", LinesOf(s.content));
    AddReadsBack(LinesOf(s.content), tail);
  }

  lemma SectionReadsBack(s: Section, tail: seq<string>)
    requires SectionOk(s) && AtHeader(tail)
    ensures var ls := PrintSection(s) + tail;
            ls != [] && OneSection(Trim(ls[0]), ls[1..]) == Ok((s, tail))
  {
    PrintedHeader(s, tail);
    HeaderOk(s);
    if s.Add? {
      AddSectionReadsBack(s, tail);
    } else if s.Update? {
      UpdateReadsBack(s, tail);
    } else {
      HeaderKinds(s.path);
      assert PrintSection(s)[1..] + tail == tail;
    }
  }

  lemma SectionsStep(ls: seq<string>, s: Section, tail: seq<string>, rest: seq<Section>)
    requires ls != [] && OneSection(Trim(ls[0]), ls[1..]) == Ok((s, tail)) && Sections(tail) == Ok(rest)
    ensures Sections(ls) == Ok([s] + rest)
  {
  }

  lemma {:induction false} SectionsReadBack(ss: seq<Section>)
    requires SectionsOk(ss)
    ensures Sections(PrintSections(ss)) == Ok(ss)
  {
    if ss != [] {
      var first, rest := ss[0], ss[1..];
      var tail := PrintSections(rest);
      assert SectionOk(first) && SectionsOk(rest);
      PrintsAtHeader(rest);
      SectionReadsBack(first, tail);
      SectionsReadBack(rest);
      SectionsStep(PrintSection(first) + tail, first, tail, rest);
      assert [first] + rest == ss;
    }
  }

  lemma {:induction false} MarkedOk(mark: string, lines: seq<string>)
    requires LinesOk(lines) && |mark| == 1 && LineOk(mark)
    ensures LinesOk(Marked(mark, lines))
  {
    if lines != [] {
      MarkedOk(mark, lines[1..]);
      assert LineOk(lines[0]);
      var l := mark + lines[0];
      assert l[|l| - 1] == if lines[0] == "" then mark[0] else lines[0][|lines[0]| - 1];
    }
  }

  lemma ChunkLinesOk(c: Chunk)
    requires ChunkOk(c)
    ensures LinesOk(PrintChunk(c))
  {
    MarkedOk("-", c.oldLines);
    MarkedOk("+", c.newLines);
    if c.anchor.Some? {
      var l := "@@ " + c.anchor.value;
      assert l[|l| - 1] == if c.anchor.value == "" then ' ' else c.anchor.value[|c.anchor.value| - 1];
    }
  }

  lemma {:induction false} ChunksLinesOk(cs: seq<Chunk>)
    requires forall i :: 0 <= i < |cs| ==> ChunkOk(cs[i])
    ensures LinesOk(PrintChunks(cs))
  {
    if cs != [] {
      ChunkLinesOk(cs[0]);
      ChunksLinesOk(cs[1..]);
    }
  }

  lemma SectionLinesOk(s: Section)
    requires SectionOk(s)
    ensures LinesOk(PrintSection(s))
  {
    HeaderOk(s);
    if s.Add? {
      MarkedOk("+", LinesOf(s.content));
    } else if s.Update? {
      ChunksLinesOk(s.chunks);
      if s.moveTo.Some? {
        HeaderTrims(MOVE, s.moveTo.value);
        assert LinesOk([MOVE + s.moveTo.value] + PrintChunks(s.chunks));
      }
    }
  }

  lemma {:induction false} SectionsLinesOk(ss: seq<Section>)
    requires SectionsOk(ss)
    ensures LinesOk(PrintSections(ss))
  {
    if ss != [] {
      SectionLinesOk(ss[0]);
      SectionsLinesOk(ss[1..]);
    }
  }

  // Splitting a joined text that starts and ends in a visible character gives its lines back.
  lemma PatchLinesOfJoin(lines: seq<string>)
    requires lines != [] && LinesOk(lines)
    requires var text := Join(lines); text != "" && !IsWhite(text[0]) && !IsWhite(text[|text| - 1])
    ensures PatchLines(Join(lines)) == lines
  {
    var text := Join(lines);
    TrimNothing(text);
    SplitJoin(lines);
    var read := PatchLines(text);
    forall i | 0 <= i < |lines|
      ensures read[i] == lines[i]
    {
      assert LineOk(lines[i]);
    }
  }

  lemma {:induction false} JoinEnds(lines: seq<string>)
    requires |lines| >= 2 && lines[0] != "" && lines[|lines| - 1] != ""
    ensures var text := Join(lines);
            && text != "" && text[0] == lines[0][0]
            && text[|text| - 1] == lines[|lines| - 1][|lines[|lines| - 1]| - 1]
  {
    JoinLast(lines);
  }

  lemma {:induction false} JoinLast(lines: seq<string>)
    requires lines != [] && lines[|lines| - 1] != ""
    ensures var text := Join(lines);
            text != "" && text[|text| - 1] == lines[|lines| - 1][|lines[|lines| - 1]| - 1]
  {
    if |lines| > 1 {
      JoinLast(lines[1..]);
    }
  }

  lemma Framed(ls: seq<string>)
    requires LinesOk(ls)
    ensures LinesOk([BEGIN] + ls + [END])
    ensures var lines := [BEGIN] + ls + [END]; lines[1..|lines| - 1] == ls
  {
    assert LineOk(BEGIN) && LineOk(END);
  }

  /** Parse after print: every list of well-formed sections comes back as it was. */
  lemma PrintThenParse(ss: seq<Section>)
    requires SectionsOk(ss)
    ensures Parse(Print(ss)) == Ok(ss)
  {
    var lines := [BEGIN] + PrintSections(ss) + [END];
    SectionsLinesOk(ss);
    Framed(PrintSections(ss));
    assert lines[0] == BEGIN && lines[|lines| - 1] == END;
    JoinEnds(lines);
    PatchLinesOfJoin(lines);
    TrimNothing(BEGIN);
    TrimNothing(END);
    SectionsReadBack(ss);
  }
}
