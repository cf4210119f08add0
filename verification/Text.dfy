/** Text as sequences of Unicode scalar values: white space, trimming, splitting into lines and
    joining them again, and the byte length of the UTF-8 encoding. */
module Text {

  // The characters with the Unicode White_Space property.
  predicate IsWhite(c: char) {
    || '\U{9}' <= c <= '\U{D}' || c == ' ' || c == '\U{85}' || c == '\U{A0}' || c == '\U{1680}'
    || '\U{2000}' <= c <= '\U{200A}' || c == '\U{2028}' || c == '\U{2029}' || c == '\U{202F}'
    || c == '\U{205F}' || c == '\U{3000}'
  }

  function TrimEnd(s: string): (r: string)
    ensures r <= s && (r == "" || !IsWhite(r[|r| - 1]))
  {
    if s != "" && IsWhite(s[|s| - 1]) then TrimEnd(s[..|s| - 1]) else s
  }

  function TrimStart(s: string): (r: string)
    ensures |r| <= |s| && (r == "" || (r[|r| - 1] == s[|s| - 1] && !IsWhite(r[0])))
  {
    if s != "" && IsWhite(s[0]) then TrimStart(s[1..]) else s
  }

  function Trim(s: string): string {
    TrimStart(TrimEnd(s))
  }

  lemma {:induction false} TrimEndIgnoresTail(s: string)
    ensures TrimEnd(TrimEnd(s)) == TrimEnd(s)
  {
    var r := TrimEnd(s);
    assert r == "" || !IsWhite(r[|r| - 1]);
  }

  // A text that neither starts nor ends in white space is its own trimming.
  lemma TrimNothing(s: string)
    requires s == "" || (!IsWhite(s[0]) && !IsWhite(s[|s| - 1]))
    ensures TrimEnd(s) == s && Trim(s) == s
  {
  }

  function StripSuffixCr(s: string): string {
    if s != "" && s[|s| - 1] == '\r' then s[..|s| - 1] else s
  }

  // The pieces of `s` between LFs: one more than there are LFs.
  function Split(s: string): (lines: seq<string>)
    ensures |lines| > 0
    ensures forall i :: 0 <= i < |lines| ==> '\n' !in lines[i]
  {
    if s == "" then [""]
    else
      var rest := Split(s[1..]);
      if s[0] == '\n' then [""] + rest else [[s[0]] + rest[0]] + rest[1..]
  }

  // The lines have only characters of the text.
  lemma {:induction false} SplitChars(s: string)
    ensures forall i, c :: 0 <= i < |Split(s)| && c in Split(s)[i] ==> c in s
  {
    if s != "" {
      var rest := Split(s[1..]);
      SplitChars(s[1..]);
      forall i, c | 0 <= i < |Split(s)| && c in Split(s)[i]
        ensures c in s
      {
        if s[0] == '\n' {
          assert i > 0 && Split(s)[i] == rest[i - 1];
        } else if i > 0 {
          assert Split(s)[i] == rest[i];
        } else {
          assert Split(s)[0] == [s[0]] + rest[0];
        }
        assert c == s[0] || c in s[1..];
      }
    }
  }

  function Join(lines: seq<string>): string {
    if lines == [] then ""
    else if |lines| == 1 then lines[0]
    else lines[0] + "\n" + Join(lines[1..])
  }

  lemma {:induction false} SplitLine(line: string)
    requires '\n' !in line
    ensures Split(line) == [line]
  {
    if line != "" {
      SplitLine(line[1..]);
      assert [line[0]] + line[1..] == line;
    }
  }

  lemma {:induction false} SplitFirst(line: string, rest: string)
    requires '\n' !in line
    ensures Split(line + "\n" + rest) == [line] + Split(rest)
  {
    var s := line + "\n" + rest;
    if line == "" {
      assert s[0] == '\n' && s[1..] == rest;
    } else {
      assert s[1..] == line[1..] + "\n" + rest;
      SplitFirst(line[1..], rest);
      assert [line[0]] + line[1..] == line;
      assert ([line[1..]] + Split(rest))[1..] == Split(rest);
    }
  }

  ghost predicate LineList(lines: seq<string>) {
    forall i :: 0 <= i < |lines| ==> '\n' !in lines[i]
  }

  lemma {:induction false} SplitJoin(lines: seq<string>)
    requires lines != [] && LineList(lines)
    ensures Split(Join(lines)) == lines
    decreases |lines|
  {
    if |lines| == 1 {
      SplitLine(lines[0]);
      assert lines == [lines[0]];
    } else {
      SplitJoin(lines[1..]);
      SplitFirst(lines[0], Join(lines[1..]));
      assert [lines[0]] + lines[1..] == lines;
    }
  }

  // Every line followed by LF.
  function Unlines(lines: seq<string>): string {
    if lines == [] then "" else lines[0] + "\n" + Unlines(lines[1..])
  }

  lemma {:induction false} JoinWithEmptyLast(lines: seq<string>)
    ensures Join(lines + [""]) == Unlines(lines)
  {
    if lines == [] {
      assert lines + [""] == [""];
    } else {
      assert (lines + [""])[1..] == lines[1..] + [""];
      JoinWithEmptyLast(lines[1..]);
    }
  }

  // Bytes of the UTF-8 encoding.
  function Utf8Size(s: string): nat {
    if s == "" then 0
    else (if s[0] < '\U{80}' then 1 else if s[0] < '\U{800}' then 2 else if s[0] < '\U{10000}' then 3 else 4)
         + Utf8Size(s[1..])
  }
}
