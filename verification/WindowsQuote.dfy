/** Windows command-line construction (backend/windows/native.rs): `quote`, the loop that
    joins ordinary arguments, and the parser of "Parsing C command-line arguments" in the
    Microsoft C runtime documentation, which reads the line back. */
module WindowsQuote {
  import opened Wrappers

  // A UTF-16 code unit.
  newtype Unit = x: int | 0 <= x < 0x1_0000

  datatype QuoteError = ContainsNul

  const NUL: Unit := 0
  const TAB: Unit := 9
  const SPACE: Unit := 32
  const QUOTE: Unit := 34
  const BACKSLASH: Unit := 92

  // The characters that make `quote` put an argument between quotes.
  predicate NeedsQuotes(c: Unit) {
    c == 9 || c == 10 || c == 11 || c == 13 || c == 32 || c == 34
  }

  // The characters at which the C runtime ends an unquoted argument.
  predicate IsBlank(c: Unit) {
    c == SPACE || c == TAB
  }

  function Slashes(n: nat): (s: seq<Unit>)
    ensures |s| == n && forall i :: 0 <= i < n ==> s[i] == BACKSLASH
  {
    seq(n, i => BACKSLASH)
  }

  /** The text between the quotes for the rest `v` of an argument, when `slashes`
      backslashes have been read and not yet written. */
  function Body(v: seq<Unit>, slashes: nat): seq<Unit> {
    if v == [] then Slashes(2 * slashes)
    else if v[0] == BACKSLASH then Body(v[1..], slashes + 1)
    else Slashes(if v[0] == QUOTE then 2 * slashes + 1 else slashes) + ([v[0]] + Body(v[1..], 0))
  }

  function Quoted(v: seq<Unit>): seq<Unit> {
    if v != [] && forall i :: 0 <= i < |v| ==> !NeedsQuotes(v[i]) then v
    else [QUOTE] + (Body(v, 0) + [QUOTE])
  }

  method Quote(value: seq<Unit>) returns (r: Result<seq<Unit>, QuoteError>)
    ensures r == if NUL in value then Err(ContainsNul) else Ok(Quoted(value))
  {
    if NUL in value {
      return Err(ContainsNul);
    }
    if value != [] && forall i :: 0 <= i < |value| ==> !NeedsQuotes(value[i]) {
      return Ok(value);
    }
    var result := [QUOTE];
    var slashes := 0;
    for k := 0 to |value|
      invariant result + Body(value[k..], slashes) == [QUOTE] + Body(value, 0)
    {
      var ch := value[k];
      assert value[k..][1..] == value[k + 1..];
      if ch == BACKSLASH {
        slashes := slashes + 1;
        continue;
      }
      var count := if ch == QUOTE then slashes * 2 + 1 else slashes;
      assert result + Body(value[k..], slashes) == result + Slashes(count) + [ch] + Body(value[k + 1..], 0);
      result := result + Slashes(count);
      result := result + [ch];
      slashes := 0;
    }
    result := result + Slashes(slashes * 2);
    Assoc([QUOTE], Body(value, 0), [QUOTE]);
    return Ok(result + [QUOTE]);
  }

  /** Read one argument from `s`, with `slashes` backslashes read and not yet decided: 2n of
      them before a quote are n backslashes and a delimiter, 2n+1 are n backslashes and a
      literal quote, any others are literal, and a doubled quote inside quotes is one literal
      quote. Returns the argument and what follows it. */
  function ParseArg(s: seq<Unit>, inQuotes: bool, slashes: nat): (r: (seq<Unit>, seq<Unit>))
    ensures |r.1| <= |s|
    ensures s != [] && (inQuotes || !IsBlank(s[0])) ==> |r.1| < |s|
    decreases |s|
  {
    if s == [] || (!inQuotes && IsBlank(s[0])) then (Slashes(slashes), s)
    else if s[0] == BACKSLASH then ParseArg(s[1..], inQuotes, slashes + 1)
    else if s[0] != QUOTE then
      var r := ParseArg(s[1..], inQuotes, 0);
      (Slashes(slashes) + ([s[0]] + r.0), r.1)
    else if slashes % 2 == 1 then
      var r := ParseArg(s[1..], inQuotes, 0);
      (Slashes(slashes / 2) + ([QUOTE] + r.0), r.1)
    else if inQuotes && |s| > 1 && s[1] == QUOTE then
      var r := ParseArg(s[2..], inQuotes, 0);
      (Slashes(slashes / 2) + ([QUOTE] + r.0), r.1)
    else
      var r := ParseArg(s[1..], !inQuotes, 0);
      (Slashes(slashes / 2) + r.0, r.1)
  }

  function ParseArgs(s: seq<Unit>): seq<seq<Unit>>
    decreases |s|
  {
    if s == [] then []
    else if IsBlank(s[0]) then ParseArgs(s[1..])
    else
      var r := ParseArg(s, false, 0);
      [r.0] + ParseArgs(r.1)
  }

  // The text after an argument: nothing, or a separator.
  predicate AtBoundary(tail: seq<Unit>) {
    tail == [] || IsBlank(tail[0])
  }

  lemma {:induction false} SlashRun(n: nat, t: seq<Unit>, inQuotes: bool, slashes: nat)
    ensures ParseArg(Slashes(n) + t, inQuotes, slashes) == ParseArg(t, inQuotes, slashes + n)
  {
    if n == 0 {
      assert Slashes(n) + t == t;
    } else {
      assert (Slashes(n) + t)[1..] == Slashes(n - 1) + t;
      SlashRun(n - 1, t, inQuotes, slashes + 1);
    }
  }

  lemma Assoc(a: seq<Unit>, b: seq<Unit>, c: seq<Unit>)
    ensures (a + b) + c == a + (b + c)
  {
  }

  lemma ClosingQuote(k: nat, tail: seq<Unit>)
    requires AtBoundary(tail)
    ensures ParseArg(Slashes(2 * k) + ([QUOTE] + tail), true, 0) == (Slashes(k), tail)
  {
    var t := [QUOTE] + tail;
    SlashRun(2 * k, t, true, 0);
    assert t[1..] == tail;
    assert ParseArg(tail, false, 0) == (Slashes(0), tail);
    assert Slashes(k) + Slashes(0) == Slashes(k);
  }

  // A character after `k` backslashes, given that what follows it reads back as `v`.
  lemma CharacterParses(c: Unit, k: nat, rest: seq<Unit>, v: seq<Unit>, tail: seq<Unit>)
    requires c != BACKSLASH
    requires ParseArg(rest, true, 0) == (v, tail)
    ensures var n := if c == QUOTE then 2 * k + 1 else k;
            ParseArg(Slashes(n) + ([c] + rest), true, 0) == (Slashes(k) + ([c] + v), tail)
  {
    var n := if c == QUOTE then 2 * k + 1 else k;
    var t := [c] + rest;
    SlashRun(n, t, true, 0);
    assert t[1..] == rest;
  }

  lemma OpeningQuote(rest: seq<Unit>, v: seq<Unit>, tail: seq<Unit>)
    requires ParseArg(rest, true, 0) == (v, tail)
    ensures ParseArg([QUOTE] + rest, false, 0) == (v, tail)
  {
    assert ([QUOTE] + rest)[1..] == rest;
    assert Slashes(0) + v == v;
  }

  /** Reading back quoted text: whatever backslash run is pending, the parser inside quotes
      recovers it followed by the rest of the argument, and stops at the closing quote. */
  lemma {:induction false} BodyParses(v: seq<Unit>, k: nat, tail: seq<Unit>)
    requires AtBoundary(tail)
    ensures ParseArg(Body(v, k) + ([QUOTE] + tail), true, 0) == (Slashes(k) + v, tail)
    decreases |v|
  {
    var end := [QUOTE] + tail;
    if v == [] {
      ClosingQuote(k, tail);
      assert Slashes(k) + v == Slashes(k);
    } else if v[0] == BACKSLASH {
      BodyParses(v[1..], k + 1, tail);
      assert Slashes(k + 1) + v[1..] == Slashes(k) + v;
    } else {
      var n := if v[0] == QUOTE then 2 * k + 1 else k;
      var body := Body(v[1..], 0);
      BodyParses(v[1..], 0, tail);
      assert Slashes(0) + v[1..] == v[1..];
      CharacterParses(v[0], k, body + end, v[1..], tail);
      Assoc(Slashes(n), [v[0]] + body, end);
      Assoc([v[0]], body, end);
      assert [v[0]] + v[1..] == v;
    }
  }

  lemma {:induction false} PlainParses(v: seq<Unit>, k: nat, tail: seq<Unit>)
    requires forall i :: 0 <= i < |v| ==> !NeedsQuotes(v[i])
    requires AtBoundary(tail)
    ensures ParseArg(v + tail, false, k) == (Slashes(k) + v, tail)
    decreases |v|
  {
    if v == [] {
      assert v + tail == tail && Slashes(k) + v == Slashes(k);
    } else {
      assert !NeedsQuotes(v[0]);
      assert (v + tail)[1..] == v[1..] + tail;
      assert [v[0]] + v[1..] == v;
      if v[0] == BACKSLASH {
        PlainParses(v[1..], k + 1, tail);
        assert Slashes(k + 1) + v[1..] == Slashes(k) + v;
      } else {
        PlainParses(v[1..], 0, tail);
        assert Slashes(0) + v[1..] == v[1..];
      }
    }
  }

  /** One argument survives quoting and parsing, wherever it stands in the line. */
  lemma QuotedParses(v: seq<Unit>, tail: seq<Unit>)
    requires AtBoundary(tail)
    ensures ParseArg(Quoted(v) + tail, false, 0) == (v, tail)
    ensures Quoted(v) != [] && !IsBlank(Quoted(v)[0])
  {
    assert Slashes(0) + v == v;
    if v != [] && forall i :: 0 <= i < |v| ==> !NeedsQuotes(v[i]) {
      PlainParses(v, 0, tail);
      assert !NeedsQuotes(v[0]);
    } else {
      var body := Body(v, 0);
      BodyParses(v, 0, tail);
      OpeningQuote(body + ([QUOTE] + tail), v, tail);
      Assoc([QUOTE], body + [QUOTE], tail);
      Assoc(body, [QUOTE], tail);
    }
  }

  // What `spawn` appends after the executable for ordinary arguments.
  function Joined(args: seq<seq<Unit>>): seq<Unit> {
    if args == [] then [] else [SPACE] + Quoted(args[0]) + Joined(args[1..])
  }

  /** Every argument list, empty arguments and trailing backslashes included, is read back
      unchanged by the C runtime. */
  lemma {:induction false} JoinedParses(args: seq<seq<Unit>>)
    ensures ParseArgs(Joined(args)) == args
  {
    if args != [] {
      var tail := Joined(args[1..]);
      var line := Quoted(args[0]) + tail;
      assert Joined(args) == [SPACE] + line;
      assert Joined(args)[1..] == line;
      QuotedParses(args[0], tail);
      JoinedParses(args[1..]);
      assert line[0] == Quoted(args[0])[0];
    }
  }

  lemma JoinedAppend(args: seq<seq<Unit>>, arg: seq<Unit>)
    ensures Joined(args + [arg]) == Joined(args) + [SPACE] + Quoted(arg)
  {
    if args == [] {
      assert args + [arg] == [arg];
      assert Joined([]) == [] && [arg][1..] == [];
    } else {
      assert (args + [arg])[1..] == args[1..] + [arg];
      JoinedAppend(args[1..], arg);
    }
  }

  // The line after one more argument.
  lemma JoinedNext(executable: seq<Unit>, args: seq<seq<Unit>>, i: nat)
    requires i < |args|
    ensures executable + Joined(args[..i + 1]) == executable + Joined(args[..i]) + [SPACE] + Quoted(args[i])
  {
    assert args[..i + 1] == args[..i] + [args[i]];
    JoinedAppend(args[..i], args[i]);
    Ungroup(executable, Joined(args[..i]), [SPACE], Quoted(args[i]));
  }

  lemma Ungroup(a: seq<Unit>, b: seq<Unit>, c: seq<Unit>, d: seq<Unit>)
    ensures a + (b + c + d) == a + b + c + d
  {
  }

  /** The argument loop of `spawn`. The line it builds names exactly the arguments it was
      given; it fails exactly when one of them holds a NUL. */
  method AppendArguments(executable: seq<Unit>, args: seq<seq<Unit>>)
    returns (r: Result<seq<Unit>, QuoteError>)
    ensures r.Err? <==> exists i :: 0 <= i < |args| && NUL in args[i]
    ensures r.Ok? ==> executable <= r.value && ParseArgs(r.value[|executable|..]) == args
  {
    var line := executable;
    for index := 0 to |args|
      invariant line == executable + Joined(args[..index])
      invariant forall i :: 0 <= i < index ==> NUL !in args[i]
    {
      line := line + [SPACE];
      var q := Quote(args[index]);
      if q.Err? {
        return q;
      }
      line := line + q.value;
      JoinedNext(executable, args, index);
    }
    assert args[..|args|] == args;
    JoinedParses(args);
    assert line[|executable|..] == Joined(args);
    return Ok(line);
  }
}
