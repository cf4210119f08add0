/** Text replacements (`apply_replacements` in patch.rs): every edit names a text that must be
    found once, and all edits apply to the text as it was. Positions are counted in characters. */
module Replace {
  import opened Errors
  import opened Seek
  import opened Sorting
  import opened Text
  import opened Wrappers

  const BOM: char := '\U{FEFF}'

  datatype Edit = Edit(oldText: string, newText: string)

  // Characters `start` up to `end` of the text become `newText`.
  datatype Range = Range(start: nat, end: nat, newText: string)

  datatype Failure = Failure(code: ErrorCode, edit: nat)

  predicate Occurs(s: string, p: string, i: nat) {
    i + |p| <= |s| && s[i..i + |p|] == p
  }

  // The leftmost occurrence from `from` on.
  function Find(s: string, p: string, from: nat): (at: Option<nat>)
    ensures at.None? ==> forall i: nat :: from <= i ==> !Occurs(s, p, i)
    ensures at.Some? ==>
              && from <= at.value && Occurs(s, p, at.value)
              && forall i: nat :: from <= i < at.value ==> !Occurs(s, p, i)
    decreases |s| - from
  {
    if from + |p| > |s| then None
    else if Occurs(s, p, from) then Some(from)
    else Find(s, p, from + 1)
  }

  // Every CR LF becomes LF.
  function CrlfToLf(s: string): string {
    if s == "" then ""
    else if Occurs(s, "\r\n", 0) then "\n" + CrlfToLf(s[2..])
    else [s[0]] + CrlfToLf(s[1..])
  }

  // Every CR becomes LF.
  function CrToLf(s: string): (r: string)
    ensures '\r' !in r
    ensures '\r' !in s ==> r == s
  {
    seq(|s|, i requires 0 <= i < |s| => if s[i] == '\r' then '\n' else s[i])
  }

  function Unix(s: string): (r: string)
    ensures '\r' !in r
  {
    CrToLf(CrlfToLf(s))
  }

  // Every LF becomes CR LF.
  function ToCrlf(s: string): string {
    if s == "" then "" else (if s[0] == '\n' then "\r\n" else [s[0]]) + ToCrlf(s[1..])
  }

  function Body(text: string): string {
    if text != "" && text[0] == BOM then text[1..] else text
  }

  function Base(text: string): (base: string)
    ensures '\r' !in base
  {
    Unix(Body(text))
  }

  // The first LF is the end of a CR LF.
  predicate UsesCrlf(s: string) {
    var crlf := Find(s, "\r\n", 0);
    crlf.Some? && Find(s, "\n", 0) == Some(crlf.value + 1)
  }

  function Restored(text: string, body: string): string {
    var ended := if UsesCrlf(Body(text)) then ToCrlf(body) else body;
    if text != "" && text[0] == BOM then [BOM] + ended else ended
  }

  // Found, and not found again from the end of the first match on.
  predicate Accepted(base: string, wanted: string) {
    var at := Find(base, wanted, 0);
    at.Some? && Find(base, wanted, at.value + |wanted|).None?
  }

  predicate EditOk(base: string, e: Edit) {
    Unix(e.oldText) != "" && Accepted(base, Unix(e.oldText))
  }

  predicate AllOk(base: string, edits: seq<Edit>) {
    forall i :: 0 <= i < |edits| ==> EditOk(base, edits[i])
  }

  function RangeOf(base: string, e: Edit): (r: Range)
    requires EditOk(base, e)
    ensures r.start < r.end <= |base| && base[r.start..r.end] == Unix(e.oldText) && '\r' !in r.newText
  {
    var at := Find(base, Unix(e.oldText), 0).value;
    Range(at, at + |Unix(e.oldText)|, Unix(e.newText))
  }

  function RangesOf(base: string, edits: seq<Edit>): (rs: seq<Range>)
    requires AllOk(base, edits)
    ensures |rs| == |edits| && forall i :: 0 <= i < |rs| ==> rs[i] == RangeOf(base, edits[i])
  {
    seq(|edits|, i requires 0 <= i < |edits| => RangeOf(base, edits[i]))
  }

  predicate Apart(a: Range, b: Range) {
    a.end <= b.start || b.end <= a.start
  }

  ghost predicate Disjoint(rs: seq<Range>) {
    forall i, j :: 0 <= i < j < |rs| ==> Apart(rs[i], rs[j])
  }

  ghost predicate Within(base: string, rs: set<Range>) {
    forall r :: r in rs ==> r.start < r.end <= |base|
  }

  ghost predicate Starts(rs: set<Range>, pos: nat) {
    exists r :: r in rs && r.start == pos
  }

  /** Simultaneous substitution: at the start of a range its new text instead of the range, and
      everywhere else the character that was there. The ranges are a set: they have no order. */
  ghost function Subst(base: string, rs: set<Range>, pos: nat): string
    requires Within(base, rs) && pos <= |base|
    decreases |base| - pos
  {
    if pos == |base| then ""
    else if Starts(rs, pos) then
      var r :| r in rs && r.start == pos;
      r.newText + Subst(base, rs, r.end)
    else [base[pos]] + Subst(base, rs, pos + 1)
  }

  ghost function SetOf(rs: seq<Range>): set<Range> {
    set r | r in rs
  }

  // The LF-only text after all edits.
  ghost function Substituted(base: string, edits: seq<Edit>): string
    requires AllOk(base, edits)
  {
    Subst(base, SetOf(RangesOf(base, edits)), 0)
  }

  // Every edit costs the length of the text it is looked for in.
  function Spent(base: string, edits: nat, work: nat): nat {
    work + edits * Utf8Size(base)
  }

  // What stops the search for one edit, when the ones before it went well.
  function Fault(base: string, edits: seq<Edit>, i: nat, work: nat): Option<ErrorCode>
    requires i < |edits|
  {
    if Unix(edits[i].oldText) == "" then Some(InvalidArgument)
    else if Spent(base, i + 1, work) > MAX_MATCH_WORK then Some(ResourceLimit)
    else if !Accepted(base, Unix(edits[i].oldText)) then Some(InvalidArgument)
    else None
  }

  // The first edit that cannot be found.
  ghost predicate FirstFault(base: string, edits: seq<Edit>, work: nat, f: Failure) {
    && f.edit < |edits| && Fault(base, edits, f.edit, work) == Some(f.code)
    && forall i :: 0 <= i < f.edit ==> Fault(base, edits, i, work).None?
  }

  ghost predicate NoFault(base: string, edits: seq<Edit>, work: nat) {
    forall i :: 0 <= i < |edits| ==> Fault(base, edits, i, work).None?
  }

  // An edit whose range starts inside that of another one, which starts no later.
  ghost predicate Overlapped(rs: seq<Range>, edit: nat) {
    edit < |rs| && exists i :: 0 <= i < |rs| && i != edit && rs[i].start <= rs[edit].start < rs[i].end
  }

  lemma NoFaultOk(base: string, edits: seq<Edit>, work: nat)
    ensures NoFault(base, edits, work)
            <==> AllOk(base, edits) && (edits == [] || Spent(base, |edits|, work) <= MAX_MATCH_WORK)
  {
    forall i | 0 <= i < |edits|
      ensures EditOk(base, edits[i]) && Spent(base, |edits|, work) <= MAX_MATCH_WORK ==>
                Fault(base, edits, i, work).None?
    {
      SpentGrows(base, i + 1, |edits|, work);
    }
    if NoFault(base, edits, work) {
      assert forall i :: 0 <= i < |edits| ==> Fault(base, edits, i, work).None? && EditOk(base, edits[i]);
      assert edits != [] ==> Fault(base, edits, |edits| - 1, work).None?;
    }
  }

  lemma SpentGrows(base: string, i: nat, j: nat, work: nat)
    requires i <= j
    ensures Spent(base, i, work) <= Spent(base, j, work)
  {
    var size := Utf8Size(base);
    assert j * size == i * size + (j - i) * size;
  }

  lemma SpentNext(base: string, i: nat, work: nat)
    ensures Spent(base, i + 1, work) == Spent(base, i, work) + Utf8Size(base)
  {
  }

  // A located edit: its range and its place in the request.
  datatype Located = Located(range: Range, edit: nat)

  method LocateEdits(base: string, edits: seq<Edit>, work: nat) returns (r: Result<(seq<Located>, nat), Failure>)
    ensures r.Err? ==> FirstFault(base, edits, work, r.error)
    ensures r.Ok? ==> NoFault(base, edits, work) && AllOk(base, edits) && r.value.1 == Spent(base, |edits|, work)
    ensures r.Ok? ==> r.value.0 == InRequestOrder(RangesOf(base, edits))
  {
    var ranges: seq<Located> := [];
    var spent := work;
    for i := 0 to |edits|
      invariant spent == Spent(base, i, work) && |ranges| == i
      invariant forall j :: 0 <= j < i ==> Fault(base, edits, j, work).None? && EditOk(base, edits[j])
      invariant forall j :: 0 <= j < i ==> ranges[j] == Located(RangeOf(base, edits[j]), j)
    {
      var one;
      one, spent := LocateEdit(base, edits, i, work, spent);
      if one.Err? {
        return Err(Failure(one.error, i));
      }
      ranges := ranges + [Located(one.value, i)];
    }
    return Ok((ranges, spent));
  }

  // One turn of the loop.
  method LocateEdit(base: string, edits: seq<Edit>, i: nat, ghost work: nat, before: nat)
    returns (r: Result<Range, ErrorCode>, spent: nat)
    requires i < |edits| && before == Spent(base, i, work)
    ensures Fault(base, edits, i, work) == if r.Err? then Some(r.error) else None
    ensures r.Ok? ==> spent == Spent(base, i + 1, work) && EditOk(base, edits[i]) && r.value == RangeOf(base, edits[i])
  {
    var wanted := Unix(edits[i].oldText);
    SpentNext(base, i, work);
    spent := before;
    if wanted == "" {
      return Err(InvalidArgument), spent;
    }
    spent := spent + Utf8Size(base);
    if spent > MAX_MATCH_WORK {
      return Err(ResourceLimit), spent;
    }
    var first := Find(base, wanted, 0);
    if first.None? || Find(base, wanted, first.value + |wanted|).Some? {
      return Err(InvalidArgument), spent;
    }
    r := Ok(Range(first.value, first.value + |wanted|, Unix(edits[i].newText)));
  }

  function InRequestOrder(rs: seq<Range>): (ls: seq<Located>)
    ensures |ls| == |rs| && forall i :: 0 <= i < |rs| ==> ls[i] == Located(rs[i], i)
  {
    seq(|rs|, i requires 0 <= i < |rs| => Located(rs[i], i))
  }

  function StartOf(l: Located): int {
    l.range.start
  }

  lemma {:induction false} CountOnce<T>(s: seq<T>, x: T)
    requires forall i, j :: 0 <= i < j < |s| ==> s[i] != s[j]
    ensures multiset(s)[x] <= 1
  {
    if s != [] {
      var front, last := s[..|s| - 1], s[|s| - 1];
      assert s == front + [last];
      CountOnce(front, x);
      if last == x {
        assert x !in front;
      }
    }
  }

  lemma CountTwice<T>(s: seq<T>, i: nat, j: nat)
    requires i < j < |s| && s[i] == s[j]
    ensures multiset(s)[s[i]] >= 2
  {
    assert s == s[..i] + [s[i]] + s[i + 1..j] + [s[j]] + s[j + 1..];
  }

  // A rearrangement of the located edits: the same ones, each once.
  ghost predicate Rearranged(rs: seq<Range>, ls: seq<Located>) {
    && (forall k :: 0 <= k < |ls| ==> ls[k].edit < |rs| && ls[k].range == rs[ls[k].edit])
    && (forall i :: 0 <= i < |rs| ==> Located(rs[i], i) in ls)
    && forall k, m :: 0 <= k < m < |ls| ==> ls[k].edit != ls[m].edit
  }

  // A rearrangement of different elements has no two that are equal.
  lemma NoTwins<T>(a: seq<T>, b: seq<T>)
    requires multiset(a) == multiset(b) && forall i, j :: 0 <= i < j < |a| ==> a[i] != a[j]
    ensures forall k, m :: 0 <= k < m < |b| ==> b[k] != b[m]
  {
    forall k, m | 0 <= k < m < |b|
      ensures b[k] != b[m]
    {
      if b[k] == b[m] {
        CountTwice(b, k, m);
        CountOnce(a, b[k]);
      }
    }
  }

  lemma SortRearranges(rs: seq<Range>)
    ensures Rearranged(rs, StableSort(InRequestOrder(rs), StartOf))
  {
    var asked := InRequestOrder(rs);
    var ls := StableSort(asked, StartOf);
    SameMembers(ls, asked);
    SameMembers(asked, ls);
    NoTwins(asked, ls);
    forall i | 0 <= i < |rs|
      ensures Located(rs[i], i) in ls
    {
      assert asked[i] in ls;
    }
  }

  ghost predicate Chained(ls: seq<Located>, n: nat) {
    forall k, m :: 0 <= k < m < n && m < |ls| ==> ls[k].range.end <= ls[m].range.start
  }

  ghost predicate Nonempty(rs: seq<Range>) {
    forall i :: 0 <= i < |rs| ==> rs[i].start < rs[i].end
  }

  lemma ChainedIsDisjoint(rs: seq<Range>, ls: seq<Located>)
    requires Rearranged(rs, ls) && Chained(ls, |ls|)
    ensures Disjoint(rs)
  {
    forall i, j | 0 <= i < j < |rs|
      ensures Apart(rs[i], rs[j])
    {
      var k :| 0 <= k < |ls| && ls[k] == Located(rs[i], i);
      var m :| 0 <= m < |ls| && ls[m] == Located(rs[j], j);
      assert k < m || m < k;
    }
  }

  lemma ClashIsOverlap(rs: seq<Range>, ls: seq<Located>, k: nat)
    requires Rearranged(rs, ls) && Sorted(ls, StartOf) && Nonempty(rs) && k + 1 < |ls|
    requires ls[k].range.end > ls[k + 1].range.start
    ensures Overlapped(rs, ls[k + 1].edit) && !Disjoint(rs)
  {
    var i, j := ls[k].edit, ls[k + 1].edit;
    assert rs[i].start <= rs[j].start < rs[i].end && i != j;
    assert !Apart(rs[i], rs[j]);
    assert if i < j then !Apart(rs[i], rs[j]) else !Apart(rs[j], rs[i]);
  }

  /** Looking at neighbours in order of their starts is enough: when no neighbours overlap, no
      two ranges do. */
  method FindOverlap(ls: seq<Located>, ghost rs: seq<Range>) returns (clash: Option<nat>)
    requires Rearranged(rs, ls) && Sorted(ls, StartOf) && Nonempty(rs)
    ensures clash.None? ==> Disjoint(rs) && Chained(ls, |ls|)
    ensures clash.Some? ==> Overlapped(rs, clash.value) && !Disjoint(rs)
  {
    var m := 0;
    while m + 1 < |ls|
      invariant m <= |ls| && Chained(ls, m + 1)
    {
      if ls[m].range.end > ls[m + 1].range.start {
        ClashIsOverlap(rs, ls, m);
        return Some(ls[m + 1].edit);
      }
      assert ls[m].range == rs[ls[m].edit];
      m := m + 1;
    }
    ChainedIsDisjoint(rs, ls);
    return None;
  }

  ghost predicate Gap(rs: set<Range>, from: nat, to: nat) {
    forall r :: r in rs ==> r.start < from || to <= r.start
  }

  lemma CharFirst(base: string, from: nat, to: nat, tail: string)
    requires from < to <= |base|
    ensures [base[from]] + (base[from + 1..to] + tail) == base[from..to] + tail
  {
  }

  lemma {:induction false} SkipGap(base: string, rs: set<Range>, from: nat, to: nat)
    requires Within(base, rs) && from <= to <= |base| && Gap(rs, from, to)
    ensures Subst(base, rs, from) == base[from..to] + Subst(base, rs, to)
    decreases |base| - from
  {
    if from == to {
      assert base[from..to] == "";
    } else {
      assert !Starts(rs, from);
      SkipGap(base, rs, from + 1, to);
      CharFirst(base, from, to, Subst(base, rs, to));
    }
  }

  ghost predicate OnlyAt(rs: set<Range>, r: Range) {
    forall q :: q in rs && q.start == r.start ==> q == r
  }

  lemma SubstAt(base: string, rs: set<Range>, r: Range)
    requires Within(base, rs) && r in rs && OnlyAt(rs, r)
    ensures Subst(base, rs, r.start) == r.newText + Subst(base, rs, r.end)
  {
  }

  // The ranges of `rs`, in order and apart.
  ghost predicate Laid(rs: set<Range>, ls: seq<Located>) {
    && (forall k :: 0 <= k < |ls| ==> ls[k].range in rs)
    && (forall r :: r in rs ==> exists k :: 0 <= k < |ls| && ls[k].range == r)
    && Chained(ls, |ls|)
  }

  lemma GapBefore(base: string, rs: set<Range>, ls: seq<Located>, k: nat)
    requires Within(base, rs) && Laid(rs, ls) && k <= |ls|
    ensures var from := if k == 0 then 0 else ls[k - 1].range.end;
            var to := if k == |ls| then |base| else ls[k].range.start;
            from <= to <= |base| && Gap(rs, from, to)
  {
    var from := if k == 0 then 0 else ls[k - 1].range.end;
    var to := if k == |ls| then |base| else ls[k].range.start;
    forall r | r in rs
      ensures r.start < from || to <= r.start
    {
      var i :| 0 <= i < |ls| && ls[i].range == r;
      assert i < k - 1 || i == k - 1 || i == k || i > k;
    }
  }

  lemma LaidOnce(base: string, rs: set<Range>, ls: seq<Located>, k: nat)
    requires Within(base, rs) && Laid(rs, ls) && k < |ls|
    ensures OnlyAt(rs, ls[k].range)
  {
    forall q | q in rs && q.start == ls[k].range.start
      ensures q == ls[k].range
    {
      var i :| 0 <= i < |ls| && ls[i].range == q;
      assert i == k;
    }
  }

  /** Replacing from the back gives the simultaneous substitution. */
  method ReplaceBackwards(base: string, ls: seq<Located>, ghost rs: set<Range>) returns (result: string)
    requires Within(base, rs) && Laid(rs, ls)
    ensures result == Subst(base, rs, 0)
  {
    result := base;
    var k := |ls|;
    ghost var pos := |base|;
    while k > 0
      invariant 0 <= k <= |ls|
      invariant pos == (if k == |ls| then |base| else ls[k].range.start) && pos <= |base|
      invariant result == base[..pos] + Subst(base, rs, pos)
    {
      GapBefore(base, rs, ls, k);
      k := k - 1;
      var r := ls[k].range;
      SkipGap(base, rs, r.end, pos);
      LaidOnce(base, rs, ls, k);
      SubstAt(base, rs, r);
      SpliceAt(base, r, pos, Subst(base, rs, pos));
      result := result[..r.start] + r.newText + result[r.end..];
      pos := r.start;
    }
    GapBefore(base, rs, ls, 0);
    SkipGap(base, rs, 0, pos);
    assert base[0..pos] == base[..pos];
  }

  lemma SpliceAt(base: string, r: Range, pos: nat, tail: string)
    requires r.start <= r.end <= pos <= |base|
    ensures var result := base[..pos] + tail;
            result[..r.start] + r.newText + result[r.end..] == base[..r.start] + (r.newText + (base[r.end..pos] + tail))
  {
    var result := base[..pos] + tail;
    assert result[r.end..] == base[r.end..pos] + tail;
    assert result[..r.start] == base[..r.start];
  }

  lemma SortedIsLaid(base: string, rs: seq<Range>, ls: seq<Located>)
    requires Rearranged(rs, ls) && Chained(ls, |ls|)
    ensures Laid(SetOf(rs), ls)
  {
    forall r | r in SetOf(rs)
      ensures exists k :: 0 <= k < |ls| && ls[k].range == r
    {
      var i :| 0 <= i < |rs| && rs[i] == r;
      var k :| 0 <= k < |ls| && ls[k] == Located(rs[i], i);
    }
  }

  // The edits apply: each is found, no two of their ranges overlap, and something changes.
  ghost predicate Succeeds(text: string, edits: seq<Edit>, work: nat) {
    var base := Base(text);
    && NoFault(base, edits, work) && AllOk(base, edits)
    && Disjoint(RangesOf(base, edits)) && Substituted(base, edits) != base
  }

  // Why located edits do not apply: one that overlaps another, or no change at all.
  ghost predicate Refused(base: string, edits: seq<Edit>, f: Failure)
    requires AllOk(base, edits)
  {
    && f.code == InvalidArgument
    && if !Disjoint(RangesOf(base, edits)) then Overlapped(RangesOf(base, edits), f.edit)
       else Substituted(base, edits) == base && f.edit == 0
  }

  ghost function Output(text: string, edits: seq<Edit>): string
    requires AllOk(Base(text), edits)
  {
    Restored(text, Substituted(Base(text), edits))
  }

  // The located edits, sorted, checked, and replaced from the back.
  method ReplaceLocated(base: string, located: seq<Located>, ghost edits: seq<Edit>)
    returns (r: Result<string, Failure>)
    requires AllOk(base, edits) && located == InRequestOrder(RangesOf(base, edits))
    ensures r.Err? ==> Refused(base, edits, r.error)
    ensures r.Ok? ==> Disjoint(RangesOf(base, edits)) && r.value == Substituted(base, edits) && r.value != base
  {
    ghost var rs := RangesOf(base, edits);
    var ls := StableSort(located, StartOf);
    SortSorts(located, StartOf);
    SortRearranges(rs);
    var clash := FindOverlap(ls, rs);
    if clash.Some? {
      return Err(Failure(InvalidArgument, clash.value));
    }
    SortedIsLaid(base, rs, ls);
    var result := ReplaceBackwards(base, ls, SetOf(rs));
    if result == base {
      return Err(Failure(InvalidArgument, 0));
    }
    return Ok(result);
  }

  /** `apply_replacements`: the simultaneous substitution of the text with LF endings, in the
      text's own line endings and with its byte order mark. It fails on the first edit that is
      not found once, or else when two ranges overlap or nothing changes. */
  method Apply(text: string, edits: seq<Edit>, work: nat) returns (r: Result<(string, nat), Failure>)
    ensures r.Ok? <==> Succeeds(text, edits, work)
    ensures r.Ok? ==> r.value == (Output(text, edits), Spent(Base(text), |edits|, work))
    ensures r.Err? ==>
              FirstFault(Base(text), edits, work, r.error)
              || (AllOk(Base(text), edits) && Refused(Base(text), edits, r.error))
  {
    var bom := text != "" && text[0] == BOM;
    var body := if bom then text[1..] else text;
    var crlf := UsesCrlf(body);
    var base := Unix(body);
    var located := LocateEdits(base, edits, work);
    if located.Err? {
      return Err(located.error);
    }
    var replaced := ReplaceLocated(base, located.value.0, edits);
    if replaced.Err? {
      return Err(replaced.error);
    }
    var ended := if crlf then ToCrlf(replaced.value) else replaced.value;
    return Ok((if bom then [BOM] + ended else ended, located.value.1));
  }

  // Disjointness without an order: no edit twice, and the ranges of any two apart.
  ghost predicate DisjointBag(base: string, edits: multiset<Edit>)
    requires forall e :: e in edits ==> EditOk(base, e)
  {
    && (forall e :: e in edits ==> edits[e] == 1)
    && forall e, f :: e in edits && f in edits && e != f ==> Apart(RangeOf(base, e), RangeOf(base, f))
  }

  // The same edit twice would have the same range twice.
  lemma EditsDiffer(base: string, edits: seq<Edit>)
    requires AllOk(base, edits) && Disjoint(RangesOf(base, edits))
    ensures forall e :: e in multiset(edits) ==> multiset(edits)[e] == 1
  {
    var rs := RangesOf(base, edits);
    forall i, j | 0 <= i < j < |edits|
      ensures edits[i] != edits[j]
    {
      assert Apart(rs[i], rs[j]);
    }
    forall e | e in multiset(edits)
      ensures multiset(edits)[e] == 1
    {
      CountOnce(edits, e);
    }
  }

  lemma TwoApart(base: string, edits: seq<Edit>, i: nat, j: nat)
    requires AllOk(base, edits) && Disjoint(RangesOf(base, edits)) && i < |edits| && j < |edits| && i != j
    ensures Apart(RangeOf(base, edits[i]), RangeOf(base, edits[j]))
  {
    var rs := RangesOf(base, edits);
    assert if i < j then Apart(rs[i], rs[j]) else Apart(rs[j], rs[i]);
  }

  lemma BagOfDisjoint(base: string, edits: seq<Edit>)
    requires AllOk(base, edits) && Disjoint(RangesOf(base, edits))
    ensures DisjointBag(base, multiset(edits))
  {
    EditsDiffer(base, edits);
    forall e, f | e in multiset(edits) && f in multiset(edits) && e != f
      ensures Apart(RangeOf(base, e), RangeOf(base, f))
    {
      var i :| 0 <= i < |edits| && edits[i] == e;
      var j :| 0 <= j < |edits| && edits[j] == f;
      TwoApart(base, edits, i, j);
    }
  }

  lemma DisjointOfBag(base: string, edits: seq<Edit>)
    requires AllOk(base, edits) && DisjointBag(base, multiset(edits))
    ensures Disjoint(RangesOf(base, edits))
  {
    var rs := RangesOf(base, edits);
    forall i, j | 0 <= i < j < |rs|
      ensures Apart(rs[i], rs[j])
    {
      assert edits[i] in multiset(edits) && edits[j] in multiset(edits);
      if edits[i] == edits[j] {
        CountTwice(edits, i, j);
      }
    }
  }

  lemma SameRanges(base: string, a: seq<Edit>, b: seq<Edit>)
    requires multiset(a) == multiset(b) && AllOk(base, a)
    ensures AllOk(base, b)
    ensures SetOf(RangesOf(base, a)) <= SetOf(RangesOf(base, b))
  {
    forall i | 0 <= i < |b|
      ensures EditOk(base, b[i])
    {
      assert b[i] in multiset(b) && b[i] in multiset(a);
    }
    forall r | r in RangesOf(base, a)
      ensures r in RangesOf(base, b)
    {
      var i :| 0 <= i < |a| && RangesOf(base, a)[i] == r;
      assert a[i] in multiset(a) && a[i] in multiset(b);
      var j :| 0 <= j < |b| && b[j] == a[i];
      assert RangesOf(base, b)[j] == r;
    }
  }

  lemma OrderDoesNotMatterOneWay(text: string, a: seq<Edit>, b: seq<Edit>, work: nat)
    requires multiset(a) == multiset(b) && Succeeds(text, a, work)
    ensures Succeeds(text, b, work) && Output(text, a) == Output(text, b)
  {
    var base := Base(text);
    SameRanges(base, a, b);
    SameRanges(base, b, a);
    BagOfDisjoint(base, a);
    DisjointOfBag(base, b);
    assert SetOf(RangesOf(base, a)) == SetOf(RangesOf(base, b));
    assert Substituted(base, a) == Substituted(base, b);
    assert |a| == |multiset(a)| == |multiset(b)| == |b|;
    NoFaultOk(base, a, work);
    NoFaultOk(base, b, work);
  }

  /** The order of the edits does not matter: every rearrangement succeeds equally, with the same
      text. */
  lemma OrderDoesNotMatter(text: string, a: seq<Edit>, b: seq<Edit>, work: nat)
    requires multiset(a) == multiset(b)
    ensures Succeeds(text, a, work) <==> Succeeds(text, b, work)
    ensures Succeeds(text, a, work) ==> Output(text, a) == Output(text, b)
  {
    if Succeeds(text, a, work) {
      OrderDoesNotMatterOneWay(text, a, b, work);
    } else if Succeeds(text, b, work) {
      OrderDoesNotMatterOneWay(text, b, a, work);
    }
  }

  // Every LF is the end of a CR LF, and every CR the beginning of one.
  ghost predicate AllCrlf(s: string) {
    && (forall i :: 0 <= i < |s| && s[i] == '\n' ==> 0 < i && s[i - 1] == '\r')
    && forall i :: 0 <= i < |s| && s[i] == '\r' ==> i + 1 < |s| && s[i + 1] == '\n'
  }

  lemma {:induction false} ToCrlfEndings(s: string)
    requires '\r' !in s
    ensures AllCrlf(ToCrlf(s))
    ensures s != "" && s[0] != '\n' ==> ToCrlf(s)[0] == s[0]
    ensures CrlfToLf(ToCrlf(s)) == s
  {
    if s != "" {
      ToCrlfEndings(s[1..]);
      var head, rest := if s[0] == '\n' then "\r\n" else [s[0]], ToCrlf(s[1..]);
      CrlfPrepend(head, rest);
      assert s[1..] != "" && s[1] == '\n' ==> rest[0] == '\r';
      if s[0] == '\n' {
        assert (head + rest)[2..] == rest;
      } else {
        assert (head + rest)[1..] == rest;
      }
      assert [s[0]] + s[1..] == s;
    }
  }

  lemma CrlfPrepend(head: string, rest: string)
    requires head == "\r\n" || (|head| == 1 && head[0] != '\r' && head[0] != '\n')
    requires AllCrlf(rest)
    ensures AllCrlf(head + rest)
  {
    var s := head + rest;
    forall i | 0 <= i < |s|
      ensures s[i] == '\n' ==> 0 < i && s[i - 1] == '\r'
      ensures s[i] == '\r' ==> i + 1 < |s| && s[i + 1] == '\n'
    {
      if i >= |head| {
        assert s[i] == rest[i - |head|];
      }
    }
  }

  lemma {:induction false} SubstHasNoCr(base: string, rs: set<Range>, pos: nat)
    requires Within(base, rs) && pos <= |base|
    requires '\r' !in base && forall r :: r in rs ==> '\r' !in r.newText
    ensures '\r' !in Subst(base, rs, pos)
    decreases |base| - pos
  {
    if pos < |base| {
      if Starts(rs, pos) {
        forall r | r in rs && r.start == pos
          ensures '\r' !in Subst(base, rs, r.end)
        {
          SubstHasNoCr(base, rs, r.end);
        }
      } else {
        SubstHasNoCr(base, rs, pos + 1);
      }
    }
  }

  lemma {:induction false} CrlfToLfNothing(s: string)
    requires '\r' !in s
    ensures CrlfToLf(s) == s
  {
    if s != "" {
      CrlfToLfNothing(s[1..]);
      assert !Occurs(s, "\r\n", 0) by {
        assert s[0] != '\r';
        assert |s| >= 2 ==> s[0..2][0] == s[0];
      }
      assert [s[0]] + s[1..] == s;
    }
  }

  // The written text without the byte order mark that was kept.
  function WithoutKeptBom(text: string, output: string): string {
    if text != "" && text[0] == BOM && output != "" then output[1..] else output
  }

  /** What the written text looks like: the byte order mark is kept; all endings are CR LF when
      the first ending was, and otherwise there is no CR; and normalised again the text is the
      substitution of the normalised original. */
  lemma OutputEndings(text: string, edits: seq<Edit>)
    requires AllOk(Base(text), edits)
    ensures var output := Output(text, edits);
            var written := WithoutKeptBom(text, output);
            && (text != "" && text[0] == BOM ==> output != "" && output[0] == BOM)
            && (if UsesCrlf(Body(text)) then AllCrlf(written) else '\r' !in written)
            && Unix(written) == Substituted(Base(text), edits)
  {
    var base := Base(text);
    var result := Substituted(base, edits);
    SubstHasNoCr(base, SetOf(RangesOf(base, edits)), 0);
    ToCrlfEndings(result);
    CrlfToLfNothing(result);
    var ended := if UsesCrlf(Body(text)) then ToCrlf(result) else result;
    assert WithoutKeptBom(text, Output(text, edits)) == ended;
  }

  // A match such that every other one starts later, but before its end.
  ghost predicate FoundOnce(base: string, p: string, at: nat) {
    && Occurs(base, p, at)
    && forall i: nat :: Occurs(base, p, i) ==> at <= i && (i == at || i < at + |p|)
  }

  /** What being found once means: there is a leftmost match, and every other one overlaps it. */
  lemma AcceptedMeaning(base: string, p: string)
    requires p != ""
    ensures Accepted(base, p) <==> exists at: nat :: FoundOnce(base, p, at)
  {
    if Accepted(base, p) {
      assert FoundOnce(base, p, Find(base, p, 0).value);
    }
  }

  ghost predicate Unique(base: string, p: string) {
    exists at: nat :: Occurs(base, p, at) && forall i: nat :: Occurs(base, p, i) ==> i == at
  }

  // The suffix from `k` is a prefix too.
  ghost predicate Border(p: string, k: nat) {
    0 < k < |p| && p[k..] == p[..|p| - k]
  }

  // No proper suffix of the text is a prefix of it.
  ghost predicate Unbordered(p: string) {
    forall k: nat :: !Border(p, k)
  }

  lemma BorderedNamesTwo(p: string)
    requires !Unbordered(p)
    ensures !NamesOnePlace(p)
  {
    var k: nat :| Border(p, k);
    BorderedTwice(p, k);
  }

  // A text that overlaps itself, behind its own beginning: accepted, and there twice.
  lemma BorderedAccepted(p: string, k: nat)
    requires Border(p, k)
    ensures var base := p[..k] + p; Accepted(base, p) && Occurs(base, p, 0) && Occurs(base, p, k)
  {
    var base := p[..k] + p;
    assert Occurs(base, p, k);
    assert base[..|p|] == p[..k] + p[..|p| - k] == p;
    assert Occurs(base, p, 0);
    assert forall i: nat :: Occurs(base, p, i) ==> i <= k;
    assert FoundOnce(base, p, 0);
    AcceptedMeaning(base, p);
  }

  lemma BorderedTwice(p: string, k: nat)
    requires Border(p, k)
    ensures !OnceIfAccepted(p[..k] + p, p)
  {
    BorderedAccepted(p, k);
    var base := p[..k] + p;
    assert Occurs(base, p, 0) && Occurs(base, p, k);
  }

  lemma Overlapping(base: string, p: string, at: nat, k: nat)
    requires Occurs(base, p, at) && Occurs(base, p, at + k) && 0 < k < |p|
    ensures Border(p, k)
  {
    assert p[k..] == base[at + k..at + |p|] == p[..|p| - k];
  }

  lemma UnborderedOnce(base: string, p: string)
    requires p != "" && Unbordered(p) && Accepted(base, p)
    ensures Unique(base, p)
  {
    AcceptedMeaning(base, p);
    var at: nat :| FoundOnce(base, p, at);
    forall i: nat | Occurs(base, p, i)
      ensures i == at
    {
      if at < i < at + |p| {
        Overlapping(base, p, at, i - at);
      }
    }
  }

  // The text has the old text once, if it is accepted at all.
  ghost predicate OnceIfAccepted(base: string, p: string) {
    Accepted(base, p) ==> Unique(base, p)
  }

  ghost predicate NamesOnePlace(p: string) {
    forall base :: OnceIfAccepted(base, p)
  }

  lemma UnborderedNamesOnePlace(p: string)
    requires p != "" && Unbordered(p)
    ensures NamesOnePlace(p)
  {
    forall base: string
      ensures OnceIfAccepted(base, p)
    {
      if Accepted(base, p) {
        UnborderedOnce(base, p);
      }
    }
  }

  /** An accepted old text is the only one of its kind in every file if and only if it does not
      overlap itself: no proper suffix of it is also a prefix. */
  lemma UniqueUnlessBordered(p: string)
    requires p != ""
    ensures Unbordered(p) <==> NamesOnePlace(p)
  {
    if Unbordered(p) {
      UnborderedNamesOnePlace(p);
    } else {
      BorderedNamesTwo(p);
    }
  }

  /** An old text that is found twice and accepted all the same: "aa" in "aaa". */
  lemma OverlapIsAccepted(base: string, p: string)
    requires base == "aaa" && p == "aa"
    ensures Accepted(base, p) && Occurs(base, p, 0) && Occurs(base, p, 1)
  {
    assert Border(p, 1) by {
      assert p[1..] == p[..1];
    }
    assert base == p[..1] + p;
    BorderedAccepted(p, 1);
  }
}
