/** Pages of the execution list (`list_executions` in runtime.rs) over a table that changes
    between pages: what one page returns, and what a client following the cursors sees. */
module Listing {
  import opened Wrappers

  type Uuid = nat
  type Time = nat
  type Labels = map<string, string>

  datatype State = Starting | Running | Stopping | Finished
  datatype StateFilter = Active | OnlyFinished | All

  // `rest` stands for the arguments of a request that the registry only compares.
  datatype StartRequest = StartRequest(startId: string, labels: Labels, rest: nat)
  datatype RunRequest = RunRequest(runId: string, labels: Labels, rest: nat)

  // An accepted execution, with the session state it currently shows.
  datatype Entry = Entry(
    startRequest: Option<StartRequest>, runRequest: Option<RunRequest>,
    handle: Uuid, labels: Labels, state: State, finishedAt: Option<Time>)

  // Accepted executions by acceptance sequence.
  type Table = map<nat, Entry>

  datatype Filter = Filter(state: StateFilter, labels: Labels)

  predicate Matches(f: Filter, e: Entry) {
    && !(f.state == Active && e.state == Finished)
    && !(f.state == OnlyFinished && e.state != Finished)
    && forall key :: key in f.labels ==> key in e.labels && e.labels[key] == f.labels[key]
  }

  predicate Selected(t: Table, f: Filter, s: nat) {
    s in t && Matches(f, t[s])
  }

  datatype Page = Page(keys: seq<nat>, more: bool)

  /** The first `limit` selected sequences from `s` to `through`, and whether another follows. */
  function Scan(t: Table, f: Filter, s: nat, through: nat, limit: nat): Page
    decreases through + 1 - s
  {
    if s > through then Page([], false)
    else if !Selected(t, f, s) then Scan(t, f, s + 1, through, limit)
    else if limit == 0 then Page([], true)
    else
      var rest := Scan(t, f, s + 1, through, limit - 1);
      Page([s] + rest.keys, rest.more)
  }

  ghost predicate Ascending(s: seq<nat>) {
    forall i, j :: 0 <= i < j < |s| ==> s[i] < s[j]
  }

  ghost predicate Within(keys: seq<nat>, low: nat, high: nat) {
    forall i :: 0 <= i < |keys| ==> low < keys[i] <= high
  }

  function LastOf(keys: seq<nat>, after: nat): nat {
    if keys == [] then after else keys[|keys| - 1]
  }

  lemma {:induction false} ScanAscends(t: Table, f: Filter, s: nat, through: nat, limit: nat)
    requires s > 0
    ensures var p := Scan(t, f, s, through, limit);
            && Ascending(p.keys) && Within(p.keys, s - 1, through)
            && |p.keys| <= limit && (p.more ==> |p.keys| == limit)
            && forall k :: k in p.keys ==> Selected(t, f, k)
    decreases through + 1 - s
  {
    if s <= through {
      if !Selected(t, f, s) {
        ScanAscends(t, f, s + 1, through, limit);
      } else if limit > 0 {
        ScanAscends(t, f, s + 1, through, limit - 1);
      }
    }
  }

  // A page with a successor has come further.
  lemma MoreAdvances(t: Table, f: Filter, after: nat, through: nat, limit: nat)
    requires limit > 0
    ensures var p := Scan(t, f, after + 1, through, limit);
            p.more ==> after < LastOf(p.keys, after) <= through
  {
    ScanAscends(t, f, after + 1, through, limit);
  }

  // A page leaves nothing out: a selected sequence is on it, or comes after its last one.
  lemma {:induction false} ScanSkipsNothing(t: Table, f: Filter, s: nat, through: nat, limit: nat, k: nat)
    requires s > 0 && s <= k <= through && Selected(t, f, k)
    ensures var p := Scan(t, f, s, through, limit);
            k in p.keys || (p.more && LastOf(p.keys, s - 1) < k)
    decreases through + 1 - s
  {
    if !Selected(t, f, s) {
      ScanSkipsNothing(t, f, s + 1, through, limit, k);
    } else if limit > 0 && s < k {
      ScanSkipsNothing(t, f, s + 1, through, limit - 1, k);
      var rest := Scan(t, f, s + 1, through, limit - 1);
      assert ([s] + rest.keys)[1..] == rest.keys;
    }
  }

  // What a client collects by following cursors: each page is read from the table as it is then.
  datatype Visit = Visit(table: Table, limit: nat, page: Page)
  type Walk = seq<Visit>

  function Before(w: Walk): Walk
    requires w != []
  {
    w[..|w| - 1]
  }

  function Latest(w: Walk): Visit
    requires w != []
  {
    w[|w| - 1]
  }

  // Where the next page starts.
  function After(w: Walk): nat {
    if w == [] then 0 else LastOf(Latest(w).page.keys, After(Before(w)))
  }

  // A page read from its table, after the pages before it.
  ghost predicate PageFollows(w: Walk, v: Visit, f: Filter, through: nat) {
    v.limit > 0 && v.page == Scan(v.table, f, After(w) + 1, through, v.limit)
  }

  // Every page so far has a successor; the first one fixed `through`.
  ghost predicate Underway(w: Walk, f: Filter, through: nat) {
    w == [] ||
    (Underway(Before(w), f, through) && PageFollows(Before(w), Latest(w), f, through) && Latest(w).page.more)
  }

  // The latest page may be the last one.
  ghost predicate Follows(w: Walk, f: Filter, through: nat) {
    w != [] && Underway(Before(w), f, through) && PageFollows(Before(w), Latest(w), f, through)
  }

  // Everything listed.
  function Listed(w: Walk): seq<nat> {
    if w == [] then [] else Listed(Before(w)) + Latest(w).page.keys
  }

  // What has been listed so far ascends, and ends where the next page starts.
  ghost predicate Progress(listed: seq<nat>, after: nat, through: nat) {
    Ascending(listed) && Within(listed, 0, after) && after == LastOf(listed, 0) && after <= through
  }

  // Appending a page that starts after everything listed so far.
  lemma AppendPage(listed: seq<nat>, keys: seq<nat>, after: nat, through: nat)
    requires Progress(listed, after, through) && Ascending(keys) && Within(keys, after, through)
    ensures Progress(listed + keys, LastOf(keys, after), through)
  {
    var both := listed + keys;
    forall i, j | 0 <= i < j < |both|
      ensures both[i] < both[j]
    {
      if i < |listed| <= j {
        assert both[i] <= after < keys[j - |listed|];
      }
    }
    assert keys == [] ==> both == listed;
  }

  lemma ScanProgress(listed: seq<nat>, after: nat, t: Table, f: Filter, through: nat, limit: nat)
    requires Progress(listed, after, through)
    ensures var keys := Scan(t, f, after + 1, through, limit).keys;
            Progress(listed + keys, LastOf(keys, after), through)
  {
    ScanAscends(t, f, after + 1, through, limit);
    AppendPage(listed, Scan(t, f, after + 1, through, limit).keys, after, through);
  }

  lemma {:induction false} ListedAscends(w: Walk, f: Filter, through: nat)
    requires Underway(w, f, through)
    ensures Progress(Listed(w), After(w), through)
  {
    if w != [] {
      var before, v := Before(w), Latest(w);
      ListedAscends(before, f, through);
      ScanProgress(Listed(before), After(before), v.table, f, through, v.limit);
    }
  }

  ghost predicate StaysSelected(w: Walk, f: Filter, s: nat) {
    forall v :: v in w ==> Selected(v.table, f, s)
  }

  // A page lists what it comes to, or leaves it to the next one.
  lemma PageSkipsNothing(w: Walk, v: Visit, f: Filter, through: nat, s: nat)
    requires PageFollows(w, v, f, through) && Selected(v.table, f, s) && After(w) < s <= through
    ensures s in v.page.keys || (v.page.more && LastOf(v.page.keys, After(w)) < s)
  {
    ScanSkipsNothing(v.table, f, After(w) + 1, through, v.limit, s);
  }

  lemma {:induction false} NothingSkipped(w: Walk, f: Filter, through: nat, s: nat)
    requires Underway(w, f, through) && StaysSelected(w, f, s) && 0 < s <= through
    ensures s in Listed(w) || After(w) < s
  {
    if w != [] {
      assert Latest(w) in w && forall v :: v in Before(w) ==> v in w;
      NothingSkipped(Before(w), f, through, s);
      if After(Before(w)) < s {
        PageSkipsNothing(Before(w), Latest(w), f, through, s);
      }
    }
  }

  lemma {:induction false} AscendingOnce(q: seq<nat>, s: nat)
    requires Ascending(q)
    ensures multiset(q)[s] == if s in q then 1 else 0
    decreases |q|
  {
    if q != [] {
      var last := q[|q| - 1];
      assert q == q[..|q| - 1] + [last];
      AscendingOnce(q[..|q| - 1], s);
    }
  }

  /** Following the cursors to the last page, with any starts, state changes and expiries in
      between: no execution comes twice, none accepted after the first page comes at all, and
      one that was there at the first page, stayed and matched throughout comes exactly once. */
  lemma PagesCoverTheSnapshot(w: Walk, f: Filter, through: nat, s: nat)
    requires Follows(w, f, through) && !Latest(w).page.more
    ensures var times := multiset(Listed(w))[s];
            && times <= 1
            && (s > through ==> times == 0)
            && (0 < s <= through && StaysSelected(w, f, s) ==> times == 1)
  {
    var before, v := Before(w), Latest(w);
    ListedAscends(before, f, through);
    ScanProgress(Listed(before), After(before), v.table, f, through, v.limit);
    AscendingOnce(Listed(w), s);
    if 0 < s <= through && StaysSelected(w, f, s) {
      assert v in w && forall u :: u in before ==> u in w;
      NothingSkipped(before, f, through, s);
      if After(before) < s {
        PageSkipsNothing(before, v, f, through, s);
      }
    }
  }
}
